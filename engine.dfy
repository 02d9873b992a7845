/** `TS3EventThread`: the per-event handlers, `_name`, `_init`, `_loop`,
    `_handle` and the backoff of `run`, updating the channel state object,
    the nickname cache `_nc` and the log of emitted signals in place. Each
    method is proved to have exactly the effect that the function of the
    same name in `Reconcile` describes, so the properties proved about those
    functions in `ReconcileLemmas` hold of the methods. */
module Engine {
  import opened Text
  import opened Codec
  import opened Replies
  import opened Store
  import opened Transport
  import opened Reconcile

  class EventThread {
    /** `state`: the channel state object shared with the view. */
    const state: ChannelState
    /** `_nc`: the nickname cache. */
    var nc: map<String, String>
    /** The signals emitted so far, in order. */
    var events: seq<Event>
    /** The replies the server will give to the handlers' queries. */
    var peer: seq<Reply>
    /** The client ids the whispers window lists. */
    var openWhispers: set<String>
    /** `_delay`: the wait before the next reconnection, in seconds. */
    var delay: nat

    /** The thread's state as a value. */
    function Value(): World
      reads this, state
    {
      World(state.Value(), nc, events, peer, openWhispers)
    }

    /** The end of a handler: `None` for a normal return, or the text of the
        exception it raised. */
    function Result(err: Option<String>): Outcome
      reads this, state
    {
      if err.None? then Done(Value()) else Raised(Value(), err.value)
    }

    constructor (st: ChannelState, replies: seq<Reply>, listed: set<String>)
      ensures state == st && nc == map[] && events == [] && peer == replies
      ensures openWhispers == listed && delay == 2
    {
      state := st;
      nc, events, peer, openWhispers := map[], [], replies, listed;
      delay := 2;
    }

    /** One query to the server: its reply (`_cmd` raising
        `ConnectionError` is `Broken`). */
    method Query() returns (r: Reply)
      modifies this
      ensures (r, Value()) == Ask(old(Value()))
    {
      if peer == [] {
        r := Answer([]);
      } else {
        r := peer[0];
        peer := peer[1..];
      }
    }

    /** Emit one signal. */
    method Emit(e: Event)
      modifies this
      ensures Value() == Reconcile.Emit(old(Value()), e)
      ensures delay == old(delay)
    {
      events := events + [e];
    }

    /** `_push`. */
    method Push()
      modifies this
      ensures Value() == Reconcile.Push(old(Value()))
    {
      Emit(UpdateUsers(state.Snap()));
    }

    /** `_name`. */
    method Name(clid: String, d: Fields) returns (n: String)
      modifies this
      ensures (n, Value()) == Reconcile.Name(old(Value()), clid, d)
    {
      var inline := if d != map[] then FirstUsable(d, EventFields) else None;
      if inline.Some? {
        n := Unescape(inline.value);
        if clid != [] {
          nc := nc[clid := n];
        }
        return;
      }
      if clid != [] && clid in nc {
        var cached := nc[clid];
        if cached != [] && cached != "?" && cached != Unknown {
          return cached;
        }
      }
      if clid == [] {
        return Unknown;
      }
      var found := InfoAttempts(clid);
      if found.Some? {
        return found.value;
      }
      n := ListFallback(clid);
    }

    /** The four `clientinfo` attempts of `_name`. */
    method InfoAttempts(clid: String) returns (found: Option<String>)
      modifies this
      ensures (found, Value()) == Reconcile.InfoAttempts(old(Value()), clid, 4)
    {
      var attempt := 0;
      while attempt < 4
        invariant 0 <= attempt <= 4
        invariant Reconcile.InfoAttempts(Value(), clid, 4 - attempt) == Reconcile.InfoAttempts(old(Value()), clid, 4)
      {
        var r := Query();
        if r.Answer? {
          var usable := FirstUsable(ClientInfo(r.text), InfoFields);
          if usable.Some? {
            var n := Unescape(usable.value);
            nc := nc[clid := n];
            return Some(n);
          }
        }
        attempt := attempt + 1;
      }
      return None;
    }

    /** The roster scan and the last resorts of `_name`. */
    method ListFallback(clid: String) returns (n: String)
      modifies this
      ensures (n, Value()) == Reconcile.ListFallback(old(Value()), clid)
    {
      var r := Query();
      if r.Answer? {
        var listed := ListName(ClientList(r.text), clid);
        if listed.Some? {
          n := listed.value;
          nc := nc[clid := n];
          return;
        }
      }
      if clid in nc && nc[clid] != "?" && nc[clid] != [] {
        return nc[clid];
      }
      return "Usuario-" + Last4(clid);
    }

    /** `_init`. */
    method Init() returns (err: Option<String>)
      modifies this, state
      ensures Result(err) == Reconcile.Init(old(Value()))
    {
      var r1 := Query();
      if r1.Broken? {
        return Some(SocketClosed);
      }
      var me := Whoami(r1.text);
      if me == map[] {
        return Some("whoami vacío");
      }
      var myClid, myCid := Get(me, "clid", []), Get(me, "cid", []);
      if myCid == [] {
        return Some("No conectado a TS3");
      }
      err := InitChannel(myClid, myCid);
    }

    /** `_init` once my ids are known. */
    method InitChannel(myClid: String, myCid: String) returns (err: Option<String>)
      modifies this, state
      ensures Result(err) == Reconcile.InitChannel(old(Value()), myClid, myCid)
    {
      var r2 := Query();
      if r2.Broken? {
        return Some(SocketClosed);
      }
      var r3 := Query();
      if r3.Broken? {
        return Some(SocketClosed);
      }
      state.SetMe(myClid, myCid, ChannelName(r2.text, myCid), ServerName(r3.text));
      var r5 := Query();
      state.SetGroupNames(if r5.Broken? then map[] else ChannelGroups(r5.text));
      var r7 := Query();
      if r7.Broken? {
        return Some(SocketClosed);
      }
      var all := ClientList(r7.text);
      state.SetClients(InChannel(all, myCid));
      nc := NickCache(all);
      return None;
    }

    /** `_on_talk`. */
    method OnTalk(line: String)
      modifies this, state
      ensures Value() == Reconcile.OnTalk(old(Value()), Parse(line))
    {
      var d := Parse(line);
      var clid := Get(d, "clid", []);
      var talking := Get(d, "status", "0") == "1";
      var whisper := "isreceivedwhisper" in d && d["isreceivedwhisper"] == "1";
      state.SetTalking(clid, talking);
      if whisper {
        state.SetWhisperTalking(clid, talking);
      } else if talking {
        state.SetWhisperTalking(clid, false);
      }
      Push();
      if whisper {
        if talking && clid !in openWhispers {
          var sender := if clid in nc && nc[clid] != [] then nc[clid] else "Usuario (" + clid + ")";
          Emit(ShowMessage(sender, [], "whisper", clid));
          Emit(NotifMessage(sender, "Susurro", "whisper"));
        }
        Emit(WhisperTalk(clid, talking));
      }
    }

    /** `_on_upd`. */
    method OnUpd(line: String)
      modifies this, state
      ensures Value() == Reconcile.OnUpd(old(Value()), Parse(line))
    {
      var d := Parse(line);
      var clid := Get(d, "clid", []);
      if clid == [] || !state.Has(clid) {
        return;
      }
      var upd := map k | k in d && k in UpdateFields :: d[k];
      if upd != map[] {
        state.Upsert(clid, upd);
        Push();
      }
    }

    /** A client joins my channel (the common part of `_on_move` and
        `_on_enter`). */
    method Admit(clid: String, cid: String, d: Fields) returns (err: Option<String>)
      modifies this, state
      ensures Result(err) == Reconcile.Admit(old(Value()), clid, cid, d)
    {
      var name := Name(clid, d);
      var r := Query();
      if r.Broken? {
        return Some(SocketClosed);
      }
      var info := ClientInfo(r.text);
      if info != map[] {
        info := info["clid" := clid]["cid" := cid];
        if "client_nickname" !in info {
          info := info["client_nickname" := name];
        }
        state.Upsert(clid, info);
      } else {
        state.Upsert(clid, map["clid" := clid, "cid" := cid, "client_nickname" := name]);
      }
      nc := nc[clid := name];
      Emit(NotifyJoin(clid, name));
      return None;
    }

    /** `_on_move`. */
    method OnMove(line: String) returns (err: Option<String>)
      modifies this, state
      ensures Result(err) == Reconcile.OnMove(old(Value()), Parse(line))
    {
      var d := Parse(line);
      var clid, newCid := Get(d, "clid", []), Get(d, "ctid", []);
      if clid == [] {
        return None;
      }
      var myClid, myCid := state.GetMyClid(), state.GetMyCid();
      if clid == myClid {
        err := MoveSelf(myClid, newCid);
        return;
      }
      var inBefore := state.Has(clid);
      if newCid == myCid && !inBefore {
        err := Admit(clid, newCid, d);
        if err.Some? {
          return;
        }
      } else if inBefore && newCid != myCid {
        var name := Get(nc, clid, clid);
        state.Remove(clid);
        Emit(NotifyLeave(clid, name));
        Emit(NotifyMoved(clid, name));
        Emit(WhisperLeave(clid));
      }
      Push();
      return None;
    }

    /** `_on_move` when the client that moved is me. */
    method MoveSelf(myClid: String, newCid: String) returns (err: Option<String>)
      requires myClid == state.myClid
      modifies this, state
      ensures Result(err) == Reconcile.MoveSelf(old(Value()), newCid)
    {
      var r1 := Query();
      if r1.Broken? {
        return Some(SocketClosed);
      }
      var r2 := Query();
      if r2.Broken? {
        return Some(SocketClosed);
      }
      state.SetMe(myClid, newCid, ChannelName(r1.text, newCid), ServerName(r2.text));
      Push();
      var r4 := Query();
      if r4.Broken? {
        return Some(SocketClosed);
      }
      var all := ClientList(r4.text);
      nc := NickCache(all);
      state.SetClients(InChannel(all, newCid));
      Emit(ChannelChanged);
      Push();
      return None;
    }

    /** `_on_enter`. */
    method OnEnter(line: String) returns (err: Option<String>)
      modifies this, state
      ensures Result(err) == Reconcile.OnEnter(old(Value()), Parse(line))
    {
      var d := Parse(line);
      var clid, newCid := Get(d, "clid", []), Get(d, "ctid", []);
      if newCid != state.GetMyCid() {
        return None;
      }
      if state.Has(clid) {
        return None;
      }
      err := Admit(clid, newCid, d);
      if err.Some? {
        return;
      }
      Push();
    }

    /** `_on_left`. */
    method OnLeft(line: String)
      modifies this, state
      ensures Value() == Reconcile.OnLeft(old(Value()), Parse(line))
    {
      var clid := Get(Parse(line), "clid", []);
      Emit(WhisperLeave(clid));
      if !state.Has(clid) {
        return;
      }
      var name := Get(nc, clid, clid);
      state.Remove(clid);
      Emit(NotifyLeave(clid, name));
      Push();
    }

    /** `_on_msg`. */
    method OnMsg(line: String)
      modifies this
      ensures Value() == Reconcile.OnMsg(old(Value()), Parse(line))
    {
      var d := Parse(line);
      var sender, text := Get(d, "invokername", "?"), Get(d, "msg", []);
      if Get(d, "invokerid", []) == state.GetMyClid() {
        return;
      }
      var kind := MessageKind(Get(d, "targetmode", "0"));
      if kind.Some? {
        Emit(ShowMessage(sender, text, kind.value, []));
        Emit(NotifMessage(sender, text, kind.value));
      }
    }

    /** `_on_whisper`. */
    method OnWhisper(line: String)
      modifies this
      ensures Value() == Reconcile.OnWhisper(old(Value()), Parse(line))
    {
      var d := Parse(line);
      var clid := Whisperer(d);
      var text := Unescape(Get(d, "msg", []));
      var sender := WhisperSender(d);
      Emit(ShowMessage(sender, text, "whisper", if clid != [] then clid else sender));
      Emit(NotifMessage(sender, if text != [] then text else "Susurro", "whisper"));
    }

    /** The sender of a whisper, as `_on_whisper` resolves and caches it. */
    method WhisperSender(d: Fields) returns (sender: String)
      modifies this
      ensures (sender, Value()) == Reconcile.WhisperSender(old(Value()), d)
    {
      sender := Unescape(Get(d, "invokername", []));
      var clid := Whisperer(d);
      if sender == [] && clid != [] {
        if clid in nc && nc[clid] != [] {
          sender := nc[clid];
        } else {
          sender := Name(clid, d);
        }
      }
      if sender == [] {
        sender := "Susurro";
      }
      if clid != [] {
        nc := nc[clid := sender];
      }
    }

    /** `_handle`. */
    method Handle(line: String) returns (err: Option<String>)
      modifies this, state
      ensures Result(err) == Reconcile.Handle(old(Value()), line)
    {
      err := None;
      if StartsWith(line, "notifytalkstatuschange") {
        OnTalk(line);
      } else if StartsWith(line, "notifyclientupdated") {
        OnUpd(line);
      } else if StartsWith(line, "notifyclientmoved") {
        err := OnMove(line);
      } else if StartsWith(line, "notifycliententerview") {
        err := OnEnter(line);
      } else if StartsWith(line, "notifyclientleftview") {
        OnLeft(line);
      } else if StartsWith(line, "notifytextmessage") {
        OnMsg(line);
      } else if StartsWith(line, "notifywhisper") {
        OnWhisper(line);
      } else if StartsWith(line, "notifyconnectstatuschange") {
        var d := Parse(line);
        if "status" in d && d["status"] == "disconnected" {
          err := Some("TS3 desconectado");
        }
      }
    }

    /** `_loop` over the outcomes of its successive `read_line` calls; the
        stop event is set once they are used up. */
    method Loop(feed: seq<ReadOutcome>) returns (err: Option<String>)
      modifies this, state
      ensures Result(err) == Reconcile.Loop(old(Value()), feed, 0)
    {
      var consecutiveEmpty: nat := 0;
      var i := 0;
      while i < |feed|
        invariant 0 <= i <= |feed|
        invariant Reconcile.Loop(Value(), feed[i..], consecutiveEmpty) == Reconcile.Loop(old(Value()), feed, 0)
      {
        var read := feed[i];
        i := i + 1;
        if read.Closed? {
          return Some(SocketClosed);
        }
        if read.Fault? {
          consecutiveEmpty := consecutiveEmpty + 1;
          if consecutiveEmpty > 10 {
            return Some(read.msg);
          }
          continue;
        }
        consecutiveEmpty := 0;
        var line := if read.Line? then read.text else [];
        if line == [] {
          consecutiveEmpty := consecutiveEmpty + 1;
          if consecutiveEmpty > 30 {
            // Unreachable: the successful read just above reset the count.
            assert false;
          }
          continue;
        }
        consecutiveEmpty := 0;
        err := Handle(line);
        if err.Some? {
          return;
        }
      }
      return None;
    }

    /** The backoff of `run`: after each attempt (whose `connect` may have
        reset the delay to 2) it emits the error and `Reconectando…`, waits
        the delay and doubles it, up to 30. Returns the waits. */
    method Run(attempts: seq<Attempt>) returns (waits: seq<nat>)
      modifies this
      ensures waits == Waits(old(delay), attempts)
      ensures delay == FinalDelay(old(delay), attempts)
      ensures events == old(events) + RunEvents(attempts)
      ensures nc == old(nc) && peer == old(peer)
    {
      waits := [];
      var i := 0;
      while i < |attempts|
        invariant 0 <= i <= |attempts|
        invariant waits + Waits(delay, attempts[i..]) == Waits(old(delay), attempts)
        invariant FinalDelay(delay, attempts[i..]) == FinalDelay(old(delay), attempts)
        invariant events + RunEvents(attempts[i..]) == old(events) + RunEvents(attempts)
        invariant nc == old(nc) && peer == old(peer)
      {
        ghost var rest, d0, w0, e0 := attempts[i..], delay, waits, events;
        if attempts[i].connected {
          delay := 2;
        }
        var es := [ShowError(attempts[i].error), ShowError("Reconectando…")];
        events := events + es;
        waits := waits + [delay];
        delay := if delay * 2 < 30 then delay * 2 else 30;
        i := i + 1;
        BackoffStep(d0, rest, w0, e0, es);
      }
    }
  }

  /** One pass of `run`'s loop, on the sequences its invariants relate. */
  lemma BackoffStep(d0: nat, rest: seq<Attempt>, w0: seq<nat>, e0: seq<Event>, es: seq<Event>)
    requires rest != [] && es == [ShowError(rest[0].error), ShowError("Reconectando…")]
    ensures var d := if rest[0].connected then 2 else d0;
            && w0 + Waits(d0, rest) == (w0 + [d]) + Waits(Next(d), rest[1..])
            && FinalDelay(d0, rest) == FinalDelay(Next(d), rest[1..])
            && e0 + RunEvents(rest) == (e0 + es) + RunEvents(rest[1..])
  {
    var d := if rest[0].connected then 2 else d0;
    var ws := Waits(Next(d), rest[1..]);
    assert Waits(d0, rest) == [d] + ws;
    assert w0 + ([d] + ws) == (w0 + [d]) + ws;
    var rs := RunEvents(rest[1..]);
    assert RunEvents(rest) == es + rs;
    assert e0 + (es + rs) == (e0 + es) + rs;
  }
}
