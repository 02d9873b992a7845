/** What the reconciliation rules of `Reconcile` guarantee: the nickname
    fallback chain, the per-event handlers, the dispatcher, the reading loop
    and the reconnection backoff. */
module ReconcileLemmas {
  import opened Text
  import opened Codec
  import opened Replies
  import opened Store
  import opened Transport
  import opened Reconcile

  lemma SuffixTrans<T>(s3: seq<T>, s2: seq<T>, s1: seq<T>)
    requires Suffix(s3, s2) && Suffix(s2, s1)
    ensures Suffix(s3, s1)
  {
    assert s1[|s1| - |s2|..][|s2| - |s3|..] == s1[|s1| - |s3|..];
  }

  lemma AskFrame(w: World)
    ensures var (r, w1) := Ask(w);
            w1 == w.(peer := w1.peer) && Suffix(w1.peer, w.peer) && |w1.peer| >= |w.peer| - 1
  {
  }

  // ---------------------------------------------------------------------
  // The store invariant

  /** Every tracked record is filed under its own client id. */
  predicate Keyed(cs: map<String, Client>) {
    forall k :: k in cs ==> "clid" in cs[k] && cs[k]["clid"] == k
  }

  /** Every tracked record places its client in my channel. */
  predicate InMyChannel(s: Store) {
    forall k :: k in s.clients ==> "cid" in s.clients[k] && s.clients[k]["cid"] == s.myCid
  }

  /** The roster invariant: one record per client id, each in my channel. */
  predicate Consistent(s: Store) {
    Keyed(s.clients) && InMyChannel(s)
  }

  /** The record for a client that joined channel `cid`. */
  predicate Member(c: Client, clid: String, cid: String) {
    "clid" in c && c["clid"] == clid && "cid" in c && c["cid"] == cid && "client_nickname" in c
  }

  lemma KeyByClidKeyed(cs: seq<Client>)
    ensures Keyed(KeyByClid(cs))
  {
  }

  // ---------------------------------------------------------------------
  // _name

  /** The `clientinfo` attempts of `_name` only use up replies (at most one
      per attempt) and extend the nickname cache with the name they find,
      which is never empty. */
  lemma {:induction false} InfoAttemptsFrame(w: World, clid: String, k: nat)
    ensures var (r, w1) := InfoAttempts(w, clid, k);
            && w1.store == w.store && w1.events == w.events && w1.openWhispers == w.openWhispers
            && Suffix(w1.peer, w.peer) && |w1.peer| >= |w.peer| - k
            && w1.nc.Keys >= w.nc.Keys
            && (forall o :: o in w.nc && o != clid ==> w1.nc[o] == w.nc[o])
            && (r.None? ==> w1.nc == w.nc)
            && (r.Some? ==> r.value != [] && clid in w1.nc && w1.nc[clid] == r.value)
    decreases k
  {
    if k > 0 {
      var (r, w1) := Ask(w);
      AskFrame(w);
      var found := if r.Answer? then FirstUsable(ClientInfo(r.text), InfoFields) else None;
      if found.Some? {
        UnescapeLength(found.value);
      } else {
        InfoAttemptsFrame(w1, clid, k - 1);
        var (_, w2) := InfoAttempts(w1, clid, k - 1);
        SuffixTrans(w2.peer, w1.peer, w.peer);
      }
    }
  }

  /** `_name` never yields an empty name; it touches neither the channel
      state nor the signals, uses at most five query replies (four
      `clientinfo`, one `clientlist`), and only adds or refreshes the cache
      entry of `clid`. Unless it falls back to the `Usuario-` placeholder,
      the name it returns for a non-empty id is the cached one afterwards. */
  lemma NameFrame(w: World, clid: String, d: Fields)
    ensures var (n, w1) := Name(w, clid, d);
            && n != []
            && w1.store == w.store && w1.events == w.events && w1.openWhispers == w.openWhispers
            && Suffix(w1.peer, w.peer) && |w1.peer| >= |w.peer| - 5
            && w1.nc.Keys >= w.nc.Keys
            && (forall o :: o in w.nc && o != clid ==> w1.nc[o] == w.nc[o])
            && (clid != [] ==> (clid in w1.nc && w1.nc[clid] == n) || n == "Usuario-" + Last4(clid))
  {
    var inline := if d != map[] then FirstUsable(d, EventFields) else None;
    if inline.Some? {
      UnescapeLength(inline.value);
    } else if clid != [] && clid in w.nc && w.nc[clid] != [] && w.nc[clid] != "?" && w.nc[clid] != Unknown {
    } else if clid != [] {
      InfoAttemptsFrame(w, clid, 4);
      var (found, w1) := InfoAttempts(w, clid, 4);
      if found.None? {
        ListFallbackFrame(w1, clid);
        var (_, w2) := ListFallback(w1, clid);
        SuffixTrans(w2.peer, w1.peer, w.peer);
      }
    }
  }

  /** The last resorts of `_name` use one reply and change nothing but the
      cache entry of that client. */
  lemma ListFallbackFrame(w: World, clid: String)
    ensures var (n, w1) := ListFallback(w, clid);
            && n != []
            && w1.store == w.store && w1.events == w.events && w1.openWhispers == w.openWhispers
            && Suffix(w1.peer, w.peer) && |w1.peer| >= |w.peer| - 1
            && w1.nc.Keys >= w.nc.Keys
            && (forall o :: o in w.nc && o != clid ==> w1.nc[o] == w.nc[o])
            && ((clid in w1.nc && w1.nc[clid] == n) || n == "Usuario-" + Last4(clid))
  {
    AskFrame(w);
  }

  /** The value of the last resorts: the first record of the listing that
      names the client under a usable nickname gives the name, which is
      cached; failing that (or on a closed socket), a cached name that is
      neither empty nor `?` is returned; otherwise the placeholder
      `Usuario-<last 4>`. Neither of the last two changes the cache. */
  lemma ListFallbackOrder(w: World, clid: String)
    ensures var (r, w1) := Ask(w);
            var listed := if r.Answer? then ListName(ClientList(r.text), clid) else None;
            var (n, w2) := ListFallback(w, clid);
            && (listed.Some? ==> n == listed.value && w2 == w1.(nc := w.nc[clid := n]))
            && (listed.None? && clid in w.nc && w.nc[clid] != "?" && w.nc[clid] != [] ==>
                  n == w.nc[clid] && w2 == w1)
            && (listed.None? && !(clid in w.nc && w.nc[clid] != "?" && w.nc[clid] != []) ==>
                  n == "Usuario-" + Last4(clid) && w2 == w1)
  {
    AskFrame(w);
  }

  /** The order of the fallback chain: a usable name carried by the event
      wins (and is cached under a non-empty id); otherwise a usable cached
      name is returned with nothing changed; without an id the result is
      `Desconocido`. */
  lemma NameOrder(w: World, clid: String, d: Fields)
    ensures var inline := if d != map[] then FirstUsable(d, EventFields) else None;
            inline.Some? ==>
              var (n, w1) := Name(w, clid, d);
              n == Unescape(inline.value) &&
              w1 == (if clid != [] then w.(nc := w.nc[clid := n]) else w)
    ensures (d == map[] || FirstUsable(d, EventFields).None?) && clid != [] && clid in w.nc &&
            w.nc[clid] != [] && w.nc[clid] != "?" && w.nc[clid] != Unknown ==>
              Name(w, clid, d) == (w.nc[clid], w)
    ensures (d == map[] || FirstUsable(d, EventFields).None?) && clid == [] ==> Name(w, clid, d) == (Unknown, w)
  {
  }

  /** With no usable inline or cached name, `_name` asks `clientinfo` first:
      a usable nickname in the first answer is unescaped, cached and
      returned. */
  lemma NameAsksClientInfo(w: World, clid: String, d: Fields, reply: String)
    requires d == map[] || FirstUsable(d, EventFields).None?
    requires clid != [] && !(clid in w.nc && w.nc[clid] != [] && w.nc[clid] != "?" && w.nc[clid] != Unknown)
    requires w.peer != [] && w.peer[0] == Answer(reply)
    requires Usable(Get(ClientInfo(reply), "client_nickname", []))
    ensures var n := Unescape(Get(ClientInfo(reply), "client_nickname", []));
            Name(w, clid, d) == (n, w.(peer := w.peer[1..], nc := w.nc[clid := n]))
  {
  }

  // ---------------------------------------------------------------------
  // Joining my channel

  /** A client admitted by `_on_enter` or `_on_move` is tracked with a record
      naming its id and channel and carrying a nickname; no other record
      changes, the name is cached and `notify_join` is the one signal
      emitted. A closed socket while fetching its record raises. */
  lemma AdmitEffect(w: World, clid: String, cid: String, d: Fields)
    ensures match Admit(w, clid, cid, d)
            case Done(w1) =>
              && w1.store == w.store.(clients := w1.store.clients)
              && w1.store.clients.Keys == w.store.clients.Keys + {clid}
              && (forall o :: o in w.store.clients && o != clid ==> w1.store.clients[o] == w.store.clients[o])
              && Member(w1.store.clients[clid], clid, cid)
              && clid in w1.nc && w1.nc[clid] != []
              && w1.events == w.events + [NotifyJoin(clid, w1.nc[clid])]
              && w1.openWhispers == w.openWhispers
            case Raised(w1, e) =>
              e == SocketClosed && w1.store == w.store && w1.events == w.events
  {
    NameKeeps(w, clid, d);
    var (name, w1) := Name(w, clid, d);
    var (r, w2) := Ask(w1);
    AskFrame(w1);
    if r.Answer? {
      var rec := Joined(ClientInfo(r.text), clid, cid, name);
      assert Member(rec, clid, cid);
      UpsertMember(w2.store.clients, clid, rec, cid);
    }
  }

  /** `_name` returns a non-empty name and changes no state but the cache
      and the pending replies. */
  lemma NameKeeps(w: World, clid: String, d: Fields)
    ensures var (n, w1) := Name(w, clid, d);
            n != [] && w1 == w.(nc := w1.nc, peer := w1.peer)
  {
    NameFrame(w, clid, d);
  }

  /** The record filed for a joining client names it and its channel. */
  lemma UpsertMember(cs: map<String, Client>, clid: String, rec: Client, cid: String)
    requires Member(rec, clid, cid)
    ensures Member(Upserted(cs, clid, rec)[clid], clid, cid)
  {
  }

  // ---------------------------------------------------------------------
  // The handlers

  /** `_on_talk` writes `client_flag_talking` from `status == "1"` on a
      tracked client, whisper or not; a whisper also writes
      `client_flag_whisper` with the same value, and a non-whisper talk
      start clears it. Nothing else in the state changes. */
  lemma TalkFlags(w: World, d: Fields)
    ensures var clid := Get(d, "clid", []);
            var talking := Get(d, "status", "0") == "1";
            var whisper := "isreceivedwhisper" in d && d["isreceivedwhisper"] == "1";
            var cs, cs1 := w.store.clients, OnTalk(w, d).store.clients;
            && OnTalk(w, d).store == w.store.(clients := cs1)
            && OnTalk(w, d).nc == w.nc && OnTalk(w, d).peer == w.peer
            && cs1.Keys == cs.Keys
            && (forall o :: o in cs && o != clid ==> cs1[o] == cs[o])
            && (clid in cs ==>
                  && "client_flag_talking" in cs1[clid]
                  && cs1[clid]["client_flag_talking"] == FlagValue(talking)
                  && (whisper ==> "client_flag_whisper" in cs1[clid] &&
                                  cs1[clid]["client_flag_whisper"] == FlagValue(talking))
                  && (!whisper && talking ==> "client_flag_whisper" in cs1[clid] &&
                                              cs1[clid]["client_flag_whisper"] == "0")
                  && (!whisper && !talking ==> cs1[clid] == cs[clid]["client_flag_talking" := "0"])
                  && (forall k :: k in cs[clid] && k != "client_flag_talking" && k != "client_flag_whisper" ==>
                        k in cs1[clid] && cs1[clid][k] == cs[clid][k]))
  {
    TalkFrame(w, d);
  }

  /** `_on_talk` changes the state only through `Flagged`. */
  lemma TalkFrame(w: World, d: Fields)
    ensures var clid := Get(d, "clid", []);
            var talking := Get(d, "status", "0") == "1";
            var whisper := "isreceivedwhisper" in d && d["isreceivedwhisper"] == "1";
            var w1 := OnTalk(w, d);
            && w1.store == w.store.(clients := Flagged(w.store.clients, clid, talking, whisper))
            && w1.nc == w.nc && w1.peer == w.peer
  {
  }

  /** Writing flags keeps every record's `clid` and `cid`. */
  lemma FlaggedKeeps(s: Store, clid: String, talking: bool, whisper: bool)
    requires Consistent(s)
    ensures Consistent(s.(clients := Flagged(s.clients, clid, talking, whisper)))
  {
    var s1 := s.(clients := SetFlag(s.clients, clid, "client_flag_talking", talking));
    SetFlagKeeps(s, clid, "client_flag_talking", talking);
    if whisper || talking {
      SetFlagKeeps(s1, clid, "client_flag_whisper", whisper && talking);
    }
  }

  lemma SetFlagKeeps(s: Store, clid: String, flag: String, on: bool)
    requires Consistent(s) && flag != "clid" && flag != "cid"
    ensures Consistent(s.(clients := SetFlag(s.clients, clid, flag, on)))
  {
    var cs := SetFlag(s.clients, clid, flag, on);
    forall k | k in cs
      ensures "clid" in cs[k] && cs[k]["clid"] == k && "cid" in cs[k] && cs[k]["cid"] == s.myCid
    {
      if k == clid {
        assert cs[k]["clid"] == s.clients[k]["clid"];
        assert cs[k]["cid"] == s.clients[k]["cid"];
      }
    }
  }

  /** The signals of `_on_talk`: always a snapshot first; a whisper ends
      with `whisper_talk`, preceded (on a whisper start from a client the
      whispers window does not list) by a whisper message addressed to
      that client. */
  lemma TalkSignals(w: World, d: Fields)
    ensures var clid := Get(d, "clid", []);
            var talking := Get(d, "status", "0") == "1";
            var whisper := "isreceivedwhisper" in d && d["isreceivedwhisper"] == "1";
            var w1 := OnTalk(w, d);
            var n := |w.events|;
            && |w1.events| > n
            && w1.events[..n + 1] == w.events + [UpdateUsers(SnapshotOf(w1.store))]
            && (!whisper ==> |w1.events| == n + 1)
            && (whisper && !(talking && clid !in w.openWhispers) ==>
                  w1.events == w.events + [UpdateUsers(SnapshotOf(w1.store)), WhisperTalk(clid, talking)])
            && (whisper && talking && clid !in w.openWhispers ==>
                  && |w1.events| == n + 4
                  && w1.events[n + 1].ShowMessage? && w1.events[n + 1].kind == "whisper"
                  && w1.events[n + 1].target == clid && w1.events[n + 1].sender != []
                  && w1.events[n + 2] == NotifMessage(w1.events[n + 1].sender, "Susurro", "whisper")
                  && w1.events[n + 3] == WhisperTalk(clid, true))
  {
  }

  /** `_on_upd` ignores an empty or untracked client id and an update that
      carries none of the four allowed fields; otherwise it merges exactly
      the allowed fields present into the record and pushes a snapshot. */
  lemma UpdMerge(w: World, d: Fields)
    ensures var clid := Get(d, "clid", []);
            var cs := w.store.clients;
            (clid == [] || clid !in cs || d.Keys * UpdateFields == {}) ==> OnUpd(w, d) == w
    ensures var clid := Get(d, "clid", []);
            var cs := w.store.clients;
            var w1 := OnUpd(w, d);
            var cs1 := w1.store.clients;
            clid != [] && clid in cs && d.Keys * UpdateFields != {} ==>
              && w1.store == w.store.(clients := cs1)
              && cs1.Keys == cs.Keys
              && (forall o :: o in cs && o != clid ==> cs1[o] == cs[o])
              && cs1[clid].Keys == cs[clid].Keys + d.Keys * UpdateFields
              && (forall k :: k in d && k in UpdateFields ==> cs1[clid][k] == d[k])
              && (forall k :: k in cs[clid] && !(k in d && k in UpdateFields) ==> cs1[clid][k] == cs[clid][k])
              && w1.events == w.events + [UpdateUsers(SnapshotOf(w1.store))]
  {
    var u := Allowed(d);
    if d.Keys * UpdateFields == {} {
      assert u == map[];
    } else {
      var k :| k in d.Keys * UpdateFields;
      assert k in u;
    }
  }

  /** `_on_enter` for a client entering another channel, or for a client
      already tracked (a move already handled it), changes nothing and
      emits nothing. Otherwise the client is admitted and a snapshot
      follows `notify_join`. */
  lemma EnterEffect(w: World, d: Fields)
    ensures var clid, ctid := Get(d, "clid", []), Get(d, "ctid", []);
            (ctid != w.store.myCid || clid in w.store.clients) ==> OnEnter(w, d) == Done(w)
    ensures var clid, ctid := Get(d, "clid", []), Get(d, "ctid", []);
            ctid == w.store.myCid && clid !in w.store.clients && OnEnter(w, d).Done? ==>
              var w1 := OnEnter(w, d).w;
              && w1.store == w.store.(clients := w1.store.clients)
              && w1.store.clients.Keys == w.store.clients.Keys + {clid}
              && (forall o :: o in w.store.clients ==> w1.store.clients[o] == w.store.clients[o])
              && Member(w1.store.clients[clid], clid, w.store.myCid)
              && clid in w1.nc
              && w1.events == w.events + [NotifyJoin(clid, w1.nc[clid]), UpdateUsers(SnapshotOf(w1.store))]
  {
    var clid, ctid := Get(d, "clid", []), Get(d, "ctid", []);
    if ctid == w.store.myCid && clid !in w.store.clients {
      AdmitEffect(w, clid, ctid, d);
    }
  }

  /** Processing the same `notifycliententerview` twice is the same as
      processing it once. */
  lemma EnterIdempotent(w: World, d: Fields)
    requires OnEnter(w, d).Done?
    ensures OnEnter(OnEnter(w, d).w, d) == OnEnter(w, d)
  {
    EnterEffect(w, d);
    EnterEffect(OnEnter(w, d).w, d);
  }

  /** `_on_left` always emits `whisper_leave` first; only a tracked client
      is removed, followed by `notify_leave` with its cached name (its id
      when none is cached) and a snapshot. */
  lemma LeftEffect(w: World, d: Fields)
    ensures var clid := Get(d, "clid", []);
            clid !in w.store.clients ==> OnLeft(w, d) == w.(events := w.events + [WhisperLeave(clid)])
    ensures var clid := Get(d, "clid", []);
            var w1 := OnLeft(w, d);
            clid in w.store.clients ==>
              && w1.store == w.store.(clients := w.store.clients - {clid})
              && w1.nc == w.nc && w1.peer == w.peer
              && w1.events == w.events + [WhisperLeave(clid), NotifyLeave(clid, Get(w.nc, clid, clid)),
                                          UpdateUsers(SnapshotOf(w1.store))]
  {
  }

  /** `_on_move` of a tracked client to another channel removes it and
      emits `notify_leave`, `notify_moved`, `whisper_leave` and a snapshot,
      in that order, without a query. */
  lemma MoveOut(w: World, d: Fields)
    requires var clid, ctid := Get(d, "clid", []), Get(d, "ctid", []);
             clid != [] && clid != w.store.myClid && clid in w.store.clients && ctid != w.store.myCid
    ensures var clid := Get(d, "clid", []);
            var name := Get(w.nc, clid, clid);
            var s1 := w.store.(clients := w.store.clients - {clid});
            OnMove(w, d) == Done(w.(store := s1, events := w.events +
              [NotifyLeave(clid, name), NotifyMoved(clid, name), WhisperLeave(clid), UpdateUsers(SnapshotOf(s1))]))
  {
  }

  /** `_on_move` of an untracked client into my channel admits it as
      `_on_enter` would. */
  lemma MoveIn(w: World, d: Fields)
    requires var clid, ctid := Get(d, "clid", []), Get(d, "ctid", []);
             clid != [] && clid != w.store.myClid && clid !in w.store.clients && ctid == w.store.myCid
    ensures OnMove(w, d) == OnEnter(w, d)
  {
  }

  /** Any other move of another client (tracked and staying, untracked and
      elsewhere) only pushes a snapshot; a move without `clid` does nothing. */
  lemma MoveOther(w: World, d: Fields)
    ensures Get(d, "clid", []) == [] ==> OnMove(w, d) == Done(w)
    ensures var clid, ctid := Get(d, "clid", []), Get(d, "ctid", []);
            clid != [] && clid != w.store.myClid && ((clid in w.store.clients) == (ctid == w.store.myCid)) ==>
              OnMove(w, d) == Done(w.(events := w.events + [UpdateUsers(SnapshotOf(w.store))]))
  {
  }

  /** When I move, the roster is rebuilt for my new channel: my channel id
      becomes the target, every tracked client is in it, and the signals
      end with `channel_changed` and a snapshot of the new roster. */
  lemma MovedMyself(w: World, d: Fields)
    requires var clid := Get(d, "clid", []);
             clid != [] && clid == w.store.myClid && OnMove(w, d).Done?
    ensures var w1 := OnMove(w, d).w;
            var n := |w.events|;
            && w1.store.myClid == w.store.myClid && w1.store.myCid == Get(d, "ctid", [])
            && w1.store.groupNames == w.store.groupNames
            && Consistent(w1.store)
            && |w1.events| == n + 3 && w1.events[..n] == w.events
            && w1.events[n] == UpdateUsers(SnapshotOf(w1.store.(clients := map[])))
            && w1.events[n + 1] == ChannelChanged
            && w1.events[n + 2] == UpdateUsers(SnapshotOf(w1.store))
  {
    MoveSelfEffect(w, Get(d, "ctid", []));
  }

  lemma MoveSelfEffect(w: World, newCid: String)
    requires MoveSelf(w, newCid).Done?
    ensures var w1 := MoveSelf(w, newCid).w;
            var n := |w.events|;
            && w1.store.myClid == w.store.myClid && w1.store.myCid == newCid
            && w1.store.groupNames == w.store.groupNames
            && Consistent(w1.store)
            && |w1.events| == n + 3 && w1.events[..n] == w.events
            && w1.events[n] == UpdateUsers(SnapshotOf(w1.store.(clients := map[])))
            && w1.events[n + 1] == ChannelChanged
            && w1.events[n + 2] == UpdateUsers(SnapshotOf(w1.store))
  {
    var (r1, w1) := Ask(w);
    AskFrame(w);
    var (r2, w2) := Ask(w1);
    AskFrame(w1);
    var ch, srv := ChannelName(r1.text, newCid), ServerName(r2.text);
    var s3 := Store(w.store.myClid, newCid, ch, srv, map[], w.store.groupNames);
    var w3 := Push(w2.(store := s3));
    assert w3.events == w.events + [UpdateUsers(SnapshotOf(s3))];
    var (r4, w4) := Ask(w3);
    AskFrame(w3);
    var all := ClientList(r4.text);
    Rebuilt(w4, all, newCid);
    var w5 := Push(Emit(WithClients(w4.(nc := NickCache(all)), KeyByClid(InChannel(all, newCid))), ChannelChanged));
    assert MoveSelf(w, newCid) == Done(w5);
    assert w5.events == w.events + [UpdateUsers(SnapshotOf(s3)), ChannelChanged, UpdateUsers(SnapshotOf(w5.store))];
    assert s3 == w5.store.(clients := map[]);
  }

  lemma Rebuilt(w: World, all: seq<Fields>, cid: String)
    requires w.store.myCid == cid
    ensures var w1 := Push(Emit(WithClients(w.(nc := NickCache(all)), KeyByClid(InChannel(all, cid))), ChannelChanged));
            && w1.store == w.store.(clients := KeyByClid(InChannel(all, cid)))
            && Consistent(w1.store)
            && w1.events == w.events + [ChannelChanged, UpdateUsers(SnapshotOf(w1.store))]
  {
    TrackedInChannel(all, cid);
    KeyByClidKeyed(InChannel(all, cid));
  }

  /** `_on_msg` ignores my own messages and messages whose `targetmode` is
      neither 1 (private) nor 2 (channel); otherwise it emits the message
      twice (window and notification list) and changes no state. */
  lemma MsgEffect(w: World, d: Fields)
    ensures var w1 := OnMsg(w, d);
            && w1 == w.(events := w1.events)
            && (Get(d, "invokerid", []) == w.store.myClid ==> w1 == w)
            && (Get(d, "targetmode", "0") !in {"1", "2"} ==> w1 == w)
            && (Get(d, "invokerid", []) != w.store.myClid && Get(d, "targetmode", "0") in {"1", "2"} ==>
                  var kind := if Get(d, "targetmode", "0") == "1" then "private" else "channel";
                  var sender, text := Get(d, "invokername", "?"), Get(d, "msg", []);
                  w1.events == w.events + [ShowMessage(sender, text, kind, []), NotifMessage(sender, text, kind)])
  {
  }

  /** `_on_whisper` emits a whisper message under a non-empty sender name,
      addressed to the client id when there is one and to the sender name
      otherwise; the channel state is untouched and a non-empty id is cached
      under that sender name. */
  lemma WhisperEffect(w: World, d: Fields)
    ensures var clid := if "clid" in d then d["clid"] else Get(d, "invokerid", []);
            var text := Unescape(Get(d, "msg", []));
            var w1 := OnWhisper(w, d);
            var n := |w.events|;
            && w1.store == w.store && w1.openWhispers == w.openWhispers
            && |w1.events| == n + 2 && w1.events[..n] == w.events
            && w1.events[n].ShowMessage?
            && var sender := w1.events[n].sender;
               && sender != []
               && w1.events[n] == ShowMessage(sender, text, "whisper", if clid != [] then clid else sender)
               && w1.events[n + 1] == NotifMessage(sender, if text != [] then text else "Susurro", "whisper")
               && (clid != [] ==> clid in w1.nc && w1.nc[clid] == sender)
               && (Unescape(Get(d, "invokername", [])) != [] ==> sender == Unescape(Get(d, "invokername", [])))
  {
    NameKeeps(w, Whisperer(d), d);
  }

  /** Dispatch is by prefix: a line that is not a notification changes
      nothing, and a `notifyconnectstatuschange` raises exactly when its
      status is `disconnected`. */
  lemma HandleDispatch(w: World, line: String)
    ensures !StartsWith(line, "notify") ==> Handle(w, line) == Done(w)
    ensures StartsWith(line, "notifyconnectstatuschange") ==>
              Handle(w, line) == (if Get(Parse(line), "status", []) == "disconnected"
                                  then Raised(w, "TS3 desconectado") else Done(w))
  {
    if !StartsWith(line, "notify") {
      NoEvent(line);
    }
    if StartsWith(line, "notifyconnectstatuschange") {
      StatusEvent(line);
    }
  }

  /** A line that is not a notification matches none of the event names. */
  lemma NoEvent(line: String)
    requires !StartsWith(line, "notify")
    ensures !StartsWith(line, "notifytalkstatuschange") && !StartsWith(line, "notifyclientupdated")
    ensures !StartsWith(line, "notifyclientmoved") && !StartsWith(line, "notifycliententerview")
    ensures !StartsWith(line, "notifyclientleftview") && !StartsWith(line, "notifytextmessage")
    ensures !StartsWith(line, "notifywhisper") && !StartsWith(line, "notifyconnectstatuschange")
  {
    NotPrefix(line, "notify", "notifytalkstatuschange");
    NotPrefix(line, "notify", "notifyclientupdated");
    NotPrefix(line, "notify", "notifyclientmoved");
    NotPrefix(line, "notify", "notifycliententerview");
    NotPrefix(line, "notify", "notifyclientleftview");
    NotPrefix(line, "notify", "notifytextmessage");
    NotPrefix(line, "notify", "notifywhisper");
    NotPrefix(line, "notify", "notifyconnectstatuschange");
  }

  /** A connection status line matches none of the earlier event names. */
  lemma StatusEvent(line: String)
    requires StartsWith(line, "notifyconnectstatuschange")
    ensures !StartsWith(line, "notifytalkstatuschange") && !StartsWith(line, "notifyclientupdated")
    ensures !StartsWith(line, "notifyclientmoved") && !StartsWith(line, "notifycliententerview")
    ensures !StartsWith(line, "notifyclientleftview") && !StartsWith(line, "notifytextmessage")
    ensures !StartsWith(line, "notifywhisper")
  {
    var p := "notifyconnectstatuschange";
    assert line[..|p|][6] == 'c';
    assert line[..|p|][6..8] == "co";
    assert !StartsWith(line, "notifytalkstatuschange") by { assert line[6] == 'c'; }
    assert !StartsWith(line, "notifyclientupdated") by { assert line[7] == 'o'; }
    assert !StartsWith(line, "notifyclientmoved") by { assert line[7] == 'o'; }
    assert !StartsWith(line, "notifycliententerview") by { assert line[7] == 'o'; }
    assert !StartsWith(line, "notifyclientleftview") by { assert line[7] == 'o'; }
    assert !StartsWith(line, "notifytextmessage") by { assert line[6] == 'c'; }
    assert !StartsWith(line, "notifywhisper") by { assert line[6] == 'c'; }
  }

  lemma NotPrefix(s: String, p: String, q: String)
    requires !StartsWith(s, p) && StartsWith(q, p)
    ensures !StartsWith(s, q)
  {
  }

  // ---------------------------------------------------------------------
  // The roster invariant across handlers

  lemma TalkConsistent(w: World, d: Fields)
    requires Consistent(w.store)
    ensures Consistent(OnTalk(w, d).store)
  {
    TalkFrame(w, d);
    FlaggedKeeps(w.store, Get(d, "clid", []), Get(d, "status", "0") == "1",
                 "isreceivedwhisper" in d && d["isreceivedwhisper"] == "1");
  }

  lemma UpdConsistent(w: World, d: Fields)
    requires Consistent(w.store)
    ensures Consistent(OnUpd(w, d).store)
  {
    var clid := Get(d, "clid", []);
    if clid != [] && clid in w.store.clients && Allowed(d) != map[] {
      UpsertKeeps(w.store, clid, Allowed(d));
    }
  }

  /** Merging fields other than `clid` and `cid` into a tracked record
      keeps the roster invariant. */
  lemma UpsertKeeps(s: Store, clid: String, u: Client)
    requires Consistent(s) && clid in s.clients && "clid" !in u && "cid" !in u
    ensures Consistent(s.(clients := Upserted(s.clients, clid, u)))
  {
    var cs := Upserted(s.clients, clid, u);
    forall k | k in cs
      ensures "clid" in cs[k] && cs[k]["clid"] == k && "cid" in cs[k] && cs[k]["cid"] == s.myCid
    {
      if k == clid {
        assert cs[k]["clid"] == s.clients[k]["clid"];
        assert cs[k]["cid"] == s.clients[k]["cid"];
      }
    }
  }

  lemma EnterConsistent(w: World, d: Fields)
    requires Consistent(w.store)
    ensures Consistent(OnEnter(w, d).w.store)
  {
    var clid, ctid := Get(d, "clid", []), Get(d, "ctid", []);
    if ctid == w.store.myCid && clid !in w.store.clients {
      AdmitConsistent(w, clid, ctid, d);
    }
  }

  /** A client admitted to my channel keeps the roster invariant. */
  lemma AdmitConsistent(w: World, clid: String, cid: String, d: Fields)
    requires Consistent(w.store) && cid == w.store.myCid
    ensures Consistent(Admit(w, clid, cid, d).w.store)
  {
    AdmitEffect(w, clid, cid, d);
  }

  lemma MoveConsistent(w: World, d: Fields)
    requires Consistent(w.store)
    ensures Consistent(OnMove(w, d).w.store)
  {
    var clid, ctid := Get(d, "clid", []), Get(d, "ctid", []);
    if clid == [] {
    } else if clid == w.store.myClid {
      if OnMove(w, d).Done? {
        MovedMyself(w, d);
      }
    } else if clid !in w.store.clients && ctid == w.store.myCid {
      MoveIn(w, d);
      EnterConsistent(w, d);
    } else if clid in w.store.clients && ctid != w.store.myCid {
      MoveOut(w, d);
    } else {
      MoveOther(w, d);
    }
  }

  /** Every handler keeps the roster invariant, whether it returns or
      raises: one record per client id, filed under that id, each in my
      channel. */
  lemma HandleConsistent(w: World, line: String)
    requires Consistent(w.store)
    ensures Consistent(Handle(w, line).w.store)
  {
    if StartsWith(line, "notifytalkstatuschange") || StartsWith(line, "notifyclientupdated") {
      HandleFlagsConsistent(w, line);
    } else if StartsWith(line, "notifyclientmoved") || StartsWith(line, "notifycliententerview") {
      HandleJoinConsistent(w, line);
    } else {
      HandleRestConsistent(w, line);
    }
  }

  lemma HandleFlagsConsistent(w: World, line: String)
    requires Consistent(w.store)
    requires StartsWith(line, "notifytalkstatuschange") || StartsWith(line, "notifyclientupdated")
    ensures Consistent(Handle(w, line).w.store)
  {
    if StartsWith(line, "notifytalkstatuschange") {
      TalkConsistent(w, Parse(line));
    } else {
      UpdConsistent(w, Parse(line));
    }
  }

  lemma HandleJoinConsistent(w: World, line: String)
    requires Consistent(w.store)
    requires !StartsWith(line, "notifytalkstatuschange") && !StartsWith(line, "notifyclientupdated")
    requires StartsWith(line, "notifyclientmoved") || StartsWith(line, "notifycliententerview")
    ensures Consistent(Handle(w, line).w.store)
  {
    if StartsWith(line, "notifyclientmoved") {
      MoveConsistent(w, Parse(line));
    } else {
      EnterConsistent(w, Parse(line));
    }
  }

  lemma HandleRestConsistent(w: World, line: String)
    requires Consistent(w.store)
    requires !StartsWith(line, "notifytalkstatuschange") && !StartsWith(line, "notifyclientupdated")
    requires !StartsWith(line, "notifyclientmoved") && !StartsWith(line, "notifycliententerview")
    ensures Consistent(Handle(w, line).w.store)
  {
    if StartsWith(line, "notifyclientleftview") {
      LeftConsistent(w, Parse(line));
    } else if !StartsWith(line, "notifytextmessage") && StartsWith(line, "notifywhisper") {
      HandleWhisperConsistent(w, line);
    }
  }

  lemma HandleWhisperConsistent(w: World, line: String)
    requires Consistent(w.store)
    requires !StartsWith(line, "notifytalkstatuschange") && !StartsWith(line, "notifyclientupdated")
    requires !StartsWith(line, "notifyclientmoved") && !StartsWith(line, "notifycliententerview")
    requires !StartsWith(line, "notifyclientleftview") && !StartsWith(line, "notifytextmessage")
    requires StartsWith(line, "notifywhisper")
    ensures Consistent(Handle(w, line).w.store)
  {
    NameKeeps(w, Whisperer(Parse(line)), Parse(line));
  }

  lemma LeftConsistent(w: World, d: Fields)
    requires Consistent(w.store)
    ensures Consistent(OnLeft(w, d).store)
  {
  }

  /** A handler raises only for a closed socket or a reported disconnection. */
  lemma HandleErrors(w: World, line: String)
    ensures Handle(w, line).Raised? ==>
              Handle(w, line).error == SocketClosed || Handle(w, line).error == "TS3 desconectado"
  {
    var d := Parse(line);
    if StartsWith(line, "notifyclientmoved") {
      MoveErrors(w, d);
    } else if StartsWith(line, "notifycliententerview") {
      EnterErrors(w, d);
    }
  }

  lemma AdmitErrors(w: World, clid: String, cid: String, d: Fields)
    ensures Admit(w, clid, cid, d).Raised? ==> Admit(w, clid, cid, d).error == SocketClosed
  {
    var (name, w1) := Name(w, clid, d);
    var (r, w2) := Ask(w1);
  }

  lemma EnterErrors(w: World, d: Fields)
    ensures OnEnter(w, d).Raised? ==> OnEnter(w, d).error == SocketClosed
  {
    AdmitErrors(w, Get(d, "clid", []), Get(d, "ctid", []), d);
  }

  lemma MoveErrors(w: World, d: Fields)
    ensures OnMove(w, d).Raised? ==> OnMove(w, d).error == SocketClosed
  {
    AdmitErrors(w, Get(d, "clid", []), Get(d, "ctid", []), d);
    MoveSelfErrors(w, Get(d, "ctid", []));
  }

  lemma MoveSelfErrors(w: World, newCid: String)
    ensures MoveSelf(w, newCid).Raised? ==> MoveSelf(w, newCid).error == SocketClosed
  {
  }

  // ---------------------------------------------------------------------
  // Bootstrap

  /** The clients a roster snapshot of channel `cid` tracks all appear in
      the nickname cache built from the same listing. */
  lemma TrackedAreCached(all: seq<Fields>, cid: String)
    ensures KeyByClid(InChannel(all, cid)).Keys <= NickCache(all).Keys
  {
    var r := InChannel(all, cid);
    forall k | k in KeyByClid(r)
      ensures k in KeyByClid(all)
    {
      KeyByClidValues(r, k);
      var c := KeyByClid(r)[k];
      var j :| 0 <= j < |all| && all[j] == c;
      KeyByClidKeys(all, k);
    }
  }

  /** `_init` either fails (closed socket, empty `whoami`, or no channel)
      without emitting anything, or establishes my channel id (never empty)
      and a consistent roster whose clients all have a cached nickname. */
  lemma InitEffect(w: World)
    ensures match Init(w)
            case Done(w1) =>
              && w1.store.myCid != [] && Consistent(w1.store)
              && w1.store.clients.Keys <= w1.nc.Keys
              && w1.events == w.events && w1.openWhispers == w.openWhispers
            case Raised(w1, e) =>
              && (e == SocketClosed || e == "whoami vacío" || e == "No conectado a TS3")
              && w1.events == w.events
  {
    var (r1, w1) := Ask(w);
    if r1.Answer? {
      var me := Whoami(r1.text);
      var clid, cid := Get(me, "clid", []), Get(me, "cid", []);
      if me != map[] && cid != [] {
        InitChannelEffect(w1, clid, cid);
      }
    }
  }

  lemma InitChannelEffect(w: World, clid: String, cid: String)
    requires cid != []
    ensures match InitChannel(w, clid, cid)
            case Done(w1) =>
              && w1.store.myCid == cid && Consistent(w1.store)
              && w1.store.clients.Keys <= w1.nc.Keys
              && w1.events == w.events && w1.openWhispers == w.openWhispers
            case Raised(w1, e) => e == SocketClosed && w1.events == w.events
  {
    var (r2, w2) := Ask(w);
    var (r3, w3) := Ask(w2);
    if r2.Answer? && r3.Answer? {
      var ch, srv := ChannelName(r2.text, cid), ServerName(r3.text);
      var w4' := w3.(store := Store(clid, cid, ch, srv, map[], w3.store.groupNames));
      var (r5', w5') := Ask(w4');
      var groups := if r5'.Broken? then map[] else ChannelGroups(r5'.text);
      InitRosterEffect(w5'.(store := w5'.store.(groupNames := groups)), cid);
    }
  }

  lemma InitRosterEffect(w: World, cid: String)
    ensures match InitRoster(w, cid)
            case Done(w1) =>
              && w1.store == w.store.(clients := w1.store.clients)
              && (w.store.myCid == cid ==> Consistent(w1.store))
              && w1.store.clients.Keys <= w1.nc.Keys
              && w1.events == w.events && w1.openWhispers == w.openWhispers
            case Raised(w1, e) => e == SocketClosed && w1 == w.(peer := w1.peer)
  {
    var (r, w1) := Ask(w);
    if r.Answer? {
      var all := ClientList(r.text);
      TrackedInChannel(all, cid);
      KeyByClidKeyed(InChannel(all, cid));
      TrackedAreCached(all, cid);
    }
  }

  // ---------------------------------------------------------------------
  // The reading loop

  /** The loop keeps the roster invariant over any sequence of reads. */
  lemma {:induction false} LoopConsistent(w: World, feed: seq<ReadOutcome>, empty: nat)
    requires Consistent(w.store)
    ensures Consistent(Loop(w, feed, empty).w.store)
    decreases |feed|
  {
    if feed != [] {
      match feed[0]
      case Closed =>
      case Fault(m) =>
        if empty + 1 <= 10 { LoopConsistent(w, feed[1..], empty + 1); }
      case NoData =>
        LoopConsistent(w, feed[1..], 1);
      case Line(l) =>
        if l == [] {
          LoopConsistent(w, feed[1..], 1);
        } else {
          HandleConsistent(w, l);
          match Handle(w, l)
          case Done(w1) => LoopConsistent(w1, feed[1..], 0);
          case Raised(w1, err) =>
        }
    }
  }

  /** A session (bootstrap, then the reading loop) always leaves a
      consistent roster behind. */
  lemma SessionConsistent(w: World, feed: seq<ReadOutcome>)
    requires Init(w).Done?
    ensures Consistent(Loop(Init(w).w, feed, 0).w.store)
  {
    InitEffect(w);
    LoopConsistent(Init(w).w, feed, 0);
  }

  function EmptyReads(n: nat): (s: seq<ReadOutcome>)
    ensures |s| == n && forall i :: 0 <= i < n ==> s[i] == NoData
  {
    seq(n, _ => NoData)
  }

  function Faults(ms: seq<String>): (s: seq<ReadOutcome>)
    ensures |s| == |ms| && forall i :: 0 <= i < |ms| ==> s[i] == Fault(ms[i])
  {
    seq(|ms|, i requires 0 <= i < |ms| => Fault(ms[i]))
  }

  /** Every successful `read_line` resets `consecutive_empty` before an
      empty read adds one, so any run of empty reads leaves it at exactly 1
      and never ends the session. */
  lemma {:induction false} EmptyRun(w: World, n: nat, rest: seq<ReadOutcome>, empty: nat)
    requires n >= 1
    ensures Loop(w, EmptyReads(n) + rest, empty) == Loop(w, rest, 1)
    decreases n
  {
    var s := EmptyReads(n) + rest;
    assert s[0] == NoData;
    if n == 1 {
      assert s[1..] == rest;
    } else {
      assert s[1..] == EmptyReads(n - 1) + rest;
      EmptyRun(w, n - 1, rest, 1);
    }
  }

  /** The staleness check (`consecutive_empty > 30`) never fires: from any
      counter value, the loop raises only what a handler, the socket or an
      eleventh consecutive read fault raises. */
  lemma {:induction false} NeverStale(w: World, feed: seq<ReadOutcome>, empty: nat)
    requires forall i :: 0 <= i < |feed| ==> feed[i] != Fault(Stale)
    ensures Loop(w, feed, empty).Raised? ==> Loop(w, feed, empty).error != Stale
    decreases |feed|
  {
    if feed != [] {
      assert forall i :: 0 <= i < |feed[1..]| ==> feed[1..][i] == feed[i + 1];
      match feed[0]
      case Closed =>
      case Fault(m) =>
        if empty + 1 <= 10 { NeverStale(w, feed[1..], empty + 1); }
      case NoData =>
        NeverStale(w, feed[1..], 1);
      case Line(l) =>
        if l == [] {
          NeverStale(w, feed[1..], 1);
        } else {
          HandleErrors(w, l);
          match Handle(w, l)
          case Done(w1) => NeverStale(w1, feed[1..], 0);
          case Raised(w1, err) =>
        }
    }
  }

  /** Consecutive read faults are tolerated while the count stays at most 10. */
  lemma {:induction false} FaultRun(w: World, ms: seq<String>, rest: seq<ReadOutcome>, empty: nat)
    requires empty + |ms| <= 10
    ensures Loop(w, Faults(ms) + rest, empty) == Loop(w, rest, empty + |ms|)
    decreases |ms|
  {
    if ms != [] {
      var s := Faults(ms) + rest;
      assert s[0] == Fault(ms[0]);
      assert s[1..] == Faults(ms[1..]) + rest;
      FaultRun(w, ms[1..], rest, empty + 1);
    } else {
      assert Faults(ms) + rest == rest;
    }
  }

  /** Eleven read faults in a row end the session with the last one. */
  lemma ElevenFaults(w: World, ms: seq<String>, rest: seq<ReadOutcome>)
    requires |ms| == 11
    ensures Loop(w, Faults(ms) + rest, 0) == Raised(w, ms[10])
  {
    var s := Faults(ms) + rest;
    assert Faults(ms) == Faults(ms[..10]) + [Fault(ms[10])];
    assert s == Faults(ms[..10]) + ([Fault(ms[10])] + rest);
    FaultRun(w, ms[..10], [Fault(ms[10])] + rest, 0);
  }

  // ---------------------------------------------------------------------
  // Backoff

  function Pow2(k: nat): nat {
    if k == 0 then 1 else 2 * Pow2(k - 1)
  }

  /** The delay after `k` doublings of 1, capped at 30. */
  function Capped(k: nat): nat {
    if k < 5 then Pow2(k) else 30
  }

  lemma {:induction false} FailuresFrom(k: nat, attempts: seq<Attempt>)
    requires k >= 1
    requires forall i :: 0 <= i < |attempts| ==> !attempts[i].connected
    ensures forall i :: 0 <= i < |attempts| ==> Waits(Capped(k), attempts)[i] == Capped(k + i)
    decreases |attempts|
  {
    if attempts != [] {
      assert Next(Capped(k)) == Capped(k + 1) by {
        if k < 4 {
          assert Pow2(k + 1) == 2 * Pow2(k);
          assert Pow2(k + 1) <= 16 by {
            assert Pow2(1) == 2 && Pow2(2) == 4 && Pow2(3) == 8 && Pow2(4) == 16;
          }
        } else if k == 4 {
          assert Pow2(4) == 16;
        }
      }
      FailuresFrom(k + 1, attempts[1..]);
    }
  }

  /** Consecutive failed attempts from the initial delay wait 2, 4, 8, 16
      and then 30 seconds every time. */
  lemma Failures(attempts: seq<Attempt>)
    requires forall i :: 0 <= i < |attempts| ==> !attempts[i].connected
    ensures forall i :: 0 <= i < |attempts| ==> Waits(2, attempts)[i] == (if i < 4 then Pow2(i + 1) else 30)
  {
    assert Capped(1) == 2;
    FailuresFrom(1, attempts);
  }

  /** An attempt whose `connect` succeeded waits 2 seconds, and a failure
      right after it waits 4. */
  lemma {:induction false} ResetAfterConnect(delay: nat, attempts: seq<Attempt>, i: nat)
    requires i < |attempts| && attempts[i].connected
    ensures Waits(delay, attempts)[i] == 2
    ensures i + 1 < |attempts| && !attempts[i + 1].connected ==> Waits(delay, attempts)[i + 1] == 4
    decreases i
  {
    if i > 0 {
      var d := if attempts[0].connected then 2 else delay;
      ResetAfterConnect(Next(d), attempts[1..], i - 1);
    }
  }

  /** Starting from a delay in [2, 30], every wait and the final delay stay
      in [2, 30]. */
  lemma {:induction false} WaitsBounded(delay: nat, attempts: seq<Attempt>)
    requires 2 <= delay <= 30
    ensures forall i :: 0 <= i < |attempts| ==> 2 <= Waits(delay, attempts)[i] <= 30
    ensures 2 <= FinalDelay(delay, attempts) <= 30
    decreases |attempts|
  {
    if attempts != [] {
      var d := if attempts[0].connected then 2 else delay;
      WaitsBounded(Next(d), attempts[1..]);
    }
  }

  /** After the `i`-th session, `run` emits that session's error and then
      `Reconectando…`. */
  lemma {:induction false} RunEventsAt(attempts: seq<Attempt>, i: nat)
    requires i < |attempts|
    ensures RunEvents(attempts)[2 * i] == ShowError(attempts[i].error)
    ensures RunEvents(attempts)[2 * i + 1] == ShowError("Reconectando…")
    decreases i
  {
    var rest := RunEvents(attempts[1..]);
    assert RunEvents(attempts) == [ShowError(attempts[0].error), ShowError("Reconectando…")] + rest;
    if i > 0 {
      RunEventsAt(attempts[1..], i - 1);
      assert attempts[1..][i - 1] == attempts[i];
    }
  }
}
