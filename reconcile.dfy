/** The reconciliation rules of `TS3EventThread`, as functions of a world
    value: the channel state, the nickname cache `_nc`, the signals emitted
    so far, and the replies the server will give to the engine's queries.
    `Engine.EventThread` is proved to follow these functions. */
module Reconcile {
  import opened Text
  import opened Codec
  import opened Replies
  import opened Store
  import opened Transport

  /** The Qt signals the engine emits, in emission order. */
  datatype Event =
    | UpdateUsers(snapshot: Snapshot)
    | ShowMessage(sender: String, text: String, kind: String, target: String)
    | ShowError(message: String)
    | NotifyJoin(clid: String, name: String)
    | NotifyLeave(clid: String, name: String)
    | NotifyMoved(clid: String, name: String)
    | WhisperTalk(clid: String, talking: bool)
    | WhisperLeave(clid: String)
    | ChannelChanged
    | NotifMessage(sender: String, text: String, kind: String)

  /** `store` is the channel state, `nc` the nickname cache, `events` the
      signals emitted, `peer` the replies to the queries still to come, and
      `openWhispers` the clients the whispers window already lists. */
  datatype World = World(store: Store, nc: map<String, String>, events: seq<Event>,
                         peer: seq<Reply>, openWhispers: set<String>)

  /** The end of a handler: normal return, or a raised exception whose text
      is `error`; both carry the world as the exception left it. */
  datatype Outcome = Done(w: World) | Raised(w: World, error: String)

  const SocketClosed := "Socket cerrado"
  const Unknown := "Desconocido"

  /** One query to the server (`_cmd` and its extractor): the next reply. */
  function Ask(w: World): (Reply, World) {
    if w.peer == [] then (Answer([]), w) else (w.peer[0], w.(peer := w.peer[1..]))
  }

  function Emit(w: World, e: Event): World {
    w.(events := w.events + [e])
  }

  /** `_push`: emit `update_users` with a snapshot of the state. */
  function Push(w: World): World {
    Emit(w, UpdateUsers(SnapshotOf(w.store)))
  }

  function WithClients(w: World, cs: map<String, Client>): World {
    w.(store := w.store.(clients := cs))
  }

  // ---------------------------------------------------------------------
  // Nicknames: _name

  /** A field value good enough for a name: not in `("?", "", "0")`. */
  predicate Usable(v: String) {
    v != [] && v != "?" && v != "0"
  }

  /** Field `fs[i]` is the first of `fs` with a usable value in `d`. */
  predicate FirstUsableAt(d: Fields, fs: seq<String>, i: int) {
    0 <= i < |fs| && Usable(Get(d, fs[i], [])) && forall j :: 0 <= j < i ==> !Usable(Get(d, fs[j], []))
  }

  /** The first of fields `fs` whose value in `d` is usable. */
  function FirstUsable(d: Fields, fs: seq<String>): (r: Option<String>)
    ensures r.Some? ==> Usable(r.value)
    ensures forall i :: FirstUsableAt(d, fs, i) ==> r == Some(Get(d, fs[i], []))
    ensures r.None? ==> forall i :: 0 <= i < |fs| ==> !Usable(Get(d, fs[i], []))
    decreases |fs|
  {
    if fs == [] then None
    else if Usable(Get(d, fs[0], [])) then Some(Get(d, fs[0], []))
    else FirstUsable(d, fs[1..])
  }

  const EventFields: seq<String> := ["client_nickname", "invokername", "client_base64HashClientUID"]
  const InfoFields: seq<String> := ["client_nickname", "client_base64HashClientUID"]

  /** The last four characters (`clid[-4:]`). */
  function Last4(s: String): String {
    if |s| <= 4 then s else s[|s| - 4..]
  }

  /** The nickname of a listed record, unescaped once more. */
  function ListedNick(c: Fields): String {
    Unescape(Get(c, "client_nickname", []))
  }

  /** The record `c` lists client `clid` under a name that is neither empty
      nor `?`. */
  predicate NamesClient(c: Fields, clid: String) {
    "clid" in c && c["clid"] == clid && ListedNick(c) != [] && ListedNick(c) != "?"
  }

  /** The name of the first listed client `clid` whose unescaped nickname is
      neither empty nor `?`. */
  function ListName(cs: seq<Fields>, clid: String): (r: Option<String>)
    ensures r.Some? ==> r.value != [] && r.value != "?"
    ensures forall i :: 0 <= i < |cs| && NamesClient(cs[i], clid) && (forall j :: 0 <= j < i ==> !NamesClient(cs[j], clid)) ==>
              r == Some(ListedNick(cs[i]))
    ensures r.None? <==> forall i :: 0 <= i < |cs| ==> !NamesClient(cs[i], clid)
    decreases |cs|
  {
    if cs == [] then None
    else if NamesClient(cs[0], clid) then Some(ListedNick(cs[0]))
    else ListName(cs[1..], clid)
  }

  /** The remaining `k` `clientinfo` attempts of `_name`; a closed socket
      only costs the attempt. A name found is cached. */
  function InfoAttempts(w: World, clid: String, k: nat): (Option<String>, World)
    decreases k
  {
    if k == 0 then (None, w)
    else
      var (r, w1) := Ask(w);
      var found := if r.Answer? then FirstUsable(ClientInfo(r.text), InfoFields) else None;
      if found.Some? then
        var n := Unescape(found.value);
        (Some(n), w1.(nc := w1.nc[clid := n]))
      else InfoAttempts(w1, clid, k - 1)
  }

  /** `_name(clid, d)`: the fallback chain for a display name. */
  function Name(w: World, clid: String, d: Fields): (String, World) {
    var inline := if d != map[] then FirstUsable(d, EventFields) else None;
    if inline.Some? then
      var n := Unescape(inline.value);
      (n, if clid != [] then w.(nc := w.nc[clid := n]) else w)
    else if clid != [] && clid in w.nc && w.nc[clid] != [] && w.nc[clid] != "?" && w.nc[clid] != Unknown then
      (w.nc[clid], w)
    else if clid == [] then (Unknown, w)
    else
      var (found, w1) := InfoAttempts(w, clid, 4);
      if found.Some? then (found.value, w1) else ListFallback(w1, clid)
  }

  /** The last resorts of `_name`: the roster listing, the cache, and a
      placeholder made of the id's last four characters. */
  function ListFallback(w: World, clid: String): (String, World) {
    var (r, w1) := Ask(w);
    var listed := if r.Answer? then ListName(ClientList(r.text), clid) else None;
    if listed.Some? then (listed.value, w1.(nc := w1.nc[clid := listed.value]))
    else if clid in w1.nc && w1.nc[clid] != "?" && w1.nc[clid] != [] then (w1.nc[clid], w1)
    else ("Usuario-" + Last4(clid), w1)
  }

  /** `_nc = {c["clid"]: c.get("client_nickname", "?") for c in cs if "clid" in c}`. */
  function NickCache(cs: seq<Fields>): (m: map<String, String>)
    ensures m.Keys == KeyByClid(cs).Keys
    ensures forall k :: k in m ==> m[k] == Get(KeyByClid(cs)[k], "client_nickname", "?")
    decreases |cs|
  {
    if cs == [] then map[]
    else
      var c := cs[|cs| - 1];
      var m := NickCache(cs[..|cs| - 1]);
      if "clid" in c then m[c["clid"] := Get(c, "client_nickname", "?")] else m
  }

  // ---------------------------------------------------------------------
  // Bootstrap: _init

  /** `_init`: who am I, where am I, and who is here. */
  function Init(w: World): Outcome {
    var (r1, w1) := Ask(w);
    if r1.Broken? then Raised(w1, SocketClosed)
    else
      var me := Whoami(r1.text);
      if me == map[] then Raised(w1, "whoami vacío")
      else
        var clid, cid := Get(me, "clid", []), Get(me, "cid", []);
        if cid == [] then Raised(w1, "No conectado a TS3")
        else InitChannel(w1, clid, cid)
  }

  /** The rest of `_init` once my ids are known: channel and server names,
      channel groups (a failed query gives none), then the roster. */
  function InitChannel(w: World, clid: String, cid: String): Outcome {
    var (r2, w2) := Ask(w);
    if r2.Broken? then Raised(w2, SocketClosed)
    else
      var (r3, w3) := Ask(w2);
      if r3.Broken? then Raised(w3, SocketClosed)
      else
        var ch, srv := ChannelName(r2.text, cid), ServerName(r3.text);
        var w4 := w3.(store := Store(clid, cid, ch, srv, map[], w3.store.groupNames));
        var (r5, w5) := Ask(w4);
        var groups := if r5.Broken? then map[] else ChannelGroups(r5.text);
        InitRoster(w5.(store := w5.store.(groupNames := groups)), cid)
  }

  /** The last query of `_init`: track the listed clients of my channel and
      seed the nickname cache from the whole listing. */
  function InitRoster(w: World, cid: String): Outcome {
    var (r, w1) := Ask(w);
    if r.Broken? then Raised(w1, SocketClosed)
    else
      var all := ClientList(r.text);
      Done(WithClients(w1, KeyByClid(InChannel(all, cid))).(nc := NickCache(all)))
  }

  // ---------------------------------------------------------------------
  // Handlers

  /** The flags `_on_talk` writes: `client_flag_talking`, then
      `client_flag_whisper` with the same value for a whisper, or cleared
      when a non-whisper talk starts. */
  function Flagged(cs: map<String, Client>, clid: String, talking: bool, whisper: bool): map<String, Client> {
    var c1 := SetFlag(cs, clid, "client_flag_talking", talking);
    if whisper then SetFlag(c1, clid, "client_flag_whisper", talking)
    else if talking then SetFlag(c1, clid, "client_flag_whisper", false)
    else c1
  }

  /** `_on_talk`; `openWhispers` stands for the whispers window's entries. */
  function OnTalk(w: World, d: Fields): World {
    var clid := Get(d, "clid", []);
    var talking := Get(d, "status", "0") == "1";
    var whisper := "isreceivedwhisper" in d && d["isreceivedwhisper"] == "1";
    var w1 := Push(WithClients(w, Flagged(w.store.clients, clid, talking, whisper)));
    if !whisper then w1
    else
      var w2 :=
        if talking && clid !in w.openWhispers then
          var sender := if clid in w.nc && w.nc[clid] != [] then w.nc[clid] else "Usuario (" + clid + ")";
          Emit(Emit(w1, ShowMessage(sender, [], "whisper", clid)), NotifMessage(sender, "Susurro", "whisper"))
        else w1;
      Emit(w2, WhisperTalk(clid, talking))
  }

  /** The fields that `notifyclientupdated` may change. */
  const UpdateFields: set<String> :=
    {"client_input_muted", "client_output_muted", "client_nickname", "client_flag_talking"}

  function Allowed(d: Fields): (u: Fields)
    ensures u.Keys == d.Keys * UpdateFields
    ensures forall k :: k in u ==> u[k] == d[k]
  {
    map k | k in d && k in UpdateFields :: d[k]
  }

  /** `_on_upd`. */
  function OnUpd(w: World, d: Fields): World {
    var clid := Get(d, "clid", []);
    if clid == [] || clid !in w.store.clients then w
    else
      var u := Allowed(d);
      if u == map[] then w else Push(WithClients(w, Upserted(w.store.clients, clid, u)))
  }

  /** The record `_on_move` and `_on_enter` file for a client joining my
      channel: the `clientinfo` record with its ids set and its nickname
      defaulted to `name`, or just ids and name without one. */
  function Joined(info: Fields, clid: String, cid: String, name: String): Client {
    if info != map[] then
      var i := info["clid" := clid]["cid" := cid];
      if "client_nickname" in i then i else i["client_nickname" := name]
    else map["clid" := clid, "cid" := cid, "client_nickname" := name]
  }

  /** A client joins my channel: name it, ask for its record, file it,
      cache its name and emit `notify_join`. */
  function Admit(w: World, clid: String, cid: String, d: Fields): Outcome {
    var (name, w1) := Name(w, clid, d);
    var (r, w2) := Ask(w1);
    if r.Broken? then Raised(w2, SocketClosed)
    else
      var rec := Joined(ClientInfo(r.text), clid, cid, name);
      var w3 := WithClients(w2, Upserted(w2.store.clients, clid, rec));
      Done(Emit(w3.(nc := w3.nc[clid := name]), NotifyJoin(clid, name)))
  }

  /** `_on_move` when the client that moved is me: re-read channel and
      server names, push the emptied roster, then rebuild the roster and
      the nickname cache for the new channel. */
  function MoveSelf(w: World, newCid: String): Outcome {
    var (r1, w1) := Ask(w);
    if r1.Broken? then Raised(w1, SocketClosed)
    else
      var (r2, w2) := Ask(w1);
      if r2.Broken? then Raised(w2, SocketClosed)
      else
        var ch, srv := ChannelName(r1.text, newCid), ServerName(r2.text);
        var w3 := Push(w2.(store := Store(w.store.myClid, newCid, ch, srv, map[], w2.store.groupNames)));
        var (r4, w4) := Ask(w3);
        if r4.Broken? then Raised(w4, SocketClosed)
        else
          var all := ClientList(r4.text);
          var w5 := WithClients(w4.(nc := NickCache(all)), KeyByClid(InChannel(all, newCid)));
          Done(Push(Emit(w5, ChannelChanged)))
  }

  /** `_on_move`. */
  function OnMove(w: World, d: Fields): Outcome {
    var clid, newCid := Get(d, "clid", []), Get(d, "ctid", []);
    var myClid, myCid := w.store.myClid, w.store.myCid;
    if clid == [] then Done(w)
    else if clid == myClid then MoveSelf(w, newCid)
    else
      var tracked := clid in w.store.clients;
      if newCid == myCid && !tracked then
        match Admit(w, clid, newCid, d)
        case Done(w1) => Done(Push(w1))
        case Raised(w1, e) => Raised(w1, e)
      else if tracked && newCid != myCid then
        var name := Get(w.nc, clid, clid);
        var w1 := WithClients(w, Removed(w.store.clients, clid));
        Done(Push(Emit(Emit(Emit(w1, NotifyLeave(clid, name)), NotifyMoved(clid, name)), WhisperLeave(clid))))
      else Done(Push(w))
  }

  /** `_on_enter`. */
  function OnEnter(w: World, d: Fields): Outcome {
    var clid, newCid := Get(d, "clid", []), Get(d, "ctid", []);
    if newCid != w.store.myCid || clid in w.store.clients then Done(w)
    else
      match Admit(w, clid, newCid, d)
      case Done(w1) => Done(Push(w1))
      case Raised(w1, e) => Raised(w1, e)
  }

  /** `_on_left`. */
  function OnLeft(w: World, d: Fields): World {
    var clid := Get(d, "clid", []);
    var w1 := Emit(w, WhisperLeave(clid));
    if clid !in w.store.clients then w1
    else
      var name := Get(w.nc, clid, clid);
      Push(Emit(WithClients(w1, Removed(w.store.clients, clid)), NotifyLeave(clid, name)))
  }

  /** The kind of a text message by `targetmode`: 1 private, 2 channel. */
  function MessageKind(targetMode: String): Option<String> {
    if targetMode == "1" then Some("private")
    else if targetMode == "2" then Some("channel")
    else None
  }

  /** `_on_msg`. */
  function OnMsg(w: World, d: Fields): World {
    var sender, text := Get(d, "invokername", "?"), Get(d, "msg", []);
    if Get(d, "invokerid", []) == w.store.myClid then w
    else
      match MessageKind(Get(d, "targetmode", "0"))
      case None => w
      case Some(kind) => Emit(Emit(w, ShowMessage(sender, text, kind, [])), NotifMessage(sender, text, kind))
  }

  /** The client a whisper comes from: its `clid`, else its `invokerid`. */
  function Whisperer(d: Fields): String {
    if "clid" in d then d["clid"] else Get(d, "invokerid", [])
  }

  /** The sender `_on_whisper` shows: the given name, else the cached or
      resolved name of the whisperer, else `Susurro`; it is cached under the
      whisperer's id. */
  function WhisperSender(w: World, d: Fields): (String, World) {
    var given := Unescape(Get(d, "invokername", []));
    var clid := Whisperer(d);
    var (found, w1) :=
      if given == [] && clid != [] then
        if clid in w.nc && w.nc[clid] != [] then (w.nc[clid], w) else Name(w, clid, d)
      else (given, w);
    var sender := if found == [] then "Susurro" else found;
    (sender, if clid != [] then w1.(nc := w1.nc[clid := sender]) else w1)
  }

  /** `_on_whisper`. */
  function OnWhisper(w: World, d: Fields): World {
    var clid := Whisperer(d);
    var text := Unescape(Get(d, "msg", []));
    var (sender, w1) := WhisperSender(w, d);
    Emit(Emit(w1, ShowMessage(sender, text, "whisper", if clid != [] then clid else sender)),
         NotifMessage(sender, if text != [] then text else "Susurro", "whisper"))
  }

  /** `_handle`: dispatch on the event name, in the source's order. */
  function Handle(w: World, line: String): Outcome {
    var d := Parse(line);
    if StartsWith(line, "notifytalkstatuschange") then Done(OnTalk(w, d))
    else if StartsWith(line, "notifyclientupdated") then Done(OnUpd(w, d))
    else if StartsWith(line, "notifyclientmoved") then OnMove(w, d)
    else if StartsWith(line, "notifycliententerview") then OnEnter(w, d)
    else if StartsWith(line, "notifyclientleftview") then Done(OnLeft(w, d))
    else if StartsWith(line, "notifytextmessage") then Done(OnMsg(w, d))
    else if StartsWith(line, "notifywhisper") then Done(OnWhisper(w, d))
    else if StartsWith(line, "notifyconnectstatuschange") then
      if "status" in d && d["status"] == "disconnected" then Raised(w, "TS3 desconectado") else Done(w)
    else Done(w)
  }

  // ---------------------------------------------------------------------
  // The reading loop and the reconnection backoff

  const Stale := "Sin datos por demasiado tiempo"

  /** `_loop` over the outcomes `feed` of its successive `read_line` calls,
      with `empty` the value of `consecutive_empty`; the loop is stopped
      once `feed` is used up. */
  function Loop(w: World, feed: seq<ReadOutcome>, empty: nat): Outcome
    decreases |feed|
  {
    if feed == [] then Done(w)
    else
      match feed[0]
      case Closed => Raised(w, SocketClosed)
      case Fault(m) =>
        if empty + 1 > 10 then Raised(w, m) else Loop(w, feed[1..], empty + 1)
      case NoData =>
        var e := 0 + 1;
        if e > 30 then Raised(w, Stale) else Loop(w, feed[1..], e)
      case Line(l) =>
        if l == [] then
          var e := 0 + 1;
          if e > 30 then Raised(w, Stale) else Loop(w, feed[1..], e)
        else
          match Handle(w, l)
          case Done(w1) => Loop(w1, feed[1..], 0)
          case Raised(w1, err) => Raised(w1, err)
  }

  /** One pass of `run`'s loop: whether `connect` returned, and the text of
      the exception that ended the session. */
  datatype Attempt = Attempt(connected: bool, error: String)

  /** The delays `run` waits after the attempts, from delay `delay`, with
      the delay reset to 2 by every successful `connect`. */
  function Waits(delay: nat, attempts: seq<Attempt>): (ws: seq<nat>)
    ensures |ws| == |attempts|
    decreases |attempts|
  {
    if attempts == [] then []
    else
      var d := if attempts[0].connected then 2 else delay;
      [d] + Waits(Next(d), attempts[1..])
  }

  /** `delay = min(delay * 2, 30)`. */
  function Next(delay: nat): nat {
    if delay * 2 < 30 then delay * 2 else 30
  }

  /** The delay after the attempts. */
  function FinalDelay(delay: nat, attempts: seq<Attempt>): nat
    decreases |attempts|
  {
    if attempts == [] then delay
    else FinalDelay(Next(if attempts[0].connected then 2 else delay), attempts[1..])
  }

  /** The signals `run` emits after the attempts: the error, then
      "Reconectando…". */
  function RunEvents(attempts: seq<Attempt>): (es: seq<Event>)
    ensures |es| == 2 * |attempts|
    decreases |attempts|
  {
    if attempts == [] then []
    else [ShowError(attempts[0].error), ShowError("Reconectando…")] + RunEvents(attempts[1..])
  }
}
