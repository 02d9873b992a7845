/** `ChannelState`: what the overlay knows about my client and my channel,
    with the clients of my channel keyed by client id. */
module Store {
  import opened Text
  import opened Codec

  /** One client record: the field map `parse` produced, as updated since. */
  type Client = Fields

  /** The whole state: my client id, my channel id, channel and server
      names, the clients of my channel, and the channel group names. */
  datatype Store = Store(myClid: String, myCid: String, chName: String, serverName: String,
                         clients: map<String, Client>, groupNames: map<String, String>)

  /** What `snapshot` hands to the view. */
  datatype Snapshot = Snapshot(clients: map<String, Client>, chName: String, serverName: String,
                               groupNames: map<String, String>, myCid: String)

  const Empty := Store([], [], [], [], map[], map[])

  function SnapshotOf(s: Store): Snapshot {
    Snapshot(s.clients, s.chName, s.serverName, s.groupNames, s.myCid)
  }

  /** The dictionary comprehension of `set_clients`: records without a
      `clid` are dropped, and of two records with the same `clid` the later
      one is kept. Every record is filed under its own client id. */
  function KeyByClid(cs: seq<Client>): (m: map<String, Client>)
    ensures forall k :: k in m ==> "clid" in m[k] && m[k]["clid"] == k
    decreases |cs|
  {
    if cs == [] then map[]
    else
      var c := cs[|cs| - 1];
      var m := KeyByClid(cs[..|cs| - 1]);
      if "clid" in c then m[c["clid"] := c] else m
  }

  /** `upsert`: merge `data` into a tracked record (`dict.update`), or file
      `data` itself under an untracked id. */
  function Upserted(clients: map<String, Client>, clid: String, data: Client): (r: map<String, Client>)
    ensures r.Keys == clients.Keys + {clid}
    ensures forall o :: o in clients && o != clid ==> r[o] == clients[o]
    ensures forall k :: k in data ==> k in r[clid] && r[clid][k] == data[k]
    ensures clid in clients ==>
              r[clid].Keys == clients[clid].Keys + data.Keys &&
              forall k :: k in clients[clid] && k !in data ==> r[clid][k] == clients[clid][k]
    ensures clid !in clients ==> r[clid] == data
  {
    if clid in clients then clients[clid := clients[clid] + data] else clients[clid := data]
  }

  /** `remove`: `pop(clid, None)`. */
  function Removed(clients: map<String, Client>, clid: String): (r: map<String, Client>)
    ensures r.Keys == clients.Keys - {clid}
    ensures forall o :: o in r ==> r[o] == clients[o]
    ensures clid !in clients ==> r == clients
  {
    clients - {clid}
  }

  /** The value `set_talking` and `set_whisper_talking` write. */
  function FlagValue(on: bool): String {
    if on then "1" else "0"
  }

  /** `set_talking` / `set_whisper_talking`: write the flag of a tracked
      client; an untracked id changes nothing. */
  function SetFlag(clients: map<String, Client>, clid: String, flag: String, on: bool): (r: map<String, Client>)
    ensures r.Keys == clients.Keys
    ensures forall o :: o in clients && o != clid ==> r[o] == clients[o]
    ensures clid in clients ==>
              r[clid].Keys == clients[clid].Keys + {flag} && r[clid][flag] == FlagValue(on) &&
              forall k :: k in clients[clid] && k != flag ==> r[clid][k] == clients[clid][k]
    ensures clid !in clients ==> r == clients
  {
    if clid in clients then clients[clid := clients[clid][flag := FlagValue(on)]] else clients
  }

  // ---------------------------------------------------------------------
  // Properties of KeyByClid

  /** A client id is tracked exactly when some record carries it. */
  lemma {:induction false} KeyByClidKeys(cs: seq<Client>, k: String)
    ensures k in KeyByClid(cs) <==> exists i :: 0 <= i < |cs| && "clid" in cs[i] && cs[i]["clid"] == k
    decreases |cs|
  {
    if cs != [] {
      var init := cs[..|cs| - 1];
      KeyByClidKeys(init, k);
      assert forall i :: 0 <= i < |init| ==> init[i] == cs[i];
      var c := cs[|cs| - 1];
      if "clid" in c && c["clid"] == k {
        assert k in KeyByClid(cs);
      }
    }
  }

  /** The record kept for an id is the last one that carries it. */
  lemma {:induction false} KeyByClidLast(cs: seq<Client>, i: nat)
    requires i < |cs| && "clid" in cs[i]
    requires forall j :: i < j < |cs| && "clid" in cs[j] ==> cs[j]["clid"] != cs[i]["clid"]
    ensures cs[i]["clid"] in KeyByClid(cs) && KeyByClid(cs)[cs[i]["clid"]] == cs[i]
    decreases |cs|
  {
    var init := cs[..|cs| - 1];
    if i < |cs| - 1 {
      assert init[i] == cs[i];
      assert forall j :: i < j < |init| ==> init[j] == cs[j];
      KeyByClidLast(init, i);
    }
  }

  /** The clients of one channel, as `_init` and `_on_move` select them
      (`c.get("cid") == cid`). */
  function InChannel(cs: seq<Client>, cid: String): (r: seq<Client>)
    ensures |r| <= |cs|
    ensures forall j :: 0 <= j < |r| ==> "cid" in r[j] && r[j]["cid"] == cid
    ensures forall j :: 0 <= j < |cs| && "cid" in cs[j] && cs[j]["cid"] == cid ==> cs[j] in r
    ensures forall j :: 0 <= j < |r| ==> r[j] in cs
    decreases |cs|
  {
    if cs == [] then []
    else (if "cid" in cs[0] && cs[0]["cid"] == cid then [cs[0]] else []) + InChannel(cs[1..], cid)
  }

  /** The selection keeps the listing's order and its duplicates: the
      clients of two runs of records are those of the first run followed
      by those of the second. */
  lemma {:induction false} InChannelAppend(a: seq<Client>, b: seq<Client>, cid: String)
    ensures InChannel(a + b, cid) == InChannel(a, cid) + InChannel(b, cid)
    decreases |a|
  {
    if a != [] {
      assert (a + b)[0] == a[0] && (a + b)[1..] == a[1..] + b;
      InChannelAppend(a[1..], b, cid);
    } else {
      assert a + b == b;
    }
  }

  /** One record is kept exactly when its `cid` is the channel's. */
  lemma InChannelOne(c: Client, cid: String)
    ensures InChannel([c], cid) == if "cid" in c && c["cid"] == cid then [c] else []
  {
    assert [c][1..] == [];
  }

  /** After `set_clients(InChannel(cs, cid))`, every tracked client is in
      channel `cid`. */
  lemma TrackedInChannel(cs: seq<Client>, cid: String)
    ensures forall k :: k in KeyByClid(InChannel(cs, cid)) ==>
              "cid" in KeyByClid(InChannel(cs, cid))[k] && KeyByClid(InChannel(cs, cid))[k]["cid"] == cid
  {
    var r := InChannel(cs, cid);
    forall k | k in KeyByClid(r)
      ensures "cid" in KeyByClid(r)[k] && KeyByClid(r)[k]["cid"] == cid
    {
      KeyByClidValues(r, k);
    }
  }

  /** Every record kept by `KeyByClid` is one of the input records. */
  lemma {:induction false} KeyByClidValues(cs: seq<Client>, k: String)
    requires k in KeyByClid(cs)
    ensures KeyByClid(cs)[k] in cs
    decreases |cs|
  {
    var init := cs[..|cs| - 1];
    var c := cs[|cs| - 1];
    if !("clid" in c && c["clid"] == k) {
      KeyByClidValues(init, k);
      assert forall x :: x in init ==> x in cs;
    }
  }

  /** The channel state object, with the mutators of `ChannelState`. */
  class ChannelState {
    var myClid: String
    var myCid: String
    var chName: String
    var serverName: String
    var clients: map<String, Client>
    var groupNames: map<String, String>

    /** The state as a value. */
    function Value(): Store
      reads this
    {
      Store(myClid, myCid, chName, serverName, clients, groupNames)
    }

    constructor ()
      ensures Value() == Empty
    {
      myClid, myCid, chName, serverName := [], [], [], [];
      clients, groupNames := map[], map[];
    }

    /** `snapshot`. */
    function Snap(): Snapshot
      reads this
    {
      SnapshotOf(Value())
    }

    /** `has`. */
    function Has(clid: String): bool
      reads this
    {
      clid in clients
    }

    /** `get_my_cid`. */
    function GetMyCid(): String
      reads this
    {
      myCid
    }

    /** `get_my_clid`. */
    function GetMyClid(): String
      reads this
    {
      myClid
    }

    /** `set_group_names`. */
    method SetGroupNames(n: map<String, String>)
      modifies this
      ensures Value() == old(Value()).(groupNames := n)
    {
      groupNames := n;
    }

    /** `set_me`: my ids and names are replaced and no client is tracked. */
    method SetMe(clid: String, cid: String, ch: String, srv: String)
      modifies this
      ensures Value() == Store(clid, cid, ch, srv, map[], old(groupNames))
    {
      myClid, myCid, chName, serverName := clid, cid, ch, srv;
      clients := map[];
    }

    /** `set_clients`. */
    method SetClients(cs: seq<Client>)
      modifies this
      ensures Value() == old(Value()).(clients := KeyByClid(cs))
    {
      clients := KeyByClid(cs);
    }

    /** `upsert`. */
    method Upsert(clid: String, data: Client)
      modifies this
      ensures Value() == old(Value()).(clients := Upserted(old(clients), clid, data))
    {
      clients := Upserted(clients, clid, data);
    }

    /** `remove`. */
    method Remove(clid: String)
      modifies this
      ensures Value() == old(Value()).(clients := Removed(old(clients), clid))
    {
      clients := Removed(clients, clid);
    }

    /** `set_talking`. */
    method SetTalking(clid: String, talking: bool)
      modifies this
      ensures Value() == old(Value()).(clients := SetFlag(old(clients), clid, "client_flag_talking", talking))
    {
      clients := SetFlag(clients, clid, "client_flag_talking", talking);
    }

    /** `set_whisper_talking`. */
    method SetWhisperTalking(clid: String, talking: bool)
      modifies this
      ensures Value() == old(Value()).(clients := SetFlag(old(clients), clid, "client_flag_whisper", talking))
    {
      clients := SetFlag(clients, clid, "client_flag_whisper", talking);
    }
  }
}
