/** The reply extractors of `TS3Connection`: `whoami`, `clientlist_voice_info`,
    `clientinfo`, `channel_name`, `server_name` and `channelgrouplist`, each a
    function of the reply text that `_cmd` returned. A reply is read line by
    line (`splitlines`); list replies hold several records on one line,
    separated by `|`. */
module Replies {
  import opened Text
  import opened Codec

  datatype Option<T> = None | Some(value: T)

  /** `i` is the first index of `ls` whose element satisfies `p`. */
  predicate First(ls: seq<String>, p: String -> bool, i: nat) {
    i < |ls| && p(ls[i]) && forall j :: 0 <= j < i ==> !p(ls[j])
  }

  /** No element of `ls` satisfies `p`. */
  predicate NoneWhere(ls: seq<String>, p: String -> bool) {
    forall j :: 0 <= j < |ls| ==> !p(ls[j])
  }

  /** The index of the first line satisfying `p`, as the `for ... return`
      loops of the extractors find it. */
  function FirstWhere(ls: seq<String>, p: String -> bool): (r: Option<nat>)
    ensures r.Some? ==> First(ls, p, r.value)
    ensures r.None? ==> NoneWhere(ls, p)
    decreases |ls|
  {
    if ls == [] then None
    else if p(ls[0]) then Some(0)
    else match FirstWhere(ls[1..], p)
      case None => None
      case Some(i) => Some(i + 1)
  }

  /** The `|`-separated entries of the lines satisfying `p`, in order. */
  function Entries(ls: seq<String>, p: String -> bool): seq<String>
    decreases |ls|
  {
    if ls == [] then []
    else (if p(ls[0]) then Split(ls[0], '|') else []) + Entries(ls[1..], p)
  }

  /** A record line of a `whoami` or `clientlist` reply. */
  predicate ClientLine(l: String) {
    Contains(l, "clid=") && !StartsWith(l, "error")
  }

  /** A record line of a `clientinfo` reply. */
  predicate InfoLine(l: String) {
    Contains(l, "client_nickname=") && !StartsWith(l, "error")
  }

  /** A record line of a `channellist` reply. */
  predicate ChannelLine(l: String) {
    Contains(l, "cid=") && !StartsWith(l, "error")
  }

  /** A record line of a `channelgrouplist` reply. */
  predicate GroupLine(l: String) {
    Contains(l, "cgid=") && !StartsWith(l, "error")
  }

  /** The record line of a `serverinfo` reply. */
  predicate ServerLine(l: String) {
    StartsWith(l, "virtualserver_name=")
  }

  /** `whoami`: the first client line, parsed; `{}` when there is none. */
  function WhoamiLines(ls: seq<String>): Fields {
    match FirstWhere(ls, ClientLine)
    case None => map[]
    case Some(i) => Parse(ls[i])
  }

  function Whoami(reply: String): Fields { WhoamiLines(SplitLines(reply)) }

  /** `clientinfo`: the first line carrying a nickname, parsed. */
  function ClientInfoLines(ls: seq<String>): Fields {
    match FirstWhere(ls, InfoLine)
    case None => map[]
    case Some(i) => Parse(ls[i])
  }

  function ClientInfo(reply: String): Fields { ClientInfoLines(SplitLines(reply)) }

  /** `server_name`: the `virtualserver_name` of the first server line;
      `""` when there is none. */
  function ServerNameLines(ls: seq<String>): String {
    match FirstWhere(ls, ServerLine)
    case None => []
    case Some(i) => Get(Parse(ls[i]), "virtualserver_name", [])
  }

  function ServerName(reply: String): String { ServerNameLines(SplitLines(reply)) }

  /** The records of `clientlist_voice_info` from the entries of its client
      lines: each entry is stripped and kept when it mentions `clid=`. */
  function ClientRecords(es: seq<String>): (cs: seq<Fields>)
    ensures |cs| <= |es|
    decreases |es|
  {
    if es == [] then []
    else RecordOf(es[0]) + ClientRecords(es[1..])
  }

  /** The record of one entry: its stripped text, parsed, when it mentions
      `clid=`; none otherwise. */
  function RecordOf(e: String): (r: seq<Fields>)
    ensures |r| <= 1 && (r != [] <==> Contains(Strip(e), "clid="))
  {
    var t := Strip(e);
    if Contains(t, "clid=") then [Parse(t)] else []
  }

  function ClientListLines(ls: seq<String>): seq<Fields> {
    ClientRecords(Entries(ls, ClientLine))
  }

  function ClientList(reply: String): seq<Fields> { ClientListLines(SplitLines(reply)) }

  /** The entry describes channel `cid` (`d.get("cid") == cid`). */
  predicate DescribesChannel(e: String, cid: String) {
    "cid" in Parse(e) && Parse(e)["cid"] == cid
  }

  /** `channel_name(cid)`: the `channel_name` of the first entry of a channel
      line that describes channel `cid`; `""` when none does. */
  function ChannelNameLines(ls: seq<String>, cid: String): String {
    var es := Entries(ls, ChannelLine);
    match FirstWhere(es, e => DescribesChannel(e, cid))
    case None => []
    case Some(i) => Get(Parse(es[i]), "channel_name", [])
  }

  function ChannelName(reply: String, cid: String): String {
    ChannelNameLines(SplitLines(reply), cid)
  }

  /** The entry names a channel group (`d.get("cgid")` is non-empty). */
  predicate NamesGroup(e: String) {
    "cgid" in Parse(e) && Parse(e)["cgid"] != []
  }

  /** The loop of `channelgrouplist` over the entries `es`: each group id
      is bound to its `name`, a later entry overwriting an earlier one. */
  function GroupNames(es: seq<String>): map<String, String>
    decreases |es|
  {
    if es == [] then map[]
    else
      var e := es[|es| - 1];
      var g := GroupNames(es[..|es| - 1]);
      if NamesGroup(e) then g[Parse(e)["cgid"] := Get(Parse(e), "name", [])] else g
  }

  function ChannelGroupsLines(ls: seq<String>): map<String, String> {
    GroupNames(Entries(ls, GroupLine))
  }

  function ChannelGroups(reply: String): map<String, String> {
    ChannelGroupsLines(SplitLines(reply))
  }

  // ---------------------------------------------------------------------
  // Properties

  /** There is only one first match. */
  lemma FirstUnique(ls: seq<String>, p: String -> bool, i: nat, j: nat)
    requires First(ls, p, i) && First(ls, p, j)
    ensures i == j
  {
  }

  /** `whoami` parses the first client line, and gives `{}` without one. */
  lemma WhoamiPicksFirst(ls: seq<String>, i: nat)
    ensures NoneWhere(ls, ClientLine) ==> WhoamiLines(ls) == map[]
    ensures First(ls, ClientLine, i) ==> WhoamiLines(ls) == Parse(ls[i])
  {
    PicksFirst(ls, ClientLine, i);
  }

  /** `clientinfo` parses the first line with a nickname, and gives `{}`
      without one. */
  lemma ClientInfoPicksFirst(ls: seq<String>, i: nat)
    ensures NoneWhere(ls, InfoLine) ==> ClientInfoLines(ls) == map[]
    ensures First(ls, InfoLine, i) ==> ClientInfoLines(ls) == Parse(ls[i])
  {
    PicksFirst(ls, InfoLine, i);
  }

  /** `server_name` reads the first server line, and gives `""` without one. */
  lemma ServerNamePicksFirst(ls: seq<String>, i: nat)
    ensures NoneWhere(ls, ServerLine) ==> ServerNameLines(ls) == []
    ensures First(ls, ServerLine, i) ==>
              ServerNameLines(ls) == Get(Parse(ls[i]), "virtualserver_name", [])
  {
    PicksFirst(ls, ServerLine, i);
  }

  /** `channel_name(cid)` reads the first entry describing channel `cid`, and
      gives `""` when no entry does. */
  lemma ChannelNamePicksFirst(ls: seq<String>, cid: String, i: nat)
    ensures var es := Entries(ls, ChannelLine);
            NoneWhere(es, e => DescribesChannel(e, cid)) ==> ChannelNameLines(ls, cid) == []
    ensures var es := Entries(ls, ChannelLine);
            First(es, e => DescribesChannel(e, cid), i) ==>
              ChannelNameLines(ls, cid) == Get(Parse(es[i]), "channel_name", [])
  {
    PicksFirst(Entries(ls, ChannelLine), e => DescribesChannel(e, cid), i);
  }

  lemma PicksFirst(ls: seq<String>, p: String -> bool, i: nat)
    ensures NoneWhere(ls, p) ==> FirstWhere(ls, p).None?
    ensures First(ls, p, i) ==> FirstWhere(ls, p) == Some(i)
  {
    match FirstWhere(ls, p)
    case None =>
    case Some(k) =>
      if First(ls, p, i) {
        FirstUnique(ls, p, i, k);
      }
  }

  /** Entry `e` binds group id `g`. */
  predicate Binds(e: String, g: String) {
    NamesGroup(e) && Parse(e)["cgid"] == g
  }

  /** A group id is present exactly when some entry names it. */
  lemma {:induction false} GroupNamesKeys(es: seq<String>, g: String)
    ensures g in GroupNames(es) <==> exists i :: 0 <= i < |es| && Binds(es[i], g)
    decreases |es|
  {
    if es != [] {
      GroupNamesKeys(es[..|es| - 1], g);
      GroupNamesStep(es, g);
      AnySnoc(es, es[..|es| - 1], e => Binds(e, g));
    }
  }

  /** Some element of a non-empty sequence satisfies `p` exactly when some
      element before the last does, or the last one does. */
  lemma AnySnoc<T>(s: seq<T>, init: seq<T>, p: T -> bool)
    requires s != [] && init == s[..|s| - 1]
    ensures (exists i :: 0 <= i < |s| && p(s[i])) <==>
            (exists i :: 0 <= i < |init| && p(init[i])) || p(s[|s| - 1])
  {
    if exists i :: 0 <= i < |s| && p(s[i]) {
      var i :| 0 <= i < |s| && p(s[i]);
      if i < |init| {
        assert init[i] == s[i];
      }
    }
    if exists i :: 0 <= i < |init| && p(init[i]) {
      var i :| 0 <= i < |init| && p(init[i]);
      assert s[i] == init[i];
    }
  }

  /** The last entry adds its own binding to those of the others. */
  lemma GroupNamesStep(es: seq<String>, g: String)
    requires es != []
    ensures g in GroupNames(es) <==> g in GroupNames(es[..|es| - 1]) || Binds(es[|es| - 1], g)
  {
  }

  /** A group's name comes from the last entry that names it. */
  lemma {:induction false} GroupNamesLast(es: seq<String>, i: nat)
    requires i < |es| && NamesGroup(es[i])
    requires forall j :: i < j < |es| && NamesGroup(es[j]) ==> Parse(es[j])["cgid"] != Parse(es[i])["cgid"]
    ensures var g := Parse(es[i])["cgid"];
            g in GroupNames(es) && GroupNames(es)[g] == Get(Parse(es[i]), "name", [])
    decreases |es|
  {
    var init := es[..|es| - 1];
    if i < |es| - 1 {
      assert init[i] == es[i];
      assert forall j :: i < j < |init| ==> init[j] == es[j];
      GroupNamesLast(init, i);
    }
  }

  /** A line that `p` rejects adds no entries. */
  lemma {:induction false} EntriesSkip(ls: seq<String>, l: String, p: String -> bool)
    requires !p(l)
    ensures Entries(ls + [l], p) == Entries(ls, p)
    decreases |ls|
  {
    if ls == [] {
      assert [l][1..] == [];
    } else {
      assert (ls + [l])[1..] == ls[1..] + [l];
      EntriesSkip(ls[1..], l, p);
    }
  }

  /** A line that `p` rejects, put at the end, does not change the search. */
  lemma {:induction false} FirstWhereSkip(ls: seq<String>, l: String, p: String -> bool)
    requires !p(l)
    ensures FirstWhere(ls + [l], p) == FirstWhere(ls, p)
    decreases |ls|
  {
    if ls == [] {
      assert [l][1..] == [];
    } else {
      assert (ls + [l])[1..] == ls[1..] + [l];
      FirstWhereSkip(ls[1..], l, p);
    }
  }

  lemma StatusIsNoRecord(e: String)
    requires StartsWith(e, "error")
    ensures !ClientLine(e) && !InfoLine(e) && !ChannelLine(e) && !GroupLine(e) && !ServerLine(e)
  {
    assert e[0] == 'e';
  }

  /** The status line that ends a reply never contributes to any extractor:
      with or without it, every extractor gives the same result. */
  lemma StatusLineIgnored(ls: seq<String>, e: String, cid: String)
    requires StartsWith(e, "error")
    ensures WhoamiLines(ls + [e]) == WhoamiLines(ls)
    ensures ClientInfoLines(ls + [e]) == ClientInfoLines(ls)
    ensures ServerNameLines(ls + [e]) == ServerNameLines(ls)
    ensures ClientListLines(ls + [e]) == ClientListLines(ls)
    ensures ChannelNameLines(ls + [e], cid) == ChannelNameLines(ls, cid)
    ensures ChannelGroupsLines(ls + [e]) == ChannelGroupsLines(ls)
  {
    StatusIsNoRecord(e);
    FirstWhereSkip(ls, e, ClientLine);
    FirstWhereSkip(ls, e, InfoLine);
    FirstWhereSkip(ls, e, ServerLine);
    EntriesSkip(ls, e, ClientLine);
    EntriesSkip(ls, e, ChannelLine);
    EntriesSkip(ls, e, GroupLine);
    assert (ls + [e])[..|ls|] == ls;
  }

  /** A reply made only of status lines yields nothing. */
  lemma {:induction false} StatusOnly(ls: seq<String>, cid: String)
    requires forall j :: 0 <= j < |ls| ==> StartsWith(ls[j], "error")
    ensures WhoamiLines(ls) == map[] && ClientInfoLines(ls) == map[] && ServerNameLines(ls) == []
    ensures ClientListLines(ls) == [] && ChannelNameLines(ls, cid) == [] && ChannelGroupsLines(ls) == map[]
    decreases |ls|
  {
    if ls != [] {
      var init := ls[..|ls| - 1];
      assert forall j :: 0 <= j < |init| ==> init[j] == ls[j];
      StatusOnly(init, cid);
      assert init + [ls[|ls| - 1]] == ls;
      StatusLineIgnored(init, ls[|ls| - 1], cid);
    }
  }

  /** The entries come from lines accepted by `p`, in order: every entry of an
      accepted line is there. */
  lemma {:induction false} EntriesOf(ls: seq<String>, p: String -> bool, i: nat, k: nat)
    requires i < |ls| && p(ls[i]) && k < |Split(ls[i], '|')|
    ensures Split(ls[i], '|')[k] in Entries(ls, p)
    decreases |ls|
  {
    if i > 0 {
      assert ls[1..][i - 1] == ls[i];
      EntriesOf(ls[1..], p, i - 1, k);
    }
  }

  /** Every entry comes from some line accepted by `p`. */
  lemma {:induction false} EntriesFrom(ls: seq<String>, p: String -> bool, e: String)
    requires e in Entries(ls, p)
    ensures exists i :: 0 <= i < |ls| && p(ls[i]) && e in Split(ls[i], '|')
    decreases |ls|
  {
    var head := if p(ls[0]) then Split(ls[0], '|') else [];
    if e !in head {
      EntriesFrom(ls[1..], p, e);
      var i :| 0 <= i < |ls[1..]| && p(ls[1..][i]) && e in Split(ls[1..][i], '|');
      assert ls[i + 1] == ls[1..][i];
    }
  }

  /** The entries of two blocks of lines are the entries of the first
      block followed by those of the second. */
  lemma {:induction false} EntriesAppend(a: seq<String>, b: seq<String>, p: String -> bool)
    ensures Entries(a + b, p) == Entries(a, p) + Entries(b, p)
    decreases |a|
  {
    if a != [] {
      assert (a + b)[0] == a[0] && (a + b)[1..] == a[1..] + b;
      EntriesAppend(a[1..], b, p);
    } else {
      assert a + b == b;
    }
  }

  /** `clientlist_voice_info` reads the entries in order: the records of two
      runs of entries are those of the first run followed by those of the
      second. */
  lemma {:induction false} ClientRecordsAppend(a: seq<String>, b: seq<String>)
    ensures ClientRecords(a + b) == ClientRecords(a) + ClientRecords(b)
    decreases |a|
  {
    if a != [] {
      var t := a[1..];
      assert (a + b)[0] == a[0] && (a + b)[1..] == t + b;
      ClientRecordsAppend(t, b);
      ClientRecordsCons(a);
      ClientRecordsCons(a + b);
      SeqAssoc(ClientRecords([a[0]]), ClientRecords(t), ClientRecords(b));
    } else {
      assert a + b == b;
    }
  }

  /** When every entry mentions `clid=`, there is one record per entry. */
  lemma {:induction false} ClientRecordsEvery(es: seq<String>)
    requires forall j :: 0 <= j < |es| ==> Contains(Strip(es[j]), "clid=")
    ensures |ClientRecords(es)| == |es|
    decreases |es|
  {
    if es != [] {
      assert |RecordOf(es[0])| == 1;
      ClientRecordsEvery(es[1..]);
    }
  }

  lemma ClientRecordsCons(es: seq<String>)
    requires es != []
    ensures ClientRecords(es) == ClientRecords([es[0]]) + ClientRecords(es[1..])
  {
    assert [es[0]][1..] == [];
  }

  /** One entry gives its stripped text, parsed, when it mentions `clid=`,
      and no record otherwise. */
  lemma ClientRecordsOne(e: String)
    ensures ClientRecords([e]) == if Contains(Strip(e), "clid=") then [Parse(Strip(e))] else []
  {
    assert [e][1..] == [];
    assert ClientRecords([e]) == RecordOf(e) + [];
  }

  /** The records of a reply are those of its lines, in order: a client
      line contributes the records of its `|`-separated entries, any other
      line none. */
  lemma ClientListAppend(a: seq<String>, b: seq<String>)
    ensures ClientListLines(a + b) == ClientListLines(a) + ClientListLines(b)
  {
    EntriesAppend(a, b, ClientLine);
    ClientRecordsAppend(Entries(a, ClientLine), Entries(b, ClientLine));
  }

  lemma ClientListOne(l: String)
    ensures ClientListLines([l]) == if ClientLine(l) then ClientRecords(Split(l, '|')) else []
  {
    assert [l][1..] == [];
    var es := if ClientLine(l) then Split(l, '|') else [];
    assert Entries([l], ClientLine) == es + [];
    assert Entries([l], ClientLine) == es;
  }
}
