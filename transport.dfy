/** The line transport and reply demultiplexer of `TS3Connection`:
    `read_line`, `_recv_until_ok`, `_cmd` and the authentication check of
    `connect`. The socket is modelled by the sequence of outcomes its
    successive `recv` calls will have. */
module Transport {
  import opened Text

  /** One `recv` call: the chunk it returned (an empty chunk means the peer
      closed the connection) or `socket.timeout`. Every receive timeout is
      set to the time left before the caller's deadline, so a timeout means
      that deadline has passed. */
  datatype Recv = Data(chunk: String) | Timeout

  /** What one `read_line` call yields: a line, `None` (no data before the
      deadline), `ConnectionError` (socket closed), or another exception
      (`Fault`, which the socket model never produces but the reading loop
      of the engine handles). */
  datatype ReadOutcome = Line(text: String) | NoData | Closed | Fault(msg: String)

  /** What one `_cmd` exchange yields: the reply text, or the
      `ConnectionError` of a closed socket. */
  datatype Reply = Answer(text: String) | Broken

  datatype ReadResult = ReadResult(out: ReadOutcome, buf: String, inbox: seq<Recv>)

  /** `s2` is what is left of `s1` once some of its first elements have
      been consumed. */
  predicate Suffix<T(==)>(s2: seq<T>, s1: seq<T>) {
    |s2| <= |s1| && s2 == s1[|s1| - |s2|..]
  }

  /** The effect of `read_line` on the line buffer `buf` and the socket. */
  function ReadLineSpec(buf: String, inbox: seq<Recv>): (r: ReadResult)
    ensures r.out.Line? ==> r.out.text != [] && '\n' !in r.out.text
    ensures !r.out.Fault?
    ensures Suffix(r.inbox, inbox)
    decreases |inbox|, |buf|
  {
    if '\n' in buf then
      var i := Find(buf, '\n');
      var line := Strip(buf[..i]);
      StripNoNewline(buf[..i]);
      if line != [] then ReadResult(Line(line), buf[i + 1..], inbox)
      else ReadLineSpec(buf[i + 1..], inbox)
    else if inbox == [] then ReadResult(NoData, buf, inbox)
    else
      match inbox[0]
      case Timeout => ReadResult(NoData, buf, inbox[1..])
      case Data(c) =>
        if c == [] then ReadResult(Closed, buf, inbox[1..])
        else ReadLineSpec(buf + c, inbox[1..])
  }

  lemma StripNoNewline(s: String)
    requires '\n' !in s
    ensures '\n' !in Strip(s)
  {
    var pre, post := StripShape(s);
    assert s == pre + Strip(s) + post;
  }

  /** The outcome of `_recv_until_ok`: the reply lines collected, whether
      the socket closed (`ConnectionError`), whether the terminating
      `error id=` line was seen, the notification lines set aside (in the
      order they arrived), the line buffer and the rest of the socket. */
  datatype Exchange = Exchange(lines: seq<String>, closed: bool, complete: bool,
                               notes: seq<String>, buf: String, inbox: seq<Recv>)

  /** The outer loop of `_recv_until_ok`: one `recv`, then `Drain`. The
      unfinished line in `local` is lost when the exchange ends. */
  function RecvLoop(buf: String, inbox: seq<Recv>, lines: seq<String>, notes: seq<String>,
                    local: String): Exchange
    requires '\n' !in local
    decreases |inbox|, |local|, 0
  {
    if inbox == [] then Exchange(lines, false, false, notes, buf, inbox)
    else
      match inbox[0]
      case Timeout => Exchange(lines, false, false, notes, buf, inbox[1..])
      case Data(c) =>
        if c == [] then Exchange(lines, true, false, notes, buf, inbox[1..])
        else Drain(buf, inbox[1..], lines, notes, local + c)
  }

  /** The inner loop of `_recv_until_ok` over the complete lines of `local`:
      blank lines are skipped, `notify` lines are put in front of the line
      buffer, other lines are collected, and an `error id=` line ends the
      exchange (whatever follows it in `local` is dropped). */
  function Drain(buf: String, inbox: seq<Recv>, lines: seq<String>, notes: seq<String>,
                 local: String): Exchange
    decreases |inbox|, |local|, 1
  {
    if '\n' !in local then RecvLoop(buf, inbox, lines, notes, local)
    else
      var i := Find(local, '\n');
      var line := Strip(local[..i]);
      var rest := local[i + 1..];
      if line == [] then Drain(buf, inbox, lines, notes, rest)
      else if StartsWith(line, "notify") then Drain(line + "\n" + buf, inbox, lines, notes + [line], rest)
      else if StartsWith(line, "error id=") then Exchange(lines + [line], false, true, notes, buf, inbox)
      else Drain(buf, inbox, lines + [line], notes, rest)
  }

  /** `_recv_until_ok` from an empty local buffer. */
  function RecvSpec(buf: String, inbox: seq<Recv>): Exchange {
    RecvLoop(buf, inbox, [], [], [])
  }

  /** The text `_recv_until_ok` returns for an exchange. */
  function ReplyOf(x: Exchange): Reply {
    if x.closed then Broken else Answer(Join(x.lines, "\n"))
  }

  /** The line buffer after notifications `notes` were each put in front of
      `buf`, in arrival order: the latest one comes first. */
  function PushFront(notes: seq<String>, buf: String): String {
    if notes == [] then buf
    else notes[|notes| - 1] + "\n" + PushFront(notes[..|notes| - 1], buf)
  }

  /** A stripped, non-empty line without line feed. */
  predicate CleanLine(l: String) {
    l != [] && '\n' !in l && Strip(l) == l
  }

  /** A line of a reply: never a notification, and not a terminator. */
  predicate ReplyLine(l: String) {
    CleanLine(l) && !StartsWith(l, "notify") && !StartsWith(l, "error id=")
  }

  /** A notification line. */
  predicate NoteLine(l: String) {
    CleanLine(l) && StartsWith(l, "notify")
  }

  /** The promises `_recv_until_ok` keeps about its reply, its notifications
      and the line buffer. */
  predicate ExchangeShape(x: Exchange, buf: String, inbox: seq<Recv>) {
    && (forall j :: 0 <= j < |x.lines| ==>
          ReplyLine(x.lines[j]) || (x.complete && j == |x.lines| - 1))
    && (x.complete <==> x.lines != [] && StartsWith(x.lines[|x.lines| - 1], "error id="))
    && (x.complete ==> !x.closed && CleanLine(x.lines[|x.lines| - 1]))
    && (forall j :: 0 <= j < |x.notes| ==> NoteLine(x.notes[j]))
    && x.buf == PushFront(x.notes, buf)
    && Suffix(x.inbox, inbox)
  }

  lemma StripIdempotent(s: String)
    ensures Strip(Strip(s)) == Strip(s)
  {
    var pre, post := StripShape(s);
    StripNoOp(Strip(s));
  }

  /** The invariant relating the accumulators of the two loops to their
      starting point. */
  predicate Acc(buf0: String, inbox0: seq<Recv>, buf: String, inbox: seq<Recv>,
                lines: seq<String>, notes: seq<String>) {
    && (forall j :: 0 <= j < |lines| ==> ReplyLine(lines[j]))
    && (forall j :: 0 <= j < |notes| ==> NoteLine(notes[j]))
    && buf == PushFront(notes, buf0)
    && Suffix(inbox, inbox0)
  }

  lemma {:induction false} LoopShape(buf0: String, inbox0: seq<Recv>, buf: String, inbox: seq<Recv>,
                                     lines: seq<String>, notes: seq<String>, local: String)
    requires '\n' !in local
    requires Acc(buf0, inbox0, buf, inbox, lines, notes)
    ensures ExchangeShape(RecvLoop(buf, inbox, lines, notes, local), buf0, inbox0)
    decreases |inbox|, |local|, 0
  {
    if inbox != [] && inbox[0].Data? && inbox[0].chunk != [] {
      assert Suffix(inbox[1..], inbox0);
      DrainShape(buf0, inbox0, buf, inbox[1..], lines, notes, local + inbox[0].chunk);
    } else if inbox != [] {
      assert Suffix(inbox[1..], inbox0);
    }
  }

  lemma {:induction false} DrainShape(buf0: String, inbox0: seq<Recv>, buf: String, inbox: seq<Recv>,
                                      lines: seq<String>, notes: seq<String>, local: String)
    requires Acc(buf0, inbox0, buf, inbox, lines, notes)
    ensures ExchangeShape(Drain(buf, inbox, lines, notes, local), buf0, inbox0)
    decreases |inbox|, |local|, 1
  {
    if '\n' !in local {
      LoopShape(buf0, inbox0, buf, inbox, lines, notes, local);
    } else {
      var i := Find(local, '\n');
      var line := Strip(local[..i]);
      var rest := local[i + 1..];
      CutLine(local[..i]);
      if line == [] {
        DrainShape(buf0, inbox0, buf, inbox, lines, notes, rest);
      } else if StartsWith(line, "notify") {
        AccNote(buf0, inbox0, buf, inbox, lines, notes, line);
        DrainShape(buf0, inbox0, line + "\n" + buf, inbox, lines, notes + [line], rest);
      } else if StartsWith(line, "error id=") {
        EndShape(buf0, inbox0, buf, inbox, lines, notes, line);
      } else {
        AccReply(buf0, inbox0, buf, inbox, lines, notes, line);
        DrainShape(buf0, inbox0, buf, inbox, lines + [line], notes, rest);
      }
    }
  }

  /** A line cut from the local buffer is blank or clean. */
  lemma CutLine(s: String)
    requires '\n' !in s
    ensures Strip(s) == [] || CleanLine(Strip(s))
  {
    StripNoNewline(s);
    StripIdempotent(s);
  }

  lemma AccNote(buf0: String, inbox0: seq<Recv>, buf: String, inbox: seq<Recv>,
                lines: seq<String>, notes: seq<String>, line: String)
    requires Acc(buf0, inbox0, buf, inbox, lines, notes) && NoteLine(line)
    ensures Acc(buf0, inbox0, line + "\n" + buf, inbox, lines, notes + [line])
  {
    var notes' := notes + [line];
    assert notes'[..|notes'| - 1] == notes;
  }

  lemma AccReply(buf0: String, inbox0: seq<Recv>, buf: String, inbox: seq<Recv>,
                 lines: seq<String>, notes: seq<String>, line: String)
    requires Acc(buf0, inbox0, buf, inbox, lines, notes) && ReplyLine(line)
    ensures Acc(buf0, inbox0, buf, inbox, lines + [line], notes)
  {
  }

  lemma EndShape(buf0: String, inbox0: seq<Recv>, buf: String, inbox: seq<Recv>,
                 lines: seq<String>, notes: seq<String>, line: String)
    requires Acc(buf0, inbox0, buf, inbox, lines, notes)
    requires CleanLine(line) && StartsWith(line, "error id=")
    ensures ExchangeShape(Exchange(lines + [line], false, true, notes, buf, inbox), buf0, inbox0)
  {
  }

  /** `_recv_until_ok` never returns a notification line: each one is put
      in front of the line buffer, so the buffer afterwards holds them
      latest first; it stops as soon as an `error id=` line is collected,
      and that line is the last of the reply and the only terminator in it. */
  lemma RecvShape(buf: String, inbox: seq<Recv>)
    ensures ExchangeShape(RecvSpec(buf, inbox), buf, inbox)
  {
    assert Suffix(inbox, inbox);
    LoopShape(buf, inbox, buf, inbox, [], [], []);
  }

  // ---------------------------------------------------------------------
  // _recv_until_ok against the text it receives

  /** The text `_recv_until_ok` can receive: the leading non-empty chunks,
      concatenated, up to the first timeout, empty chunk or end. */
  function Stream(inbox: seq<Recv>): String
    decreases |inbox|
  {
    if inbox == [] || inbox[0].Timeout? || inbox[0].chunk == [] then []
    else inbox[0].chunk + Stream(inbox[1..])
  }

  /** The leading non-empty chunks are followed by a closed socket. */
  predicate Closes(inbox: seq<Recv>)
    decreases |inbox|
  {
    inbox != [] && inbox[0].Data? && (inbox[0].chunk == [] || Closes(inbox[1..]))
  }

  /** The complete (line-feed terminated) lines of a text, in order. */
  function FullLines(s: String): seq<String> {
    var ps := Split(s, '\n');
    ps[..|ps| - 1]
  }

  /** What a run of lines amounts to: the reply lines, the notifications,
      and whether a terminator was met. */
  datatype Demuxed = Demuxed(lines: seq<String>, notes: seq<String>, complete: bool)

  /** The reference reading of a run of raw lines: each is stripped; blank
      lines are dropped; `notify` lines are notifications; the other lines
      form the reply, which ends with (and includes) the first `error id=`
      line; nothing after that line is read. */
  function Demux(raw: seq<String>): Demuxed
    decreases |raw|
  {
    if raw == [] then Demuxed([], [], false)
    else
      var l := Strip(raw[0]);
      if l == [] then Demux(raw[1..])
      else if StartsWith(l, "notify") then
        var d := Demux(raw[1..]);
        d.(notes := [l] + d.notes)
      else if StartsWith(l, "error id=") then Demuxed([l], [], true)
      else
        var d := Demux(raw[1..]);
        d.(lines := [l] + d.lines)
  }

  /** `_recv_until_ok` reads the received text as `Demux` does, however the
      text is cut into chunks: the reply is the non-notification lines up
      to and including the first `error id=` line, the notifications are
      those met before it, and the socket counts as closed only when it
      closes before a terminator arrives. */
  lemma RecvDemux(buf: String, inbox: seq<Recv>)
    ensures var x := RecvSpec(buf, inbox);
            var d := Demux(FullLines(Stream(inbox)));
            && x.lines == d.lines && x.notes == d.notes && x.complete == d.complete
            && x.closed == (!d.complete && Closes(inbox))
            && x.buf == PushFront(d.notes, buf)
  {
    LoopDemux(buf, inbox, [], [], []);
    RecvShape(buf, inbox);
    assert [] + Stream(inbox) == Stream(inbox);
  }

  /** The invariant of the outer loop against the reference. */
  lemma {:induction false} LoopDemux(buf: String, inbox: seq<Recv>, lines: seq<String>,
                                     notes: seq<String>, local: String)
    requires '\n' !in local
    ensures var x := RecvLoop(buf, inbox, lines, notes, local);
            var d := Demux(FullLines(local + Stream(inbox)));
            && x.lines == lines + d.lines && x.notes == notes + d.notes && x.complete == d.complete
            && x.closed == (!d.complete && Closes(inbox))
    decreases |inbox|, |local|, 0
  {
    if inbox != [] && inbox[0].Data? && inbox[0].chunk != [] {
      var c := inbox[0].chunk;
      assert local + Stream(inbox) == (local + c) + Stream(inbox[1..]);
      DrainDemux(buf, inbox[1..], lines, notes, local + c);
    } else {
      assert local + Stream(inbox) == local;
      NoFullLine(local);
    }
  }

  /** The outcome of the loops from accumulators `lines` and `notes`
      agrees with the reference reading `d` of the rest of the text. */
  predicate Agrees(x: Exchange, lines: seq<String>, notes: seq<String>, d: Demuxed, inbox: seq<Recv>) {
    && x.lines == lines + d.lines && x.notes == notes + d.notes && x.complete == d.complete
    && x.closed == (!d.complete && Closes(inbox))
  }

  /** The invariant of the inner loop against the reference. */
  lemma {:induction false} DrainDemux(buf: String, inbox: seq<Recv>, lines: seq<String>,
                                      notes: seq<String>, local: String)
    ensures Agrees(Drain(buf, inbox, lines, notes, local), lines, notes,
                   Demux(FullLines(local + Stream(inbox))), inbox)
    decreases |inbox|, |local|, 1
  {
    if '\n' !in local {
      LoopDemux(buf, inbox, lines, notes, local);
    } else {
      var i := Find(local, '\n');
      var t := Stream(inbox);
      FirstLine(local, t, i);
      DemuxCons(local[..i], FullLines(local[i + 1..] + t));
      CutDemux(buf, inbox, lines, notes, local, i);
    }
  }

  /** One complete line cut from the local buffer, against the reference. */
  lemma {:induction false} CutDemux(buf: String, inbox: seq<Recv>, lines: seq<String>,
                                    notes: seq<String>, local: String, i: nat)
    requires '\n' in local && i == Find(local, '\n')
    requires var l := Strip(local[..i]);
             var d := Demux(FullLines(local[i + 1..] + Stream(inbox)));
             Demux(FullLines(local + Stream(inbox))) ==
               if l == [] then d
               else if StartsWith(l, "notify") then d.(notes := [l] + d.notes)
               else if StartsWith(l, "error id=") then Demuxed([l], [], true)
               else d.(lines := [l] + d.lines)
    ensures Agrees(Drain(buf, inbox, lines, notes, local), lines, notes,
                   Demux(FullLines(local + Stream(inbox))), inbox)
    decreases |inbox|, |local|, 0
  {
    var line := Strip(local[..i]);
    var rest := local[i + 1..];
    DrainCut(buf, inbox, lines, notes, local, i);
    var d := Demux(FullLines(rest + Stream(inbox)));
    if line == [] {
      DrainDemux(buf, inbox, lines, notes, rest);
    } else if StartsWith(line, "notify") {
      DrainDemux(line + "\n" + buf, inbox, lines, notes + [line], rest);
      NoteAgrees(Drain(line + "\n" + buf, inbox, lines, notes + [line], rest), lines, notes, line, d, inbox);
    } else if !StartsWith(line, "error id=") {
      DrainDemux(buf, inbox, lines + [line], notes, rest);
      ReplyAgrees(Drain(buf, inbox, lines + [line], notes, rest), lines, notes, line, d, inbox);
    }
  }

  lemma NoteAgrees(x: Exchange, lines: seq<String>, notes: seq<String>, line: String,
                   d: Demuxed, inbox: seq<Recv>)
    requires Agrees(x, lines, notes + [line], d, inbox)
    ensures Agrees(x, lines, notes, d.(notes := [line] + d.notes), inbox)
  {
    assert (notes + [line]) + d.notes == notes + ([line] + d.notes);
  }

  lemma ReplyAgrees(x: Exchange, lines: seq<String>, notes: seq<String>, line: String,
                    d: Demuxed, inbox: seq<Recv>)
    requires Agrees(x, lines + [line], notes, d, inbox)
    ensures Agrees(x, lines, notes, d.(lines := [line] + d.lines), inbox)
  {
    assert (lines + [line]) + d.lines == lines + ([line] + d.lines);
  }

  /** One step of the inner loop. */
  lemma DrainCut(buf: String, inbox: seq<Recv>, lines: seq<String>, notes: seq<String>,
                 local: String, i: nat)
    requires '\n' in local && i == Find(local, '\n')
    ensures var line := Strip(local[..i]);
            var rest := local[i + 1..];
            Drain(buf, inbox, lines, notes, local) ==
              if line == [] then Drain(buf, inbox, lines, notes, rest)
              else if StartsWith(line, "notify") then Drain(line + "\n" + buf, inbox, lines, notes + [line], rest)
              else if StartsWith(line, "error id=") then Exchange(lines + [line], false, true, notes, buf, inbox)
              else Drain(buf, inbox, lines + [line], notes, rest)
  {
  }

  /** `Demux` of a run that starts with the raw line `h`. */
  lemma DemuxCons(h: String, raw: seq<String>)
    ensures var l := Strip(h);
            var d := Demux(raw);
            Demux([h] + raw) ==
              if l == [] then d
              else if StartsWith(l, "notify") then d.(notes := [l] + d.notes)
              else if StartsWith(l, "error id=") then Demuxed([l], [], true)
              else d.(lines := [l] + d.lines)
  {
    assert ([h] + raw)[0] == h && ([h] + raw)[1..] == raw;
  }

  /** Text without a line feed holds no complete line. */
  lemma NoFullLine(s: String)
    requires '\n' !in s
    ensures FullLines(s) == []
  {
  }

  /** The first complete line of `local + t` is the one cut from `local`. */
  lemma FirstLine(local: String, t: String, i: nat)
    requires '\n' in local && i == Find(local, '\n')
    ensures FullLines(local + t) == [local[..i]] + FullLines(local[i + 1..] + t)
  {
    var s := local + t;
    ConcatAt(local, t, i);
    FindIs(s, '\n', i);
    var ps := Split(local[i + 1..] + t, '\n');
    assert Split(s, '\n') == [local[..i]] + ps;
    assert ([local[..i]] + ps)[..|ps|] == [local[..i]] + ps[..|ps| - 1];
  }

  // ---------------------------------------------------------------------
  // Properties of read_line

  /** A line buffer holding blank lines and then a non-blank line: `read_line`
      returns the stripped line, drops the blank lines and the line, keeps
      the rest and does not touch the socket. */
  lemma {:induction false} ReadLineBuffered(pre: String, raw: String, rest: String, inbox: seq<Recv>)
    requires AllSpace(pre) && (pre == [] || pre[|pre| - 1] == '\n')
    requires '\n' !in raw && Strip(raw) != []
    ensures ReadLineSpec(pre + (raw + "\n" + rest), inbox) == ReadResult(Line(Strip(raw)), rest, inbox)
    decreases |pre|
  {
    if pre == [] {
      assert pre + (raw + "\n" + rest) == raw + "\n" + rest;
      ReadLineFirst(raw, rest, inbox);
    } else {
      var pre' := ReadLineSkipBlank(pre, raw + "\n" + rest, inbox);
      ReadLineBuffered(pre', raw, rest, inbox);
    }
  }

  lemma ReadLineFirst(raw: String, rest: String, inbox: seq<Recv>)
    requires '\n' !in raw && Strip(raw) != []
    ensures ReadLineSpec(raw + "\n" + rest, inbox) == ReadResult(Line(Strip(raw)), rest, inbox)
  {
    var buf := raw + "\n" + rest;
    assert buf[..|raw|] == raw && buf[|raw|] == '\n' && buf[|raw| + 1..] == rest;
    ReadLineAt(buf, |raw|, inbox);
  }

  /** `read_line` skips a leading blank line. */
  lemma ReadLineSkipBlank(pre: String, tail: String, inbox: seq<Recv>) returns (pre': String)
    requires AllSpace(pre) && pre != [] && pre[|pre| - 1] == '\n'
    ensures |pre'| < |pre| && AllSpace(pre') && (pre' == [] || pre'[|pre'| - 1] == '\n')
    ensures ReadLineSpec(pre + tail, inbox) == ReadLineSpec(pre' + tail, inbox)
  {
    var i := BlankPrefix(pre, tail);
    pre' := pre[i + 1..];
    ReadLineBlank(pre + tail, i, inbox);
  }

  /** The first line feed of a blank prefix, seen in the whole buffer. */
  lemma BlankPrefix(pre: String, tail: String) returns (i: nat)
    requires AllSpace(pre) && pre != [] && pre[|pre| - 1] == '\n'
    ensures i < |pre| && (pre + tail)[i] == '\n'
    ensures '\n' !in (pre + tail)[..i] && AllSpace((pre + tail)[..i])
    ensures (pre + tail)[i + 1..] == pre[i + 1..] + tail
    ensures AllSpace(pre[i + 1..]) && (pre[i + 1..] == [] || pre[|pre| - 1] == '\n')
  {
    i := Find(pre, '\n');
    ConcatAt(pre, tail, i);
    SpacePrefix(pre, i);
    SpaceSuffix(pre, i + 1);
  }

  lemma SpacePrefix(s: String, i: nat)
    requires AllSpace(s) && i <= |s|
    ensures AllSpace(s[..i])
  {
  }

  lemma SpaceSuffix(s: String, i: nat)
    requires AllSpace(s) && i <= |s|
    ensures AllSpace(s[i..])
  {
  }

  lemma ConcatAt<T>(a: seq<T>, b: seq<T>, i: nat)
    requires i < |a|
    ensures (a + b)[..i] == a[..i] && (a + b)[i] == a[i] && (a + b)[i + 1..] == a[i + 1..] + b
  {
  }

  /** `read_line` drops a blank first line. */
  lemma ReadLineBlank(buf: String, i: nat, inbox: seq<Recv>)
    requires i < |buf| && buf[i] == '\n' && '\n' !in buf[..i] && AllSpace(buf[..i])
    ensures ReadLineSpec(buf, inbox) == ReadLineSpec(buf[i + 1..], inbox)
  {
    StripAllSpace(buf[..i]);
    ReadLineAt(buf, i, inbox);
  }

  /** `read_line` over a buffer whose first line feed is at `i`. */
  lemma ReadLineAt(buf: String, i: nat, inbox: seq<Recv>)
    requires i < |buf| && buf[i] == '\n' && '\n' !in buf[..i]
    ensures ReadLineSpec(buf, inbox) ==
            if Strip(buf[..i]) != [] then ReadResult(Line(Strip(buf[..i])), buf[i + 1..], inbox)
            else ReadLineSpec(buf[i + 1..], inbox)
  {
    FindIs(buf, '\n', i);
  }

  /** One complete line in the buffer: `read_line` returns it, stripped,
      unless it is blank. */
  lemma ReadLineCut(buf: String, inbox: seq<Recv>)
    requires '\n' in buf
    ensures var i := Find(buf, '\n');
            var line := Strip(buf[..i]);
            ReadLineSpec(buf, inbox) ==
              if line != [] then ReadResult(Line(line), buf[i + 1..], inbox)
              else ReadLineSpec(buf[i + 1..], inbox)
  {
  }

  lemma FindIs(s: String, c: char, i: nat)
    requires i < |s| && s[i] == c && c !in s[..i]
    ensures Find(s, c) == i
  {
    var j := Find(s, c);
  }

  /** Without a complete line in the buffer, a timeout (or the end of the
      data) yields `None` and keeps the buffer. */
  lemma ReadLineTimeout(buf: String, inbox: seq<Recv>)
    requires '\n' !in buf && (inbox == [] || inbox[0] == Timeout)
    ensures ReadLineSpec(buf, inbox).out == NoData
    ensures ReadLineSpec(buf, inbox).buf == buf
  {
  }

  /** Without a complete line in the buffer, an empty chunk raises
      `ConnectionError`. */
  lemma ReadLineClosed(buf: String, inbox: seq<Recv>)
    requires '\n' !in buf && inbox != [] && inbox[0] == Data([])
    ensures ReadLineSpec(buf, inbox).out == Closed
  {
  }

  /** Notifications set aside by `_recv_until_ok` come back from `read_line`
      latest first: with two or more of them their order is reversed. */
  lemma NotesReadBackLatestFirst(notes: seq<String>, buf: String, inbox: seq<Recv>)
    requires notes != [] && forall j :: 0 <= j < |notes| ==> NoteLine(notes[j])
    ensures ReadLineSpec(PushFront(notes, buf), inbox) ==
            ReadResult(Line(notes[|notes| - 1]), PushFront(notes[..|notes| - 1], buf), inbox)
  {
    var n := notes[|notes| - 1];
    assert NoteLine(n);
    assert [] + (n + "\n" + PushFront(notes[..|notes| - 1], buf)) == PushFront(notes, buf);
    ReadLineBuffered([], n, PushFront(notes[..|notes| - 1], buf), inbox);
  }

  /** A reply with one notification interleaved between two data lines:
      the exchange returns the data lines and the terminator, and the
      notification waits in the line buffer. */
  lemma Interleaved(a: String, n: String, c: String, e: String, buf: String, more: seq<Recv>)
    requires ReplyLine(a) && NoteLine(n) && ReplyLine(c)
    requires CleanLine(e) && StartsWith(e, "error id=")
    ensures RecvSpec(buf, [Data(a + "\n" + (n + "\n" + (c + "\n" + (e + "\n"))))] + more) ==
            Exchange([a, c, e], false, true, [n], n + "\n" + buf, more)
  {
    var s1 := n + "\n" + (c + "\n" + (e + "\n"));
    FirstChunk(buf, a + "\n" + s1, more);
    DrainReply(buf, more, [], [], a, s1);
    assert [] + [a] == [a];
    InterleavedRest(a, n, c, e, buf, more);
  }

  lemma InterleavedRest(a: String, n: String, c: String, e: String, buf: String, more: seq<Recv>)
    requires NoteLine(n) && ReplyLine(c)
    requires CleanLine(e) && StartsWith(e, "error id=")
    ensures Drain(buf, more, [a], [], n + "\n" + (c + "\n" + (e + "\n"))) ==
            Exchange([a, c, e], false, true, [n], n + "\n" + buf, more)
  {
    DrainNote(buf, more, [a], [], n, c + "\n" + (e + "\n"));
    assert [] + [n] == [n];
    InterleavedEnd(a, n, c, e, n + "\n" + buf, more);
  }

  lemma InterleavedEnd(a: String, n: String, c: String, e: String, nb: String, more: seq<Recv>)
    requires ReplyLine(c)
    requires CleanLine(e) && StartsWith(e, "error id=")
    ensures Drain(nb, more, [a], [n], c + "\n" + (e + "\n")) ==
            Exchange([a, c, e], false, true, [n], nb, more)
  {
    DrainReply(nb, more, [a], [n], c, e + "\n");
    assert [a] + [c] == [a, c];
    assert e + "\n" == e + "\n" + [];
    DrainEnd(nb, more, [a, c], [n], e, []);
    assert [a, c] + [e] == [a, c, e];
  }

  lemma FirstChunk(buf: String, chunk: String, more: seq<Recv>)
    requires chunk != []
    ensures RecvSpec(buf, [Data(chunk)] + more) == Drain(buf, more, [], [], chunk)
  {
    var inbox := [Data(chunk)] + more;
    assert inbox[0] == Data(chunk) && inbox[1..] == more;
    assert [] + chunk == chunk;
  }

  /** `Drain` at a clean line: the position of its line feed. */
  lemma DrainAt(l: String, rest: String)
    requires CleanLine(l)
    ensures '\n' in l + "\n" + rest
    ensures Find(l + "\n" + rest, '\n') == |l|
    ensures (l + "\n" + rest)[..|l|] == l && (l + "\n" + rest)[|l| + 1..] == rest
  {
    var local := l + "\n" + rest;
    FindAfter(l, '\n', rest);
    assert local[..|l|] == l && local[|l| + 1..] == rest;
  }

  /** `Drain` collects a reply line. */
  lemma DrainReply(buf: String, inbox: seq<Recv>, lines: seq<String>, notes: seq<String>,
                   l: String, rest: String)
    requires ReplyLine(l)
    ensures Drain(buf, inbox, lines, notes, l + "\n" + rest) == Drain(buf, inbox, lines + [l], notes, rest)
  {
    DrainAt(l, rest);
  }

  /** `Drain` sets a notification aside in front of the line buffer. */
  lemma DrainNote(buf: String, inbox: seq<Recv>, lines: seq<String>, notes: seq<String>,
                  l: String, rest: String)
    requires NoteLine(l)
    ensures Drain(buf, inbox, lines, notes, l + "\n" + rest) == Drain(l + "\n" + buf, inbox, lines, notes + [l], rest)
  {
    DrainAt(l, rest);
  }

  /** `Drain` ends the exchange at a terminator. */
  lemma DrainEnd(buf: String, inbox: seq<Recv>, lines: seq<String>, notes: seq<String>,
                 l: String, rest: String)
    requires CleanLine(l) && StartsWith(l, "error id=")
    ensures Drain(buf, inbox, lines, notes, l + "\n" + rest) == Exchange(lines + [l], false, true, notes, buf, inbox)
  {
    DrainAt(l, rest);
    assert !StartsWith(l, "notify") by {
      assert l[0] == 'e';
    }
  }

  // ---------------------------------------------------------------------
  // Authentication

  /** The check in `connect`: the reply to `auth` contains `error id=0`. */
  predicate AuthAccepted(reply: String) {
    Contains(reply, "error id=0")
  }

  /** A reply whose terminator reports status 0 is accepted. */
  lemma AuthAcceptsSuccess(lines: seq<String>, msg: String)
    requires lines != [] && lines[|lines| - 1] == "error id=0" + msg
    ensures AuthAccepted(Join(lines, "\n"))
  {
    JoinLast(lines, "\n");
    var pre := if |lines| == 1 then [] else Join(lines[..|lines| - 1], "\n") + "\n";
    var t := Join(lines, "\n");
    assert t == pre + ("error id=0" + msg);
    assert t[|pre|..|pre| + 10] == "error id=0";
    ContainsAt(t, "error id=0", |pre|);
  }

  lemma {:induction false} JoinLast(parts: seq<String>, sep: String)
    requires parts != []
    ensures Join(parts, sep) ==
            (if |parts| == 1 then [] else Join(parts[..|parts| - 1], sep) + sep) + parts[|parts| - 1]
    decreases |parts|
  {
    if |parts| > 1 {
      JoinLast(parts[1..], sep);
      assert parts[1..][..|parts[1..]| - 1] == parts[..|parts| - 1][1..];
      if |parts| > 2 {
        assert Join(parts[..|parts| - 1], sep) ==
               parts[0] + sep + Join(parts[..|parts| - 1][1..], sep);
      } else {
        assert parts[..1] == [parts[0]];
      }
    }
  }

  /** What `connect` reports after the TCP connection is open. */
  datatype ConnectOutcome = Authenticated | AuthRejected(message: String) | ConnectLost

  /** The effect of `connect` on the socket model: one `recv` that discards
      the greeting, `auth apikey=...`, then the check. */
  function ConnectSpec(inbox: seq<Recv>): (ConnectOutcome, Exchange) {
    var x := RecvSpec([], if inbox == [] then [] else inbox[1..]);
    var outcome :=
      if x.closed then ConnectLost
      else if AuthAccepted(Join(x.lines, "\n")) then Authenticated
      else AuthRejected("Auth fallida: " + Strip(Join(x.lines, "\n")));
    (outcome, x)
  }

  /** A connection to the ClientQuery port. */
  class Connection {
    /** `_buf`: received text not yet returned by `read_line`. */
    var buf: String
    /** The outcomes of the socket's future `recv` calls. */
    var inbox: seq<Recv>
    /** The command lines written to the socket. */
    var sent: seq<String>

    constructor (incoming: seq<Recv>)
      ensures buf == [] && inbox == incoming && sent == []
    {
      buf, inbox, sent := [], incoming, [];
    }

    /** `read_line`. */
    method ReadLine() returns (r: ReadOutcome)
      modifies this
      ensures ReadResult(r, buf, inbox) == ReadLineSpec(old(buf), old(inbox))
      ensures sent == old(sent)
    {
      while true
        invariant ReadLineSpec(buf, inbox) == ReadLineSpec(old(buf), old(inbox))
        invariant sent == old(sent)
        decreases |inbox|, |buf|
      {
        if '\n' in buf {
          var i := Find(buf, '\n');
          var line := Strip(buf[..i]);
          ReadLineCut(buf, inbox);
          buf := buf[i + 1..];
          if line != [] {
            return Line(line);
          }
        } else if inbox == [] {
          return NoData;
        } else {
          var c := inbox[0];
          inbox := inbox[1..];
          match c
          case Timeout =>
            return NoData;
          case Data(chunk) =>
            if chunk == [] {
              return Closed;
            }
            buf := buf + chunk;
        }
      }
    }

    /** `_recv_until_ok`. */
    method RecvUntilOk() returns (reply: Reply)
      modifies this
      ensures var x := RecvSpec(old(buf), old(inbox));
              reply == ReplyOf(x) && buf == x.buf && inbox == x.inbox
      ensures sent == old(sent)
    {
      var lines: seq<String> := [];
      ghost var notes: seq<String> := [];
      var local: String := [];
      while true
        invariant '\n' !in local
        invariant RecvLoop(buf, inbox, lines, notes, local) == RecvSpec(old(buf), old(inbox))
        invariant sent == old(sent)
        decreases |inbox|
      {
        if inbox == [] {
          return Answer(Join(lines, "\n"));
        }
        var c := inbox[0];
        inbox := inbox[1..];
        if c.Timeout? {
          return Answer(Join(lines, "\n"));
        }
        if c.chunk == [] {
          return Broken;
        }
        local := local + c.chunk;
        ghost var pending := inbox;
        while '\n' in local
          invariant Drain(buf, inbox, lines, notes, local) == RecvSpec(old(buf), old(inbox))
          invariant inbox == pending
          invariant sent == old(sent)
          decreases |local|
        {
          var i := Find(local, '\n');
          var line := Strip(local[..i]);
          local := local[i + 1..];
          if line == [] {
            continue;
          }
          if StartsWith(line, "notify") {
            buf := line + "\n" + buf;
            notes := notes + [line];
            continue;
          }
          lines := lines + [line];
          if StartsWith(line, "error id=") {
            return Answer(Join(lines, "\n"));
          }
        }
      }
    }

    /** `_cmd`: write the command line, then collect its reply. */
    method Command(command: String) returns (reply: Reply)
      modifies this
      ensures var x := RecvSpec(old(buf), old(inbox));
              reply == ReplyOf(x) && buf == x.buf && inbox == x.inbox
      ensures sent == old(sent) + [command + "\n"]
    {
      sent := sent + [command + "\n"];
      reply := RecvUntilOk();
    }

    /** `connect`, from the point where the TCP connection is open. */
    method Connect(apiKey: String) returns (outcome: ConnectOutcome)
      modifies this
      ensures var (o, x) := ConnectSpec(old(inbox));
              outcome == o && buf == x.buf && inbox == x.inbox
      ensures sent == old(sent) + ["auth apikey=" + apiKey + "\n"]
    {
      buf := [];
      if inbox != [] {
        inbox := inbox[1..];
      }
      var reply := Command("auth apikey=" + apiKey);
      if reply.Broken? {
        return ConnectLost;
      }
      if !AuthAccepted(reply.text) {
        return AuthRejected("Auth fallida: " + Strip(reply.text));
      }
      return Authenticated;
    }
  }
}
