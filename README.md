# TeamSpeak 3 overlay: ClientQuery client, channel state and event engine

This project models the core of `overlay_dp.py`, a desktop overlay for TeamSpeak 3, and proves properties of the model. The overlay connects to the local ClientQuery port, authenticates with an API key and bootstraps the roster of its own channel. It then follows the server's `notify…` events to keep that roster current and emits Qt signals for the view.

Modules:

- `Text` (text.dfy): the Python string operations the source relies on: `strip`, `split()`, `split(sep)`, `join`, `splitlines`, `startswith`, `in` and `replace`.
- `Codec` (codec.dfy): `TS3Connection.unescape` and `TS3Connection.parse`. It also holds `Escape`, an independent reference encoder of the five ClientQuery escapes, which `unescape` is compared against.
- `Transport` (transport.dfy): the class `Connection` with its line buffer `_buf`.
  - Methods: `read_line`, `_recv_until_ok`, `_cmd` and the authentication step of `connect`.
  - The socket is a sequence of `recv` outcomes, each a chunk or a timeout.
  - Every method is proved equal to a function of the old state. Lemmas about those functions cover line framing, how notifications are set aside during a command, and the authentication check.
- `Replies` (replies.dfy): the reply extractors `whoami`, `clientlist_voice_info`, `clientinfo`, `channel_name`, `server_name` and `channelgrouplist`, as functions of the reply text.
- `Store` (store.dfy): `ChannelState` as a class whose methods update its fields. The record maps it manipulates are specified by functions on maps.
- `Reconcile` (reconcile.dfy): the rules of `TS3EventThread` as functions of a world value. The world is:
  - the channel state;
  - the nickname cache `_nc`;
  - the signals emitted so far;
  - the replies the server will give to the engine's queries;
  - the clients the whispers window lists.

  The functions cover `_name`, `_init`, every handler, `_handle`, `_loop` and the backoff of `run`.
- `ReconcileLemmas` (reconcile_lemmas.dfy): what the engine promises.
  - The roster invariant: one record per client id, each record in my channel. `_init` establishes it, and every handler and the reading loop preserve it.
  - The exact effect of each handler on the roster, the cache and the signals.
  - The order in which `_name` resolves a name.
  - The reading loop's limits.
  - The backoff sequence.
- `Engine` (engine.dfy): the class `EventThread`. It holds the state object, `_nc`, the emitted signals, the pending replies and `_delay`. Each method of the thread, including the `while` loops of `_name` and `_loop`, is proved to have exactly the effect of a `Reconcile` function: the one of the same name, `Ask` for `Query`, and for `Run` the functions `Waits`, `FinalDelay` and `RunEvents` of its sessions. The lemmas of `ReconcileLemmas` therefore hold of the methods.
- `Hotkeys` (hotkeys.dfy): `HotkeyManager._fmt`, the spelling of a hotkey setting for the keyboard listener.

Three behaviours of the code that a reader might not expect:

- **`unescape` is not the inverse of escaping.**
  - It applies five `replace` calls in a fixed order, with `\\` last.
  - An escaped backslash followed by `s` (`\\s` on the wire) therefore decodes to a backslash and a space, not to `\s`.
  - The round trip holds exactly for values without a backslash. `Codec.RoundTripNoBackslash` proves it; `Codec.RoundTripFails` shows the counterexample.
- **The backoff resets on connect.** The delay goes back to 2 s as soon as `connect` returns (line 1831), whether or not the session then reaches the reading loop.
- **The stale-connection check never fires.**
  - `_loop` sets `consecutive_empty` to 0 after every `read_line` that returns (line 1872), before testing for an empty line.
  - So the counter is at most 1 when it is compared with 30 (line 1884), and a run of empty reads never raises.
  - `ReconcileLemmas.NeverStale` proves this. The loop of `Engine.EventThread.Loop` marks that branch as unreachable.
  - Only the `> 10` limit on consecutive read faults takes effect.

## Model

| member | source | states |
|---|---|---|
| Text.WordsStrip | overlay_dp.py:376 | `strip().split()` gives the same tokens as `split()` alone, so `parse` sees the whitespace-separated words of the record |
| Text.SplitJoin | overlay_dp.py:2036 | splitting a join of separator-free parts gives back the parts |
| Text.JoinSplit | overlay_dp.py:2036 | joining the parts of a split with the separator gives back the string |
| Text.ReplaceAllAbsent | overlay_dp.py:369-371 | `replace` of a pattern that does not occur anywhere in the string leaves the string unchanged |
| Text.ReplaceAllLength | overlay_dp.py:369-371 | replacing a two-character escape by one character never lengthens the string |
| Codec.UnescapePlain | overlay_dp.py:369-371 | a value without a backslash decodes to itself |
| Codec.UnescapeLength | overlay_dp.py:369-371 | decoding never lengthens a value, and a non-empty value stays non-empty |
| Codec.RoundTripNoBackslash | overlay_dp.py:369-371 | for every value without a backslash, decoding its escaped form gives the value back |
| Codec.RoundTripFails | overlay_dp.py:369-371 | the value `\s` escapes to `\\s` and decodes to `\` followed by a space, so the round trip fails for it |
| Codec.ParseTokensKeys | overlay_dp.py:374-379 | a key is in the parsed map exactly when some token has `=` and that key before its first `=` |
| Codec.ParseTokensLast | overlay_dp.py:374-379 | a key maps to the unescaped text after the first `=` of its last binding token |
| Codec.ParseBindings | overlay_dp.py:374-379 | `parse` binds exactly the keys of the record's tokens that contain `=`; tokens without `=` are ignored |
| Codec.ParseLastWins | overlay_dp.py:374-379 | when a key is bound twice, the later token's value wins, decoded by `unescape` |
| Codec.ParseOneToken | overlay_dp.py:374-379 | a single token `k=v` parses to the one binding of `k` to the decoded `v` |
| Transport.ReadLineSpec | overlay_dp.py:327-341 | a line `read_line` returns is non-empty and has no line feed; it never raises anything but `ConnectionError`; it only consumes socket outcomes |
| Transport.ReadLineBuffered | overlay_dp.py:330-334 | blank lines in the buffer are skipped; the first non-blank line is returned stripped, without touching the socket, and the rest stays buffered |
| Transport.ReadLineAt | overlay_dp.py:330-334 | with a line feed in the buffer, the text before it is returned stripped if non-blank, and otherwise reading goes on after it |
| Transport.ReadLineTimeout | overlay_dp.py:335-341 | with no complete line buffered and the socket timing out, `read_line` returns `None` and keeps the buffer |
| Transport.ReadLineClosed | overlay_dp.py:337-338 | an empty chunk raises `ConnectionError` |
| Transport.RecvShape | overlay_dp.py:343-360 | the shape of an exchange: every reply line is stripped, non-empty and not a notification; the reply is complete exactly when its last line starts with `error id=`; every notification met is put in front of `_buf`; socket outcomes are only consumed |
| Transport.RecvDemux | overlay_dp.py:343-360 | however the received text is cut into chunks, the reply is its stripped non-blank non-`notify` lines up to and including the first `error id=` line, the notifications are the `notify` lines before that line, in arrival order and pushed in front of `_buf`, and the socket counts as closed exactly when it closes before a terminator |
| Transport.NotesReadBackLatestFirst | overlay_dp.py:356-357 | notifications set aside during a command come back from `read_line` latest first, each stripped and whole |
| Transport.Interleaved | overlay_dp.py:343-360 | a chunk of reply, notification, reply and terminator yields the two reply lines and the terminator, and leaves the notification buffered; later chunks stay unread |
| Transport.AuthAcceptsSuccess | overlay_dp.py:317-318 | a reply whose terminator reads `error id=0` passes the authentication check |
| Transport.Connection.constructor | overlay_dp.py:309-313 | a new connection has an empty line buffer and nothing sent |
| Transport.Connection.ReadLine | overlay_dp.py:327-341 | the outcome, the new buffer and the remaining socket outcomes are those `ReadLineSpec` gives; nothing is sent |
| Transport.Connection.RecvUntilOk | overlay_dp.py:343-360 | the reply, the new buffer and the remaining socket outcomes are those `RecvSpec` gives, and a closed socket gives `ConnectionError` |
| Transport.Connection.Command | overlay_dp.py:362-366 | sends the command and a line feed, then answers as `RecvUntilOk` does |
| Transport.Connection.Connect | overlay_dp.py:309-319 | drops the greeting, sends `auth apikey=…` and ends authenticated, rejected with `Auth fallida: <reply>`, or lost, as `ConnectSpec` decides from the reply |
| Replies.FirstWhere | overlay_dp.py:383-386 | the index found is the first whose line matches, and none found means no line matches |
| Replies.WhoamiPicksFirst | overlay_dp.py:381-386 | `whoami` parses the first line mentioning `clid=` that is not a status line, and gives `{}` when there is none |
| Replies.ClientInfoPicksFirst | overlay_dp.py:397-402 | `clientinfo` parses the first line mentioning `client_nickname=` that is not a status line, and gives `{}` when there is none |
| Replies.ServerNamePicksFirst | overlay_dp.py:413-418 | `server_name` is the `virtualserver_name` of the first line starting with it, and `""` when there is none |
| Replies.ChannelNamePicksFirst | overlay_dp.py:404-411 | `channel_name` is the name in the first channel entry whose `cid` matches, and `""` when none does |
| Replies.ClientRecords | overlay_dp.py:391-394 | never more records than entries |
| Replies.ClientRecordsEvery | overlay_dp.py:391-394 | when every entry's stripped text mentions `clid=`, there is exactly one record per entry |
| Replies.RecordOf | overlay_dp.py:393-394 | an entry gives at most one record, and gives one exactly when its stripped text mentions `clid=` |
| Replies.ClientRecordsOne | overlay_dp.py:393-394 | the record of one entry is its stripped text, parsed, when that text mentions `clid=`; otherwise there is none |
| Replies.ClientRecordsAppend | overlay_dp.py:392-394 | the records of two runs of entries are those of the first run followed by those of the second, so the records keep the entries' order |
| Replies.ClientListOne | overlay_dp.py:390-394 | a line contributes the records of its `\|`-separated entries when it mentions `clid=` and is not a status line, and none otherwise |
| Replies.ClientListAppend | overlay_dp.py:390-395 | the records of a reply are those of its lines, in line order |
| Replies.EntriesOf | overlay_dp.py:390-394 | every `\|`-separated entry of a matching line is considered |
| Replies.EntriesFrom | overlay_dp.py:390-394 | every entry considered comes from a matching line |
| Replies.GroupNamesKeys | overlay_dp.py:420-430 | a group id is present exactly when some entry has that non-empty `cgid` |
| Replies.GroupNamesLast | overlay_dp.py:428 | a group id maps to the `name` of its last entry, or `""` when that entry has none |
| Replies.StatusLineIgnored | overlay_dp.py:383-428 | appending the `error id=…` status line changes no extractor's result |
| Replies.StatusOnly | overlay_dp.py:381-430 | a reply of status lines alone gives `{}`, `[]` or `""` from every extractor |
| Store.KeyByClid | overlay_dp.py:459-461 | every record is filed under its own `clid` |
| Store.KeyByClidKeys | overlay_dp.py:459-461 | the ids tracked after `set_clients` are exactly the `clid`s of the given records |
| Store.KeyByClidLast | overlay_dp.py:459-461 | of two records with the same `clid`, the later one is kept |
| Store.KeyByClidValues | overlay_dp.py:459-461 | every tracked record is one of the given records |
| Store.Upserted | overlay_dp.py:463-466 | `upsert` merges the new fields into an existing record and keeps its other fields; an unknown id gets the data as its record; other clients are unchanged |
| Store.Removed | overlay_dp.py:468-469 | `remove` drops exactly that id, and removing an unknown id changes nothing |
| Store.SetFlag | overlay_dp.py:471-479 | the flag of a tracked client is set to `"1"` or `"0"` and its other fields are kept; an untracked id changes nothing |
| Store.InChannel | overlay_dp.py:1859 | the kept records are exactly those of the listing whose `cid` is the channel's, and nothing else |
| Store.InChannelOne | overlay_dp.py:1859 | one record is kept exactly when its `cid` is the channel's |
| Store.InChannelAppend | overlay_dp.py:1859 | the selection keeps the listing's order and duplicates: the kept records of two runs are those of the first followed by those of the second |
| Store.TrackedInChannel | overlay_dp.py:1859 | after filtering and keying, every tracked record is in the channel |
| Store.ChannelState.constructor | overlay_dp.py:441-444 | a new state has empty ids and names and no clients or groups |
| Store.ChannelState.SetGroupNames | overlay_dp.py:451-452 | only the group names change |
| Store.ChannelState.SetMe | overlay_dp.py:454-457 | ids and names are set, the clients are cleared, and the group names are kept |
| Store.ChannelState.SetClients | overlay_dp.py:459-461 | the clients become the listing keyed by `clid`; nothing else changes |
| Store.ChannelState.Upsert | overlay_dp.py:463-466 | only the clients change, as `Upserted` says |
| Store.ChannelState.Remove | overlay_dp.py:468-469 | only the clients change, as `Removed` says |
| Store.ChannelState.SetTalking | overlay_dp.py:471-474 | only `client_flag_talking` of that client changes |
| Store.ChannelState.SetWhisperTalking | overlay_dp.py:476-479 | only `client_flag_whisper` of that client changes |
| Reconcile.FirstUsable | overlay_dp.py:1786-1789 | the name taken is the value of the first field whose value is not `""`, `?` or `0`; none is taken exactly when every field is such a placeholder |
| Reconcile.ListName | overlay_dp.py:1813-1818 | the name is the unescaped nickname of the first listed record with that `clid` whose nickname is neither empty nor `?`; none is found exactly when no record qualifies |
| Reconcile.NickCache | overlay_dp.py:1860 | the cache holds an entry for every listed client with a `clid`, and it is the `client_nickname` (or `?`) of the last listed record with that `clid` |
| Reconcile.Allowed | overlay_dp.py:1940 | only the four fields a `notifyclientupdated` may change are taken from the event, with their values |
| Reconcile.Waits | overlay_dp.py:1843-1846 | one wait per connection attempt |
| Reconcile.RunEvents | overlay_dp.py:1837-1842 | two signals per failed session |
| ReconcileLemmas.RunEventsAt | overlay_dp.py:1837-1842 | after the `i`-th session, `run` emits that session's error and then `Reconectando…` |
| ReconcileLemmas.InfoAttemptsFrame | overlay_dp.py:1798-1810 | the `clientinfo` attempts use at most four replies and change nothing but the cache; a name they return is non-empty and cached |
| ReconcileLemmas.ListFallbackFrame | overlay_dp.py:1811-1823 | after the `clientinfo` attempts, the listing fallback uses at most one reply and changes nothing but the cache entry of that client; it returns a non-empty name that is cached, or the `Usuario-<last 4>` placeholder |
| ReconcileLemmas.ListFallbackOrder | overlay_dp.py:1811-1823 | the first listed record naming the client under a usable nickname gives the name, which is cached; failing that, or on a closed socket, a cached name that is neither empty nor `?` is returned; otherwise `Usuario-<last 4>`; the last two change nothing |
| ReconcileLemmas.NameKeeps | overlay_dp.py:1785-1823 | `_name` returns a non-empty name and changes only the cache and the pending replies |
| ReconcileLemmas.NameFrame | overlay_dp.py:1785-1823 | `_name` always returns a non-empty name, uses at most five replies, changes nothing but the cache entry of that client, and either caches the name or returns the `Usuario-<last 4>` placeholder |
| ReconcileLemmas.NameOrder | overlay_dp.py:1786-1796 | a usable name on the event wins and is cached; failing that, a usable cached name is returned without a query; without an id the name is `Desconocido` |
| ReconcileLemmas.NameAsksClientInfo | overlay_dp.py:1798-1807 | otherwise the first `clientinfo` reply with a usable nickname gives the name, which is cached |
| ReconcileLemmas.AdmitEffect | overlay_dp.py:1959-1964 | a joining client gets a record with its ids and a nickname, its name is cached and `notify_join` is emitted; other records are unchanged; a closed socket changes nothing in the state |
| ReconcileLemmas.TalkFlags | overlay_dp.py:1903-1914 | the talk flag is set; the whisper flag follows a whisper and is cleared when talking otherwise; nothing else in the roster changes |
| ReconcileLemmas.TalkSignals | overlay_dp.py:1915-1935 | a snapshot is pushed; a whisper emits `whisper_talk`, preceded by a message and a notification when a whisper starts from a sender the window does not list |
| ReconcileLemmas.UpdMerge | overlay_dp.py:1937-1941 | an update for an untracked client, or one without allowed fields, changes nothing; otherwise exactly the allowed fields are merged and a snapshot is pushed |
| ReconcileLemmas.EnterEffect | overlay_dp.py:1973-1985 | an entry into another channel, or of a tracked client, changes nothing; otherwise the client is added to my channel, `notify_join` and a snapshot follow |
| ReconcileLemmas.EnterIdempotent | overlay_dp.py:1975-1979 | a second `notifycliententerview` for the same client changes nothing |
| ReconcileLemmas.LeftEffect | overlay_dp.py:1987-1994 | `whisper_leave` is always emitted; a tracked client is removed, then `notify_leave` and a snapshot follow |
| ReconcileLemmas.MoveOut | overlay_dp.py:1965-1971 | a tracked client moving out is removed, with `notify_leave`, `notify_moved`, `whisper_leave` and a snapshot |
| ReconcileLemmas.MoveIn | overlay_dp.py:1958-1964 | an untracked client moving into my channel is handled exactly as an entry |
| ReconcileLemmas.MoveOther | overlay_dp.py:1946-1971 | a move without a `clid` changes nothing; a move that changes no membership only pushes a snapshot |
| ReconcileLemmas.MovedMyself | overlay_dp.py:1948-1956 | when I move, my channel becomes the target; the roster is rebuilt consistent; an emptied snapshot, `channel_changed` and the new snapshot follow |
| ReconcileLemmas.MoveSelfEffect | overlay_dp.py:1949-1956 | the rebuilding queries keep my id and the group names and end with a consistent roster and those three signals |
| ReconcileLemmas.MsgEffect | overlay_dp.py:1996-2004 | my own messages and other target modes emit nothing; private and channel messages emit a message and a notification; the state never changes |
| ReconcileLemmas.WhisperEffect | overlay_dp.py:2006-2015 | a whisper emits a message and a notification with a non-empty sender, preferring the given name, and caches the sender under the whisperer's id |
| ReconcileLemmas.HandleDispatch | overlay_dp.py:1891-1901 | a line that is not a notification changes nothing; `notifyconnectstatuschange` raises `TS3 desconectado` exactly when the status is `disconnected` |
| ReconcileLemmas.TalkConsistent | overlay_dp.py:1903-1915 | a talk event keeps the roster invariant |
| ReconcileLemmas.UpdConsistent | overlay_dp.py:1937-1941 | an update keeps the roster invariant |
| ReconcileLemmas.EnterConsistent | overlay_dp.py:1973-1985 | an entry keeps the roster invariant |
| ReconcileLemmas.AdmitConsistent | overlay_dp.py:1959-1964 | admitting a client into my channel keeps the roster invariant |
| ReconcileLemmas.LeftConsistent | overlay_dp.py:1987-1994 | a departure keeps the roster invariant |
| ReconcileLemmas.UpsertKeeps | overlay_dp.py:463-466 | merging fields other than `clid` and `cid` into a tracked record keeps the roster invariant |
| ReconcileLemmas.MoveConsistent | overlay_dp.py:1943-1971 | a move keeps the roster invariant |
| ReconcileLemmas.HandleConsistent | overlay_dp.py:1891-1901 | every event, even one ended by an exception, keeps the roster invariant |
| ReconcileLemmas.HandleErrors | overlay_dp.py:1891-1901 | the only exceptions a handler raises are the closed socket and `TS3 desconectado` |
| ReconcileLemmas.AdmitErrors | overlay_dp.py:1959-1964 | admitting a client raises nothing but the closed socket |
| ReconcileLemmas.EnterErrors | overlay_dp.py:1973-1985 | an entry raises nothing but the closed socket |
| ReconcileLemmas.MoveErrors | overlay_dp.py:1943-1971 | a move raises nothing but the closed socket |
| ReconcileLemmas.MoveSelfErrors | overlay_dp.py:1948-1956 | rebuilding after my own move raises nothing but the closed socket |
| ReconcileLemmas.TrackedAreCached | overlay_dp.py:1858-1860 | every tracked client has a cached nickname after a listing |
| ReconcileLemmas.InitEffect | overlay_dp.py:1849-1860 | a bootstrap sets a non-empty channel id, a consistent roster and a cache covering it, and emits nothing; it fails only for a closed socket, an empty `whoami` or no channel |
| ReconcileLemmas.InitChannelEffect | overlay_dp.py:1854-1860 | once my ids are known, the bootstrap ends in my channel with a consistent roster, or with a closed socket |
| ReconcileLemmas.InitRosterEffect | overlay_dp.py:1858-1860 | the roster is replaced by the listing's clients of my channel and the cache is reseeded; a closed socket leaves the state as it was |
| ReconcileLemmas.LoopConsistent | overlay_dp.py:1866-1889 | the reading loop keeps the roster invariant, whatever it reads and however it ends |
| ReconcileLemmas.SessionConsistent | overlay_dp.py:1832-1833 | a bootstrapped session keeps a consistent roster for its whole reading loop |
| ReconcileLemmas.EmptyRun | overlay_dp.py:1871-1886 | any number of empty reads leaves the loop as after one |
| ReconcileLemmas.NeverStale | overlay_dp.py:1868-1889 | from any counter value, no feed of reads without a fault carrying the stale-connection text itself ends in the stale-connection error |
| ReconcileLemmas.FaultRun | overlay_dp.py:1876-1881 | up to ten consecutive read faults are tolerated and counted |
| ReconcileLemmas.ElevenFaults | overlay_dp.py:1880 | the eleventh consecutive read fault is re-raised |
| ReconcileLemmas.FailuresFrom | overlay_dp.py:1843-1846 | without a successful connect, each wait doubles the previous one until the cap of 30 |
| ReconcileLemmas.Failures | overlay_dp.py:1843-1846 | failed attempts from the start wait 2, 4, 8, 16, then 30 seconds each time |
| ReconcileLemmas.ResetAfterConnect | overlay_dp.py:1831 | a successful connect makes the wait after that session 2 seconds, and the next failure's 4 |
| ReconcileLemmas.WaitsBounded | overlay_dp.py:1843-1846 | every wait stays between 2 and 30 seconds |
| Engine.EventThread.constructor | overlay_dp.py:1776-1779 | a new thread starts with an empty cache, no signals and a delay of 2 |
| Engine.EventThread.Query | overlay_dp.py:362-366 | a query takes the next reply and changes nothing else |
| Engine.EventThread.Push | overlay_dp.py:2017-2019 | emits `update_users` with the state's snapshot |
| Engine.EventThread.Name | overlay_dp.py:1785-1823 | the method, with its loop of four `clientinfo` attempts, has exactly the effect of `Reconcile.Name` |
| Engine.EventThread.InfoAttempts | overlay_dp.py:1798-1809 | the loop of four `clientinfo` attempts has exactly the effect of `Reconcile.InfoAttempts` |
| Engine.EventThread.ListFallback | overlay_dp.py:1811-1823 | has exactly the effect of `Reconcile.ListFallback`, whose value `ReconcileLemmas.ListFallbackOrder` states |
| Engine.EventThread.Init | overlay_dp.py:1849-1860 | has exactly the effect of `Reconcile.Init`, raising what it raises |
| Engine.EventThread.InitChannel | overlay_dp.py:1854-1860 | has exactly the effect of `Reconcile.InitChannel` |
| Engine.EventThread.OnTalk | overlay_dp.py:1903-1935 | has exactly the effect of `Reconcile.OnTalk` |
| Engine.EventThread.OnUpd | overlay_dp.py:1937-1941 | has exactly the effect of `Reconcile.OnUpd` |
| Engine.EventThread.Admit | overlay_dp.py:1959-1964 | has exactly the effect of `Reconcile.Admit` |
| Engine.EventThread.OnMove | overlay_dp.py:1943-1971 | has exactly the effect of `Reconcile.OnMove` |
| Engine.EventThread.MoveSelf | overlay_dp.py:1948-1956 | has exactly the effect of `Reconcile.MoveSelf` |
| Engine.EventThread.OnEnter | overlay_dp.py:1973-1985 | has exactly the effect of `Reconcile.OnEnter` |
| Engine.EventThread.OnLeft | overlay_dp.py:1987-1994 | has exactly the effect of `Reconcile.OnLeft` |
| Engine.EventThread.OnMsg | overlay_dp.py:1996-2004 | has exactly the effect of `Reconcile.OnMsg` |
| Engine.EventThread.OnWhisper | overlay_dp.py:2006-2015 | has exactly the effect of `Reconcile.OnWhisper` |
| Engine.EventThread.WhisperSender | overlay_dp.py:2008-2013 | the sender's name is chosen and cached exactly as `Reconcile.WhisperSender` does |
| Engine.EventThread.Handle | overlay_dp.py:1891-1901 | has exactly the effect of `Reconcile.Handle` |
| Engine.EventThread.Loop | overlay_dp.py:1866-1889 | the `while` loop with its `consecutive_empty` counter has exactly the effect of `Reconcile.Loop` |
| Engine.EventThread.Run | overlay_dp.py:1825-1847 | the waits are `Waits` of the attempts, `_delay` ends at `FinalDelay`, and each session's error and `Reconectando…` are emitted; because each session is abstracted to its outcome, the method leaves the cache and the pending replies alone, which the source's `_init` does not |
| Engine.BackoffStep | overlay_dp.py:1840-1846 | one pass of `run`'s loop adds one wait and two signals and doubles the delay, capped at 30 |
| Hotkeys.WrapPart | overlay_dp.py:2036 | every part of a combination starts with `<`, and no `+` is added |
| Hotkeys.FmtShape | overlay_dp.py:2032-2037 | only an empty setting gives an empty spelling, and every other spelling starts with `<` |
| Hotkeys.FmtParts | overlay_dp.py:2035-2036 | a combination's parts are the setting's parts, each bracketed unless it already starts with `<` |
| Hotkeys.FmtIdempotent | overlay_dp.py:2032-2037 | formatting a formatted hotkey changes nothing |
| Hotkeys.CombinationStable | overlay_dp.py:2034-2036 | the spelling of a combination is kept as it is when formatted again |

## Left out

- The Qt user interface, windows, tray icon, Win32 calls, configuration and log files, the `pynput` listener and `_pulse`. These are presentation and operating-system code.
- Signals are recorded as an ordered list of values. Delivery to the main thread is not modelled.
- Socket calls and clocks.
  - A `recv` timeout stands for the caller's deadline having passed, and the end of the modelled socket stands for a timeout.
  - A deadline that expires between two received chunks is not modelled.
  - `settimeout`, `setblocking` and the 8 s connect timeout are not modelled.
- Bytes are decoded as characters. UTF-8 decoding with replacement characters is not modelled.
- The engine's query replies and its `read_line` outcomes are two separate scripted inputs. In the source they share one socket and one line buffer; `Transport` models that sharing for a single connection.
- `self._conn` being `None` while `_name` runs is not modelled. The handlers only run inside a session, where it is set.
- Locks (`_lock`, `_cmd_lock`) and the stop event. Stopping is modelled as the end of the reading loop's input. The `_stop` checks that turn an exception into a silent return are not modelled.
- The `_res` thread of `_on_talk`, which looks up a whisperer's name in the background, runs concurrently and is not modelled.
- The dismissal of the whispers window at the end of `_init` (lines 1862-1864) is a queued UI call and is not modelled.
- The sleeps in `_name` and `run`. `run` is modelled by the waits it chooses.
- `subscribe_events` and `disconnect` are not modelled. Their replies are only logged, and they change no state the model tracks.
- Engine.EventThread.Run: each session is abstracted to whether `connect` returned and the error that ended it. The model does not run bootstrap and reading inside `run`; `SessionConsistent` relates them. In the source each session's `_init` reseeds `_nc` and consumes query replies; the modelled `Run` leaves both alone.
- Store.ChannelState.Snap: the snapshot's client list is modelled as the client map. Python's insertion order and the sharing of the record dictionaries between the snapshot and the state are not modelled.
