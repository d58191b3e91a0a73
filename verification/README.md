# Verified models of APE Server's core and of the c-ares it carries

Dafny models of the parts of APE Server, and of its bundled c-ares resolver, where state and arithmetic are
hardest to follow, with proofs that hold for every input, every run and every environment. `dafny verify dfyconfig.toml`
checks the whole project.

Code that updates structures in place is modelled by classes, methods and loops over the same fields (`ResolverChannel`,
`LinkedLists`, `TcpInput`, `NameSearch`, `HostLookup`, `AddressSort`, `JsonParser`, `JsonItems`, `TimerQueue`,
`PacketPool`, `PlainSocket`, `HttpParser`, `Sha1Stream`, and the loops of `WireNames`, `NameEncoder`, `Inet6`,
`Inet6Parse`, `Base64`). Each method is proved equal to a function on values, and the promises are proved of the
functions, as lemmas over all their inputs.

- **The query engine** (`QueryEngine`, `QuerySteps`, `QueryMoves`, `QueryRuns`, `QueryTimeouts`, `QueryHistory`,
  `QueryStreams`, `QueryTheorems`, `QueryReports`, `QueryAnswers`, `QuerySetbacks`, `QuerySockets`,
  `ResolverChannel`). A channel with its four families of query lists, its servers with
  send queues and connection numbers, and a log of what happened. A run is any sequence of API calls and network events;
  whether a socket opens, memory is there, a datagram leaves or two packets ask the same question is read from an
  environment over which every statement quantifies. Every routine is taken apart into small moves; a property that each
  move keeps holds in every state of every run (`QueryRuns.RunKeeps`).
- **Reading from TCP** (`TcpInput`), what it says to the engine (`TcpAnswers`), and **the intrusive lists** (`LinkedLists`).
- **Names on the wire** (`WireNames`, `NameEncoder`, `NameTexts`), in the format of section 3.1 of RFC 1035: the two passes over
  a compressed name, the encoder, how they undo each other, and what their texts and bytes stand for.
- **Lookups** (`NameSearch`, `HostLookup`, `HostReport`, `AddressSort`): the search order and its single report, the host
  lookup on top of it and what it tells, and the sorting of addresses.
- **IPv6 text** (`Inet6`, `Inet6Parse`, `Inet6Texts`, `Inet6Failures`): printing and parsing, sections 2.2 and 2.3 of RFC 4291,
  and two ways the parser fails.
- **JSON** (`JsonTable`, `JsonMachine`, `JsonGrammar`, `JsonReading`, `JsonContainers`, `JsonAccepts`, `JsonStandard`, `JsonTree`,
  `JsonStrings`, `JsonInvariant`, `JsonItems`, `JsonParser`): the table-driven parser against a recursive grammar, that grammar against
  standard JSON (RFC 8259), and the tree builder against the value of the text and the code points of its strings.
- **Timers** (`TickTimers`, `TimerQueue`): the list of deltas against absolute due ticks.
- **Socket writes** (`SocketQueue`, `PacketPool`, `PlainSocket`): what has been sent and what waits, over a recycled pool.
- **HTTP requests** (`HttpTable`, `HttpParser`, `HttpRequest`, `HttpLength`): the order of callbacks, what the head of a request
  reports, the length announced and the length of bodies.
- **SHA-1 and base64** (`Sha1Stream`, `Base64`): streaming, padding, bit accumulators.

## Where the code does less than it promises

The models follow the code. Where it falls short of what it is for, one lemma gives the exact condition and another an
input.

- `process_timeouts` saves the next list node before it re-inserts a query, so with a timeout of 0 or 1 ms a query can stay
  overdue: `QueryTheorems.NoneOverdueIff`, and the run in `QueryTheorems.OverdueLeft`.
- `ares_cancel` with `ARES_FLAG_STAYOPEN` leaves requests in the send queues that point into the queries it frees:
  `QueryStreams.CancelStreams`, and the run in `QueryTheorems.CancelDangles`.
- `ares_mkquery` sizes its buffer one byte short for a name that ends in an escaped dot, and one byte long for ".":
  `NameEncoder.BufferFilled`, and the name `a\.` in `NameEncoder.EscapedDotName`.
- `ares_expand_name` says that a pointer to the root is one byte long, not two: `WireNames.StoredLengthExact`, and the
  message in `WireNames.PointerToTheRoot`.
- `inet_net_pton_ipv6` returns 0, without an error, when a ninth group is ended by a colon that is not the last character:
  `Inet6Failures.ReturnsZeroIff`, and the text in `Inet6Failures.NineGroups`.
- Its shift by hand writes in front of its buffer when more groups stand behind "::" than the prefix length leaves words
  for: `Inet6Failures.OverlongIff`, and the text in `Inet6Failures.TooManyBehind`.
- Timers of period 0 make other timers late: `TickTimers.OnTimeIff`, and the run in `TickTimers.LateRun`; one that is added by
  a callback is lost (`TickTimers.ZeroIsLost`).
- An HTTP body whose length is used up inside an escape sets the ready flag without making the ready callback:
  `HttpParser.ReadyIsSaidIff`, and the request in `HttpParser.ReadyUnsaid`.
- A second Content-Length header goes on with the digits of the first: `HttpLength.LengthIsTheNumberIff`, and the request in
  `HttpLength.SecondLength`.
- The JSON parser refuses some standard texts and accepts some that are not standard, among them "0e1" and "1.":
  `JsonStandard.ParserAgainstStandard` and `JsonStandard.StandardAcceptedIff` say which, and the two texts are in
  `JsonAccepts.ZeroExponent` and `JsonAccepts.PointAlone`. It refuses every byte beyond ASCII
  (`JsonStandard.BeyondAsciiRefused`).

## Model

| member | source | states |
|---|---|---|
| `QueryTheorems.RunLists` | deps/c-ares/ares_process.c:630-814 | In every state of every run each live query is, exactly once, in `all_queries`, in bucket `qid % 2048`, in bucket `timeout.tv_sec % 1024` and in the list of the server it was last sent to; no list holds anything else, and the local list of `handle_error` is empty again. |
| `QueryTheorems.RunAnswersOnce` | deps/c-ares/ares_process.c:682-792 | A query accepted by `ares_send` is at all times either live with no callback made, or finished with exactly one; it makes at most `nservers * tries + 1` send attempts; nothing concerns it after its callback. |
| `QueryTheorems.RunNeverRepeats` | deps/c-ares/ares_process.c:689-773 | Over any run no query is queued twice on the same connection of a server, a server skipped for a query is never tried for it again, and with several servers a live query never waits for a skipped one. |
| `QueryTheorems.RunDates` | deps/c-ares/ares_process.c:794-814 | Under a clock that does not run backwards, in every state of every run each live query is due in the second of the last timeout pass or later. |
| `QueryTheorems.RunTimeouts` | deps/c-ares/ares_process.c:504-533 | With a timeout of at least 2 ms and such a clock, `process_timeouts` leaves no live query overdue, in any state of any run. |
| `QueryTheorems.OverdueLeft` | deps/c-ares/ares_process.c:504-533 | With a timeout of 0 or 1 ms a concrete run of one send and one timeout pass leaves a query overdue: it was re-inserted behind the saved next node. |
| `QueryTheorems.NoneOverdueIff` | deps/c-ares/ares_process.c:504-533 | `process_timeouts` leaves no live query overdue in every run under a clock that does not run backwards if and only if the configured timeout is at least 2 ms. |
| `QueryTheorems.CancelDangles` | deps/c-ares/ares_cancel.c:26-63 | With `ARES_FLAG_STAYOPEN` and TCP, a run of one send reaches a sound state in which `ares_cancel` leaves a send request that points into a query it has freed. |
| `QueryStreams.RunStreams` | deps/c-ares/ares_process.c:207-327 | In every state of every run (without `ares_cancel` under STAYOPEN while a request points into a query): on each unbroken connection the bytes written followed by the bytes queued are the frames queued on it, and each entry owns its bytes or points into a live query. |
| `QueryStreams.SuccessKeepsPendingIff` | deps/c-ares/ares_process.c:1173-1245 | Ending a query successfully, with memory for the copies, leaves the pending bytes of all unbroken connections as they are if and only if sockets stay open, another query is live, or nothing was pending; else the clean-up drops them. |
| `QueryStreams.SuccessKeepsPending` | deps/c-ares/ares_process.c:1181-1234 | The part of it before the clean-up changes no pending byte and breaks no connection. |
| `QueryStreams.CancelStreams` | deps/c-ares/ares_cancel.c:26-63 | After `ares_cancel` the send queues are sound if and only if sockets are closed or no queue entry points into a query. |
| `QueryStreams.AdvancePending` | deps/c-ares/ares_process.c:299-327 | `advance_tcp_send_queue` drops exactly the n bytes that were written from the front of the pending bytes. |
| `QueryStreams.DetachStream` | deps/c-ares/ares_process.c:1181-1230 | What `end_query` makes of a server: entries stay sound, and unless the connection is broken its pending bytes are the same. |
| `QueryStreams.StreamsMove` | deps/c-ares/ares_process.c:207-327 | Every single move of the engine keeps the stream property of all servers. |
| `QueryHistory.RunHistory` | deps/c-ares/ares_process.c:666-773 | The record of every run: silence after a callback, skipped servers respected, strictly newer connections for each queueing, attempts and callbacks counted. |
| `QueryHistory.HistoryMove` | deps/c-ares/ares_process.c:666-773 | Every single move keeps that record, together with the counters it rests on. |
| `QueryReports.RunReports` | deps/c-ares/ares_process.c:578-814 | The record of every run, event by event. A callback tells success with the timeouts recorded; without success it has no answer and tells that the query was cancelled, or that memory for the request of the TCP attempt just made was missing, or a timeout exactly if one was recorded, else a refused connection, and (but in `ares_cancel`) how many timeouts were recorded. Attempts go round the servers one by one. An attempt over TCP is followed by its queueing, the end for want of memory, or the skipping of the server, as its outcome says; a datagram that was not sent is followed by the skipping. No timeout is recorded early. |
| `QueryReports.ToldMove` | deps/c-ares/ares_process.c:578-814 | Every single move keeps that, together with the counters it rests on. |
| `QueryAnswers.RunTells` | deps/c-ares/ares_process.c:536-613 | In every state of every run, for every next step: success is told to a query exactly if the step brings a packet that has the id and the question of this query and of no older live one, is not truncated or over 512 bytes over UDP (unless that is ignored), and has no response code 2, 4 or 5 (unless these are not checked); it is then the only event, and gives that packet, cut at 512 bytes over UDP. Cancelling is told exactly by `ares_cancel`, to all live queries, in order, and nothing else happens. |
| `QueryAnswers.BringsDelivers` | deps/c-ares/ares_process.c:563-574 | The first query of the bucket that a packet fits is the oldest live one that it fits. |
| `QueryAnswers.RunNotices` | deps/c-ares/ares_process.c:504-533 | With a timeout of at least 2 ms and a clock that does not run backwards, `process_timeouts` records a timeout of each query that is late, and leaves every other as it is. |
| `QueryAnswers.RunSends` | deps/c-ares/ares_send.c:41-134 | In every state of every run `ares_send` refuses a packet below 12 or from 65536 bytes, or for want of memory; else the query carries the packet behind its length in two bytes, its first attempt goes to the server in turn, over TCP if asked for or above 512 bytes, and the turn passes on exactly under rotation. |
| `QueryAnswers.StepPackets` | deps/c-ares/ares_send.c:84-94 | No step changes the packet of a query. |
| `QuerySetbacks.RunAnswers` | deps/c-ares/ares_process.c:536-613 | In every state of every run, what a packet does: nothing if it fits no query. Else for the oldest query it fits: one too long for UDP makes the same attempt again over TCP, or nothing if the query is on TCP; a refusal marks the server, and moves the query on if it waits for that server; any other ends it with success. No other query changes. |
| `QuerySetbacks.RunHandlesErrors` | deps/c-ares/ares_process.c:630-664 | In every state of every run an error on a server marks it for each query that waits for it, which ends or goes on to a later attempt, and changes no other query. |
| `QuerySetbacks.RunHandlesBroken` | deps/c-ares/ares_process.c:616-628 | The same for each query that waits for a broken connection; without one, nothing happens. |
| `QuerySetbacks.NextPicks` | deps/c-ares/ares_process.c:682-723 | `next_server` grants the first of the attempts left whose server is not broken, not marked, and over TCP not the connection the query is queued on; without one it ends the query with its error status and no answer. |
| `QuerySockets.RunServed` | deps/c-ares/ares_process.c:725-792 | In every state of every run each live query's server has the socket open that the answer is to come from: TCP or UDP, as the query was sent. |
| `QuerySockets.RunTidy` | deps/c-ares/ares_process.c:1236-1244 | Without STAYOPEN, in every state of every run in which no query is live, every socket is closed, every send queue empty and no connection broken. |
| `QuerySetbacks.RunWrites` | deps/c-ares/ares_process.c:207-327 | In every such run as of `QueryStreams.RunStreams`: a write without room changes nothing, one that fails is an error on the server, and one of n bytes takes exactly these from the front of what is pending. |
| `QueryRuns.StepSound` | deps/c-ares/ares_process.c:161-175 | Every step of the interface or the network leads from a sound channel to a sound one. |
| `QueryRuns.RunKeeps` | deps/c-ares/ares_process.c:161-175 | Induction over runs: what every move keeps, if need be under a demand on the clock or on cancelling, holds after every run that meets the demand. |
| `QueryRuns.BaseMove` | deps/c-ares/ares_process.c:666-814 | Every move keeps: connection numbers positive and never above the channel's counter, no query ahead of its server's connection, a resting query's server not one it must skip. |
| `QueryRuns.DatesKept` | deps/c-ares/ares_process.c:504-533 | Every move made at a time the clock allows keeps resting queries due in the second of the last timeout pass or later. |
| `QueryRuns.CloseGens` | deps/c-ares/ares__close_sockets.c:53-59 | Closing servers never takes a connection number back. |
| `QueryMoves.StepKeeps` | deps/c-ares/ares_process.c:161-175 | Every interface call is a chain of moves, so what every move keeps it keeps. |
| `QueryMoves.SendKeeps` | deps/c-ares/ares_process.c:725-814 | The mutual recursion of `ares__send_query` and `next_server`, as a chain of moves that starts only where a try is allowed. |
| `QueryMoves.TimeoutsDated` | deps/c-ares/ares_process.c:504-533 | After the outer loop every live timeout lies in the current second or later. |
| `QueryEngine.NextSettles` | deps/c-ares/ares_process.c:682-723 | `next_server` terminates and either ends the query or sends it again after at least one more attempt, below the limit; nothing else moves in any list. |
| `QueryEngine.SendSettles` | deps/c-ares/ares_process.c:725-814 | `ares__send_query` does the same, with the attempt kept or raised below the limit. |
| `QueryEngine.SettledLinks` | deps/c-ares/ares_process.c:794-813 | A settled query leaves every list exact again. |
| `QueryEngine.EndSettles` | deps/c-ares/ares_process.c:1173-1245 | `end_query` removes the query from the channel and from every list, and nothing else from them. |
| `QueryEngine.MatchIsFirst` | deps/c-ares/ares_process.c:563-574 | The search of `process_answer` finds the first query of the bucket whose id and question the packet has, and nothing exactly when there is none. |
| `QuerySteps.MoveOn` | deps/c-ares/ares_process.c:650-663 | The loop of `handle_error`: each stolen query was talking to the failed server, and each has left the stolen list at the end - its two asserts. |
| `QuerySteps.HandleError` | deps/c-ares/ares_process.c:630-664 | `handle_error` keeps all lists exact, and its local list ends empty. |
| `QuerySteps.CancelAll` | deps/c-ares/ares_cancel.c:26-53 | `ares_cancel` ends with every list empty, which is what its asserts say. |
| `QuerySteps.Cancel` | deps/c-ares/ares_cancel.c:26-63 | The same after the sockets have been closed. |
| `QuerySteps.TimeoutMove` | deps/c-ares/ares_process.c:520-530 | Handling one overdue query keeps all lists exact, leaves the saved next node in the bucket being walked, and lowers the work that is left - why the walk terminates. |
| `QuerySteps.AdmitSettles` | deps/c-ares/ares_send.c:96-133 | A new query is linked into all lists, and settled. |
| `QueryTimeouts.WalkCleans` | deps/c-ares/ares_process.c:519-531 | The walk of a bucket leaves nothing overdue in it although queries are re-inserted into it, and makes nothing overdue anywhere. |
| `QueryTimeouts.NoneOverdue` | deps/c-ares/ares_process.c:504-533 | The pass as a whole leaves nothing overdue, for a timeout of at least 2 ms. |
| `QueryTimeouts.NoneFromEarlier` | deps/c-ares/ares_process.c:504-533 | Whatever the timeout, nothing is left that was due in an earlier second. |
| `QueryTimeouts.TimePlusPositive` | deps/c-ares/ares_process.c:794-803 | With 2 ms or more, whatever the attempt and the jitter, at least 1 ms is added. |
| `QueryTimeouts.SendDue` | deps/c-ares/ares_process.c:794-803 | A query that `ares__send_query` leaves live is due at `now` plus the time of the attempt it ends up with, with the jitter drawn for that attempt. |
| `QueryTimeouts.NextDue` | deps/c-ares/ares_process.c:682-723 | So is one that `next_server` leaves live. |
| `QueryTimeouts.TimePlusDoubles` | deps/c-ares/ares_process.c:794-803 | The time given to an attempt: 9 to 16 sixteenths of the timeout in the first round of the servers, and twice the time of the round before in each further one, up to rounding. |
| `QueryTimeouts.TimeAdds` | deps/c-ares/ares_process.c:119-131 | The time so many milliseconds later, microseconds below a million. |
| `QueryTimeouts.TimeAddArms` | deps/c-ares/ares_process.c:119-131 | A query armed at `now` is not overdue at `now`, and its second is not before that of `now`. |
| `ResolverChannel.Resolver.constructor` | deps/c-ares/ares_init.c:1615-1636 | A fresh channel: one connection number for each server, empty lists. |
| `ResolverChannel.Resolver.CloseServer` | deps/c-ares/ares__close_sockets.c:27-66 | In place: the queue drained, sockets closed, the generation bumped where a TCP socket was open. |
| `ResolverChannel.Resolver.CloseAll` | deps/c-ares/ares_process.c:1236-1244 | All servers closed, in order. |
| `ResolverChannel.Resolver.SkipFor` | deps/c-ares/ares_process.c:666-680 | Marks the server for the query when there is more than one. |
| `ResolverChannel.Resolver.Detach` | deps/c-ares/ares_process.c:1181-1230 | The pass of `end_query` over one send queue: copies, or voids the entry and breaks the connection. |
| `ResolverChannel.Resolver.End` | deps/c-ares/ares_process.c:1173-1245 | `end_query` in place equals its specification. |
| `ResolverChannel.Resolver.Free` | deps/c-ares/ares_process.c:1247-1261 | `ares__free_query`: unlinked from every list, forgotten. |
| `ResolverChannel.Resolver.SetTimeout` | deps/c-ares/ares_process.c:794-814 | The tail of `ares__send_query`: timeout set, query relinked in the timeout and server lists. |
| `ResolverChannel.Resolver.QueueRequest` | deps/c-ares/ares_process.c:747-773 | The send request appended, with the connection number noted. |
| `ResolverChannel.Resolver.SendTo` | deps/c-ares/ares_process.c:725-814 | `ares__send_query` in place equals the function the theorems are about. |
| `ResolverChannel.Resolver.TryNext` | deps/c-ares/ares_process.c:682-723 | `next_server`'s loop in place equals its specification. |
| `ResolverChannel.Resolver.Fail` | deps/c-ares/ares_process.c:630-664 | `handle_error` in place, with both asserts proved. |
| `ResolverChannel.Resolver.FailBroken` | deps/c-ares/ares_process.c:616-628 | `process_broken_connections`. |
| `ResolverChannel.Resolver.Timeouts` | deps/c-ares/ares_process.c:504-533 | The outer loop of `process_timeouts`. |
| `ResolverChannel.Resolver.WalkBucket` | deps/c-ares/ares_process.c:519-531 | Its inner loop, with the next node saved first. |
| `ResolverChannel.Resolver.Write` | deps/c-ares/ares_process.c:207-296 | `write_tcp_data` for one server, for each result of the write. |
| `ResolverChannel.Resolver.Receive` | deps/c-ares/ares_process.c:536-576 | `process_answer`: the search. |
| `ResolverChannel.Resolver.Accept` | deps/c-ares/ares_process.c:578-613 | `process_answer`: truncation, server errors, success. |
| `ResolverChannel.Resolver.SendNew` | deps/c-ares/ares_send.c:41-134 | `ares_send`: checks, allocation, the query record, first links. |
| `ResolverChannel.Resolver.CancelQueries` | deps/c-ares/ares_cancel.c:26-63 | `ares_cancel`. |
| `ResolverChannel.AdvanceSendQueue` | deps/c-ares/ares_process.c:299-327 | The loop equals the specification for every count that was written. |
| `ResolverChannel.FindQuery` | deps/c-ares/ares_process.c:563-574 | The loop along the bucket finds what the specification finds. |
| `LinkedLists.InitHead` | deps/c-ares/ares_llist.c:27-31 | The head alone is an empty ring. |
| `LinkedLists.IsEmpty` | deps/c-ares/ares_llist.c:41-43 | True exactly for a ring of the head alone. |
| `LinkedLists.Insert` | deps/c-ares/ares_llist.c:46-52 | In place on `prev`/`next`: the ring with the node before the given one, all else in order. |
| `LinkedLists.Remove` | deps/c-ares/ares_llist.c:55-62 | The ring without the node, which is detached; a node that is in no list is left as it is. |
| `LinkedLists.Swap` | deps/c-ares/ares_llist.c:65-86 | Each head gets the other's nodes, in order, also when one or both lists are empty. |
| `LinkedLists.InsertAtHeadAppends` | deps/c-ares/ares_llist.c:46-52 | Inserting before the head appends at the tail. |
| `WireNames.NameLengthExact` | deps/c-ares/ares_expand_name.c:136-182 | `name_length` succeeds exactly when the pointer-following walk reaches a zero byte inside the message: its count rejects every loop and no finite walk. |
| `WireNames.WalkIsShort` | deps/c-ares/ares_expand_name.c:157-161 | Pigeonhole: a walk that ends makes fewer steps than the message has bytes. |
| `WireNames.NameLengthValue` | deps/c-ares/ares_expand_name.c:136-182 | The value is the length of the name's text; 0 exactly for the root. |
| `WireNames.StoredLengthExact` | deps/c-ares/ares_expand_name.c:85-122 | `*enclen` is the length of the encoded name exactly when the name is not a pointer to the root. |
| `WireNames.PointerToTheRoot` | deps/c-ares/ares_expand_name.c:85-122 | A message in which a name is a pointer to the root: its encoding is two bytes long, and 1 is stored. |
| `WireNames.MeasureName` | deps/c-ares/ares_expand_name.c:136-182 | The loops compute `name_length`, -1 for an invalid name, and terminate on every message. |
| `WireNames.MeasureLabel` | deps/c-ares/ares_expand_name.c:165-174 | The inner loop counts the characters of one label's text. |
| `WireNames.ExpandName` | deps/c-ares/ares_expand_name.c:65-131 | The second pass stays inside the message and the buffer, writes the name's text and a zero byte, and fills the buffer exactly. |
| `WireNames.WriteName` | deps/c-ares/ares_expand_name.c:94-128 | The loop over labels and pointers writes the text of what the walk finds, each label followed by a dot. |
| `WireNames.WriteLabel` | deps/c-ares/ares_expand_name.c:111-117 | The inner loop copies one label, escapes before dots and backslashes. |
| `NameEncoder.MakeQuery` | deps/c-ares/ares_mkquery.c:88-195 | Status, buffer size and bytes for every C string: over-long names, empty or over-long labels, no memory, or a query that reads back as what was asked. |
| `NameEncoder.QueryAsks` | deps/c-ares/ares_mkquery.c:103-192 | Read by offset the query has the id at 0, `RD` as the only flag set, a question count of 1 and no other records; from 12 on it has the name's labels, and directly behind them the low 16 bits of the type, then of the class, and its end. |
| `NameTexts.NameIsRead` | deps/c-ares/ares_mkquery.c:137-190 | What any text of characters, escapes and dots is read as: the root for nothing or a single dot, else what stands between the dots, one at the end not counted, if every label has 1 to 63 bytes; else it is bad. |
| `NameTexts.TokensSpell` | deps/c-ares/ares_mkquery.c:137-190 | Every text is made of such characters, escapes and dots. |
| `NameTexts.CompressedName` | deps/c-ares/ares_expand_name.c:136-182 | In any message labels followed by a pointer of fourteen bits are those labels and then the labels of the name at that offset. |
| `NameEncoder.WriteLabels` | deps/c-ares/ares_mkquery.c:150-188 | The encoding loop writes the wire form of the name's labels, or reports a bad one. |
| `NameEncoder.CopyLabel` | deps/c-ares/ares_mkquery.c:161-179 | Counting and copying one label agree. |
| `NameEncoder.EncodeThenExpand` | deps/c-ares/ares_mkquery.c:88-195 | The question made from an accepted name expands at offset 12 to exactly the name's labels, with the canonical text's length and the encoded length of the wire form. |
| `NameEncoder.ExpandThenEncode` | deps/c-ares/ares_mkquery.c:88-195 | The canonical text of labels of at most 63 bytes parses back into these labels. |
| `NameEncoder.MessageRoundTrip` | deps/c-ares/ares_expand_name.c:94-128 | A name found in a message, expanded and encoded again, is its uncompressed wire form; without pointers, the very bytes of the message. |
| `NameEncoder.BufferFilled` | deps/c-ares/ares_mkquery.c:96-135 | The bytes written equal `buflen` if and only if the name is not "." and does not end in an escaped dot; otherwise they are one less, or one more. |
| `NameEncoder.EscapedDotName` | deps/c-ares/ares_mkquery.c:96-135 | For the name `a\.` one byte more is written than the buffer was sized for. |
| `NameEncoder.ReencodedBuffer` | deps/c-ares/ares_mkquery.c:96-135 | For the text of an expanded name they are equal if and only if its last label does not end in a literal dot. |
| `TcpInput.ReassemblyFollowsTheStream` | deps/c-ares/ares_process.c:368-424 | Whatever the reads return, the messages handed to `process_answer` are the length-prefixed parse of the stream, and what is buffered is the rest of it. |
| `TcpInput.CutsDoNotMatter` | deps/c-ares/ares_process.c:368-424 | Two ways to cut one stream into reads give the same messages and the same state. |
| `TcpInput.ParseInvertsFraming` | deps/c-ares/ares_send.c:84-94 | Parsing undoes the two-byte framing. |
| `TcpInput.FramedMessagesArrive` | deps/c-ares/ares_process.c:368-424 | However a framed stream is cut, exactly its messages arrive and nothing is left over. |
| `TcpInput.AnswersOnlyGrow` | deps/c-ares/ares_process.c:368-424 | More of the stream adds messages and takes none back. |
| `TcpAnswers.ConnectionsDriveTheEngine` | deps/c-ares/ares_process.c:333-426 | Over any mix of reads and other steps, with connections of all servers opened and closed in between: the channel is that after a run, each connection hands on the messages of the length-prefixed parse of its own stream and buffers the rest of it, and the packets a server sent the run over TCP are the messages of its connections, in order. |
| `TcpAnswers.StepSame` | deps/c-ares/ares__close_sockets.c:43-60 | A step leaves a server's TCP socket as it was, or gives the server a higher connection number: the buffer is reset exactly then. |
| `TcpAnswers.StreamDrivesTheEngine` | deps/c-ares/ares_process.c:333-426 | Reads of one server, one after the other and however its stream is cut, drive the engine as a run does whose steps are answers from that server over TCP, carrying the messages of the stream's length-prefixed parse in order. |
| `TcpInput.StuckOnlyAtAnEmptyMessage` | deps/c-ares/ares_process.c:374-408 | A read asks for no bytes exactly when a zero length has come, which closes the connection. |
| `TcpInput.Connection.Read` | deps/c-ares/ares_process.c:368-424 | The loop body in place: length bytes, buffer, message, reset. |
| `TcpInput.Connection.Fill` | deps/c-ares/ares_process.c:368-408 | The bytes of a read land behind those already there. |
| `NameSearch.SearchInOrder` | deps/c-ares/ares_search.c:55-204 | A search asks for a prefix of the fixed order - as it stands first exactly when it has at least `ndots` dots, else last, each domain once - and reports at most once, certainly once every name has its reply, with all timeouts added up. |
| `NameSearch.SearchReports` | deps/c-ares/ares_search.c:144-204 | What it reports: the first reply that is not soft, as it is; if all are soft, that of the name as it stands, or no-data if that was not-found and another name had no data. |
| `NameSearch.SingleQuery` | deps/c-ares/ares_search.c:63-77 | A name that needs no search is asked for once, and its reply goes to the caller unchanged. |
| `NameSearch.SingleIff` | deps/c-ares/ares_search.c:234-322 | Exactly when the domains are gone through, which single name is asked for otherwise, and which error is reported: by a final dot, by dots inside, by an alias, and by whether there is anything to search. |
| `NameSearch.PlayFollows` | deps/c-ares/ares_search.c:144-204 | From any point of a search, the same for what is left of the order. |
| `NameSearch.SearchQuery.Callback` | deps/c-ares/ares_search.c:144-204 | `search_callback` in place equals the specification. |
| `NameSearch.SearchQuery.constructor` | deps/c-ares/ares_search.c:79-142 | The search record as `ares_search` fills it in. |
| `HostLookup.LookupBounded` | deps/c-ares/ares_gethostbyname.c:131-225 | For every family, lookup string, hosts file and outcome: at most two searches for each 'b' (one where only IPv4 is wanted), AAAA before A, one report once the searches have reported, with their timeouts added up. |
| `HostLookup.TimeoutsOfAllQueries` | deps/c-ares/ares_gethostbyname.c:131-225 | When every search a lookup makes is one of `ares_search`, the count of timeouts reported is that of the replies to all queries of exactly those searches. |
| `HostLookup.HostOnlyOnSuccess` | deps/c-ares/ares_gethostbyname.c:85-235 | Over a whole lookup a host is reported only with success, and only if the name is an address, is in the hosts file, or the last search brought an answer that parses. |
| `HostReport.LookupTells` | deps/c-ares/ares_gethostbyname.c:85-235 | For every family, lookup string, hosts file and outcome: which searches a lookup makes - one round for each 'b' before the 'f' that has the name, AAAA first unless only IPv4 is wanted, and A after it exactly when it gave no data or a bad answer, or timed out - and what it tells: the status of the last answer's parse, with a host if that is success; destruction; the hosts file's host; or the last search's status, a refused connection if there was none. |
| `HostReport.HostIff` | deps/c-ares/ares_gethostbyname.c:85-235 | A host is told if and only if the name is an address, or the last search brings an answer that parses, or no search decided it and the hosts file, asked in its turn, has the name. |
| `HostLookup.HostQuery.Next` | deps/c-ares/ares_gethostbyname.c:131-175 | `next_lookup`'s loop in place. |
| `HostLookup.HostQuery.Callback` | deps/c-ares/ares_gethostbyname.c:177-225 | `host_callback` in place. |
| `AddressSort.SortAddresses` | deps/c-ares/ares_gethostbyname.c:413-438 | The insertion sort overwrites the address slots in place with the sorted list. |
| `AddressSort.SortIsStable` | deps/c-ares/ares_gethostbyname.c:413-438 | The result is in order of the sort list's index, and the addresses of each index are the same ones in the same order. |
| `AddressSort.StableOrderIsUnique` | deps/c-ares/ares_gethostbyname.c:413-438 | Nothing else is in order and keeps the addresses of each index. |
| `AddressSort.Index` | deps/c-ares/ares_gethostbyname.c:443-467 | The first pattern that matches, or how many there are. |
| `AddressSort.PrefixIsAMask` | deps/c-ares/ares_gethostbyname.c:443-467 | A pattern with a prefix length and one with a mask of so many leading ones match the same addresses: those that agree on so many bits, and none of the other family. |
| `AddressSort.InsertOne` | deps/c-ares/ares_gethostbyname.c:424-437 | One round: the address moves behind all whose index is not larger. |
| `Inet6Parse.PrintThenParse` | deps/c-ares/inet_net_pton.c:273-390 | Every 16-byte address printed by `inet_ntop6` and parsed by `inet_net_pton_ipv6` gives the same bytes and 128 bits, through "::" and embedded IPv4. |
| `Inet6Texts.TextIsRead` | deps/c-ares/inet_net_pton.c:273-390 | Every text of groups of one to four digits of either case, with a double colon or without, and with a prefix length or without, is read as the network it is written for: without a double colon it has exactly the groups of its prefix length (at least two), with one it has fewer and zeros fill them up; so many bytes are stored as hold the prefix, if there is room. |
| `Inet6Parse.PrintIsInjective` | deps/c-ares/inet_ntop.c:127-230 | Different addresses have different texts. |
| `Inet6Parse.TooSmallIsReported` | deps/c-ares/inet_net_pton.c:377-389 | A destination shorter than the address is reported. |
| `Inet6.LongestRunIsTheLongest` | deps/c-ares/inet_ntop.c:145-184 | "::" stands for the first of the longest runs of zero words, of two words or more, and is used whenever there is one. |
| `Inet6.PrintShape` | deps/c-ares/inet_ntop.c:186-218 | The text in one piece: words before the run, "::", words behind it, or an embedded IPv4 address. |
| `Inet6.HexReads` | deps/c-ares/inet_ntop.c:186-218 | A word is printed in digits and small letters without a leading zero, and they stand for it. |
| `Inet6.DecReads` | deps/c-ares/inet_ntop.c:104-125 | A byte of an embedded address is printed in decimal digits without a leading zero, and they stand for it. |
| `Inet6.FindRun` | deps/c-ares/inet_ntop.c:154-184 | The loop keeping `best` and `cur` finds that run. |
| `Inet6.Ntop6` | deps/c-ares/inet_ntop.c:127-230 | The loops print the address if the text and its zero byte fit, else nothing. |
| `Inet6Parse.ScanText` | deps/c-ares/inet_net_pton.c:300-341 | The loop over the characters, token by token, equals the specification. |
| `Inet6Parse.Pton6` | deps/c-ares/inet_net_pton.c:273-390 | The whole parser: result, and what it writes to the destination. |
| `Inet6Parse.Shift` | deps/c-ares/inet_net_pton.c:358-373 | The shift by hand in place, in whichever direction. |
| `Inet6Parse.ShuffledWidens` | deps/c-ares/inet_net_pton.c:358-373 | With room left it puts zeros where "::" stood and the bytes behind it at the end. |
| `Inet6Parse.ShuffledNarrows` | deps/c-ares/inet_net_pton.c:358-373 | Where the groups already overfill the prefix, it moves the bytes behind "::" in front of it, over and over, and leaves zeros: exactly which byte lands where. |
| `Inet6Failures.ReturnsZeroIff` | deps/c-ares/inet_net_pton.c:311-332 | For every text and size: the parser returns 0 without an error if and only if nine groups, with at most one double colon among them, are followed by a colon that is not the last character. |
| `Inet6Failures.NineGroups` | deps/c-ares/inet_net_pton.c:311-332 | The text 1:2:3:4:5:6:7:8:9:a is one. |
| `Inet6Failures.OverlongIff` | deps/c-ares/inet_net_pton.c:348-371 | For every text and size: the shift by hand begins in front of its buffer if and only if the text has a prefix length behind at most eight groups, and more groups stand behind "::" than that length leaves words for. |
| `Inet6Failures.TooManyBehind` | deps/c-ares/inet_net_pton.c:348-371 | The text ::1:2:3:4:5:6:7:8/16 is one. |
| `Inet6Parse.ReadBits` | deps/c-ares/inet_net_pton.c:198-226 | `getbits`: 0 to 128, no leading zero, nothing behind. |
| `Inet6Parse.ReadV4` | deps/c-ares/inet_net_pton.c:229-270 | `getv4`: which bytes it stores, and the prefix length it may find. |
| `Inet6Parse.Settle` | deps/c-ares/inet_net_pton.c:348-381 | Prefix length, size check and copy. |
| `JsonAccepts.AcceptsExactlyTheGrammar` | src/core/JSON_parser.c:265-310 | With comments off the parser accepts exactly the texts of the recursive grammar nested at most `depth`. |
| `JsonStandard.ParserAgainstStandard` | src/core/JSON_parser.c:768-800 | For every text: it is standard JSON (RFC 8259) and refused exactly if it is not in ASCII, too deep, or its standard derivation is none of the table's grammar; it is accepted and not standard exactly if it has a derivation that is not standard. |
| `JsonStandard.StandardAcceptedIff` | src/core/JSON_parser.c:265-310 | A standard text is accepted if and only if it is in ASCII, within the depth, and its derivation, whichever it is, is one of the table's grammar: a container at the top, no exponent behind a lone zero, no half of a surrogate pair. |
| `JsonStandard.AcceptedStandardIff` | src/core/JSON_parser.c:265-310 | An accepted text is standard if and only if its derivation, whichever it is, is standard. |
| `JsonStandard.DocumentStandardIff` | src/core/JSON_parser.c:265-310 | A derivation of the table's grammar is standard if and only if it has a value and no number in it has a point without digits behind it. |
| `JsonStandard.BeyondAsciiRefused` | src/core/JSON_parser.c:783-790 | A text with a byte of 128 or more in it is refused, wherever that byte stands: the characters are signed. |
| `JsonAccepts.PointAlone` | src/core/JSON_parser.c:265-310 | The text [1.] is accepted at any depth limit of at least 1. |
| `JsonAccepts.ZeroExponent` | src/core/JSON_parser.c:265-310 | The text [0e1] is never accepted. |
| `JsonAccepts.RefusedOnlyForDepth` | src/core/JSON_parser.c:366-399 | A text of the grammar is refused for its depth alone, and with that error. |
| `JsonAccepts.CallbacksFollowTheText` | src/core/JSON_parser.c:768-1089 | The callbacks made for an accepted text are those of every derivation of it, in order, and its depth is within the limit. |
| `JsonTree.TreeIsTheValue` | src/core/ape_json.c:715-833 | The tree `json_callback` builds for an accepted text is that text's value: keys and order kept, every item part of it; a blank text builds nothing. |
| `JsonTree.OneMeaning` | src/core/ape_json.c:715-833 | All derivations of an accepted text have one value. |
| `JsonTree.OneValue` | src/core/ape_json.c:715-833 | No two values are held by the same items. |
| `JsonTree.DocumentBuilds` | src/core/ape_json.c:715-833 | The callbacks of a derivation build its value with the head at the top and no item to spare. |
| `JsonStrings.TreeHoldsTheText` | src/core/JSON_parser.c:628-759 | For every accepted text, whichever way it is derived: each key and each string in the tree is the UTF-8 form of the code points that its characters, its escapes (section 7 of RFC 8259) and its surrogate pairs stand for. |
| `JsonStrings.StringReads` | src/core/JSON_parser.c:628-759 | The bytes of a string, decoded as section 4 of RFC 3629 says, are its code points. |
| `JsonStrings.PieceMeans` | src/core/JSON_parser.c:628-714 | What a string may hold, character by character: eight escape letters, four digits that are no half of a surrogate pair, or a high half and a low one. |
| `JsonInvariant.AssertionsHoldOnEveryRun` | src/core/JSON_parser.c:768-1089 | No assertion of the parser fails, for any text and any next character. |
| `JsonInvariant.StepKeeps` | src/core/JSON_parser.c:768-1089 | Every character keeps what the assertions rest on. |
| `JsonParser.JsonParser.constructor` | src/core/JSON_parser.c:445-523 | A new parser: state GO, one mode on the stack. |
| `JsonParser.JsonParser.Push` | src/core/JSON_parser.c:366-399 | Fails at the depth limit with that error, else the mode is on top. |
| `JsonParser.JsonParser.Pop` | src/core/JSON_parser.c:402-414 | Succeeds exactly when the mode is on top, and then takes it off. |
| `JsonParser.JsonParser.Flush` | src/core/JSON_parser.c:582-621 | The buffered scalar is handed on, the buffer emptied. |
| `JsonParser.JsonParser.DecodeUnit` | src/core/JSON_parser.c:628-695 | UTF-16 units to UTF-8, surrogate pairs in two steps, wrong halves refused. |
| `JsonParser.JsonParser.Store` | src/core/JSON_parser.c:697-759 | The character into the buffer, escapes replaced; white space only inside scalars. |
| `JsonParser.JsonParser.Act` | src/core/JSON_parser.c:801-1085 | Every action of the table, with the assertions made on the way. |
| `JsonParser.JsonParser.Char` | src/core/JSON_parser.c:768-1089 | One character in place equals a step of the automaton. |
| `JsonParser.JsonParser.Finish` | src/core/JSON_parser.c:1092-1101 | Accepts exactly in the final state with nothing open. |
| `JsonParser.EncodeUtf8` | src/core/JSON_parser.c:686-690 | The output loop writes the UTF-8 form. |
| `JsonParser.UnitOf` | src/core/JSON_parser.c:639-653 | The input loop reads four hexadecimal digits. |
| `JsonParser.Parse` | src/core/ape_json.c:835-872 | `init_json_parser`: a head exactly for accepted texts that are not blank, and then the tree of their callbacks. |
| `JsonItems.JsonContext.Callback` | src/core/ape_json.c:715-833 | `json_callback` on linked items in place equals the tree specification. |
| `JsonItems.JsonContext.Allocate` | src/core/ape_json.c:724-737 | The new item is linked as first child or behind the current item, with its father. |
| `JsonReading.ReadNumber` | src/core/JSON_parser.c:265-310 | Every number of the grammar is read to the same state and buffer. |
| `JsonContainers.ReadValue` | src/core/JSON_parser.c:265-310 | Every value of the grammar is read, or refused at its depth. |
| `TickTimers.FiresOnTime` | src/core/ape_timers.c:5-88 | Whatever timers are added, also by callbacks, each one (period at least 1) has fired in exactly the ticks born + period, born + 2 period, ... up to now, once in each, until its last call: the one that uses up `times` (none does when it is 0), unless a callback makes an earlier one the last or keeps the timer going; live identifiers are distinct. |
| `TickTimers.InsertAligned` | src/core/ape_timers.c:54-69 | The delta walk keeps every due tick and adds the new one. |
| `TickTimers.AddAllBehind` | src/core/ape_timers.c:54-69 | Timers a callback adds go behind the one that is running. |
| `TickTimers.FireRight` | src/core/ape_timers.c:9-33 | A round of the loop keeps the list right and leaves fewer timers due at once, so `process_tick` terminates. |
| `TickTimers.ZeroIsLost` | src/core/ape_timers.c:36-75 | A timer of period 0 added by a callback is dropped with the running one. |
| `TickTimers.ZeroDelays` | src/core/ape_timers.c:5-75 | Whatever the list, a timer of period 0 added between two ticks fires in the next one and takes it from all others: their list is left as it was, a tick later. |
| `TickTimers.OnTimeIff` | src/core/ape_timers.c:5-88 | In every run whose timers have periods from a given set all timers of period at least 1 fire on time if and only if 0 is not in the set or nothing else is. |
| `TickTimers.LateRun` | src/core/ape_timers.c:5-88 | The run that adds a timer of period 0 and one of period d and makes d ticks, in which the second has not fired. |
| `TimerQueue.TimerList.Link` | src/core/ape_timers.c:54-69 | The walk of `add_timeout`, in place. |
| `TimerQueue.TimerList.AddTimer` | src/core/ape_timers.c:36-88 | `add_timeout` and `add_periodical` in place. |
| `TimerQueue.TimerList.FireHead` | src/core/ape_timers.c:10-32 | One round of `process_tick`'s loop, in place. |
| `TimerQueue.TimerList.ProcessTick` | src/core/ape_timers.c:5-34 | `process_tick` in place equals the specification. |
| `SocketQueue.EveryByteInOrder` | src/core/ape_socket.c:377-669 | Over any run of writes, partial writes and job rounds, until a write fails: bytes sent followed by bytes pending are all bytes written, in order; the pool has its pending packets first and a free slot at `current`; the job is active exactly while something waits. |
| `SocketQueue.RoomEmptiesTheQueue` | src/core/ape_socket.c:523-574 | A job round with room for everything sends everything and ends the job. |
| `SocketQueue.ReleasedDrops` | src/core/ape_socket.c:548-567 | The loop after `writev` drops exactly the first n pending bytes. |
| `SocketQueue.QueuedAppends` | src/core/ape_socket.c:654-666 | A queued packet waits behind all others and leaves a free slot. |
| `SocketQueue.WriteLoopConserves` | src/core/ape_socket.c:432-449 | A direct write loses and repeats nothing unless it fails, and returns how many bytes it left waiting. |
| `SocketQueue.WriteTells` | src/core/ape_socket.c:377-462 | What one write does: refused offline or without data; queued whole, with its length returned, while the socket waits or something is pending; else sent as far as there is room, and the rest queued and counted, or dropped if the write fails. |
| `SocketQueue.JobTells` | src/core/ape_socket.c:467-574 | What one job round does: of the packets offered it sends what the kernel takes, from the front, and the socket waits for room afterwards exactly if it did before or something is left. |
| `SocketQueue.OfferedPending` | src/core/ape_socket.c:525-534 | The chunks offered to `writev` are a prefix of what is pending. |
| `PacketPool.PoolList.NewNodes` | src/core/ape_pool.c:4-18 | n empty nodes linked in a row. |
| `PacketPool.PoolList.constructor` | src/core/ape_pool.c:20-36 | A pool of free slots, `current` at its head. |
| `PacketPool.PoolList.HeadToQueue` | src/core/ape_pool.c:38-48 | The first node becomes the last; what the others hold stays. |
| `PacketPool.PoolList.HeadToCurrent` | src/core/ape_pool.c:50-69 | The first node moves behind the current one and becomes current. |
| `PacketPool.PoolList.Grow` | src/core/ape_pool.c:71-80 | Fresh free nodes behind the last one. |
| `PacketPool.PoolList.Put` | src/core/ape_socket.c:654-666 | The packet fills the current slot; a spare slot is always left. |
| `PacketPool.PoolList.Offer` | src/core/ape_socket.c:525-534 | The loop over packets offers what the specification says. |
| `PacketPool.PoolList.ReleaseFirst` | src/core/ape_socket.c:548-567 | One round: the first packet shrinks, or goes to the end of the list, empty. |
| `PacketPool.PoolList.Release` | src/core/ape_socket.c:548-567 | The loop equals the specification. |
| `PlainSocket.ApeSocket.QueueData` | src/core/ape_socket.c:629-669 | Slot taken, pool made on first use, packet queued. |
| `PlainSocket.ApeSocket.Write` | src/core/ape_socket.c:377-462 | Refused, queued, or written directly. |
| `PlainSocket.ApeSocket.WriteNow` | src/core/ape_socket.c:432-449 | The direct write loop in place. |
| `PlainSocket.ApeSocket.DoJobs` | src/core/ape_socket.c:467-574 | The writev job of `ape_socket_do_jobs`. |
| `PlainSocket.ApeSocket.Finish` | src/core/ape_socket.c:548-574 | The pool after the bytes taken, and the flags. |
| `HttpParser.CallbacksInOrder` | src/core/ape_http_parser.c:109-330 | For every input the callbacks form a prefix of METHOD, path, one PATH_END, query, versions, headers, HEADER_END, body, one READY. |
| `HttpParser.BodyFollowsTheLength` | src/core/ape_http_parser.c:160-330 | Raw body bytes taken and due make up the content length reported; every unit, `%xy` counted as three, is reported decoded as 16x + y; READY comes after exactly that many bytes. |
| `HttpParser.NothingAfterReady` | src/core/ape_http_parser.c:160-330 | Once ready the parser takes nothing and calls nobody. |
| `HttpParser.ReadyIsLast` | src/core/ape_http_parser.c:160-330 | READY is the last callback, and the only one of its kind. |
| `HttpParser.ReadyIsSaidIff` | src/core/ape_http_parser.c:160-330 | When the content length is used up, READY has been called if and only if the body did not stop inside an escape. |
| `HttpParser.ReadyUnsaid` | src/core/ape_http_parser.c:160-330 | The request with Content-length 1 and a body of one percent sign uses up its length, and READY is not called. |
| `HttpRequest.HeadsAreRead` | src/core/ape_http_parser.c:109-330 | For every text: it is taken to the end of the headers if and only if it is the head of a request - GET or POST, a target with escapes, a version, header lines, an empty line - and what has been reported is then exactly that head: method, path bytes and query bytes with `%xy` as 16x + y, the version's digits, keys and values byte by byte. |
| `HttpRequest.HeadIsRead` | src/core/ape_http_parser.c:109-330 | Each head is taken, and reported so. |
| `HttpRequest.PlaceStep` | src/core/ape_http_parser.c:160-330 | At any place in a head, for any next byte: it is taken exactly if a head goes on with it, and reported as it is there. |
| `HttpRequest.PlaceReached` | src/core/ape_http_parser.c:160-330 | Every beginning of a head leads to its place. |
| `HttpLength.LengthReported` | src/core/ape_http_parser.c:238-251 | For every text and next byte: a content length is reported exactly at the end of a Content-Length line, and it is the number whose digits are those of the length reported before followed by those on the line, modulo 2^32. |
| `HttpLength.LengthIsTheNumberIff` | src/core/ape_http_parser.c:238-251 | It is the number written on the line if and only if that is below 2^32 and the earlier length, moved up by the digits, vanishes modulo 2^32; with no digit refused, if and only if no length but 0 was reported before. |
| `HttpLength.TakenIff` | src/core/ape_http_parser.c:242-247 | No digit is refused if and only if the number they make with the earlier length stays within 1048576. |
| `HttpLength.SecondLength` | src/core/ape_http_parser.c:238-251 | A request with the headers Content-length: 1 and Content-length: 2 has a length of 12. |
| `HttpParser.StepKeeps` | src/core/ape_http_parser.c:160-330 | Every byte, also one that is refused, keeps the invariant behind these. |
| `HttpParser.RequestParser.Char` | src/core/ape_http_parser.c:160-330 | `parse_http_char` in place equals the automaton's step. |
| `HttpParser.RequestParser.ConsumeBody` | src/core/ape_http_parser.c:174-178 | `HTTP_CONSUME_BODY` in place: the length counted down, READY said at zero. |
| `HttpParser.RequestParser.BodyAsEnded` | src/core/ape_http_parser.c:181-181 | `HTTP_BODY_AS_ENDED` in place: a byte of an escape counted, true when the length is used up by it. |
| `Sha1Stream.StreamedHash` | src/core/ape_sha1.c:225-296 | However a message is cut into updates, finishing yields the fold of the compression function over the message padded as in section 4 of RFC 3174, with its bit length modulo 2^64. |
| `Sha1Stream.StreamedDigest` | src/core/ape_sha1.c:225-296 | However a message is cut: twenty bytes that are, high byte first, the five words after all 64-byte blocks of the message followed by a byte of 128, zeros up to the boundary and its length in bits modulo 2^64, from the constants of section 6.1 of RFC 3174. |
| `Sha1Stream.UpdateHolds` | src/core/ape_sha1.c:225-262 | An update keeps the context standing for everything fed, in order, with the 32-bit totals carried. |
| `Sha1Stream.FinishHashes` | src/core/ape_sha1.c:272-296 | Finishing a context that stands for a message gives its hash. |
| `Sha1Stream.LengthWords` | src/core/ape_sha1.c:278-283 | The two length words are those of the number of bits. |
| `Sha1Stream.Sha1Context.Blocks` | src/core/ape_sha1.c:250-255 | The loop over whole blocks is the fold, and stops at the part left over. |
| `Sha1Stream.Sha1Context.Update` | src/core/ape_sha1.c:225-262 | `sha1_update` in place equals the specification. |
| `Sha1Stream.Sha1Context.Finish` | src/core/ape_sha1.c:272-296 | `sha1_finish` in place. |
| `Sha1Stream.Checksum` | src/core/ape_sha1.c:325-332 | `sha1_csum` is the hash of its buffer. |
| `Base64.EncodeThenDecode` | src/core/ape_base64.c:18-62 | Decoding an encoding gives the bytes back, or as many as the buffer takes. |
| `Base64.EncodedFills` | src/core/ape_base64.c:39-62 | An encoding has four characters for every three bytes begun, and "=" exactly in the places the bytes do not reach. |
| `Base64.BytesAreDigits` | src/core/ape_base64.c:39-62 | The bit accumulator yields the digits of section 4 of RFC 4648, whatever it held before. |
| `Base64.Encode` | src/core/ape_base64.c:39-62 | The loops write those digits and the padding. |
| `Base64.DecodeInto` | src/core/ape_base64.c:18-37 | The decoding loop, its refusals and its stop at a full buffer. |

## Left out

The query engine
- Socket creation, binding and address checks, `select`, UDP reads and the socket-state callbacks: outcomes come from the environment or are steps of a run.
- `same_questions` and `same_address` are predicates of the environment.
- Query ids and their generation (`ares_query.c`): an id is whatever the packet holds.
- Query structures are known by a number that is never given again, so re-use of a freed address is not modelled.
- The channel's lists are sequences and tables of sequences in `ResolverChannel`; the pointers of one list are in `LinkedLists`.
- Overflow of connection numbers, attempt counts and the shifted timeout: integers are unbounded.
- User callbacks record; they do not call back into the channel.
- `QueryStreams.RunStreams`: makes no claim about runs in which `ares_cancel` under STAYOPEN frees a query that a request points into; `QueryStreams.CancelStreams` says exactly when that is. The same runs are left out by `QuerySetbacks.RunWrites`; the other results about runs hold of these runs too.
- `QueryTheorems.RunTimeouts`: the clock never goes back, starts at 1 s or later, and its microseconds stay below a million; the same holds of `QueryTheorems.NoneOverdueIff`, `QueryTheorems.RunDates` and `QueryAnswers.RunNotices`. The other results about runs hold under any clock.
- A time before the epoch has its timeout bucket by the remainder that is not negative, where C's would be.
- `read_tcp_data` without memory for a message closes the connection; the model has memory.

Names, lookups, addresses
- A zero byte inside a label is carried by the expander's model, although the C string it returns ends there; `NameEncoder.MessageRoundTrip` says when the text is a C string.
- `RD` is a flag in the model, and the id has sixteen bits.
- `NameSearch.SearchInOrder`: an empty name is not searched for; host aliases (`single_domain`) are a parameter.
- Reading the hosts file, dotted addresses given as names (`fake_hostent`) and the reply parsers (`ares_parse_*`) are parameters of `HostLookup`.
- `Inet6Parse.Pton6`: stops with `Overlong` where the shift by hand would begin in front of its buffer - what those writes do is not modelled - and follows every other text to its end; `Inet6Failures.OverlongIff` says which texts these are.
- `Inet6Texts.TextIsRead`: texts that end in an embedded IPv4 address, or with more groups around "::" than the prefix length has words; `Inet6Parse.Pton6` follows these too, and `Inet6Parse.ShuffledNarrows` says what becomes of the latter.
- `inet_net_pton_ipv4`, and errno.

JSON
- `JsonStandard.StandardAcceptedIff`: characters are signed, as where C's `char` is; standard texts are byte strings, and whether their bytes beyond ASCII are UTF-8 is not asked.
- Comments, a depth outside 1 to 127, and growth of the text buffer without memory.
- Numbers keep the characters that the conversion reads; `strtod` and `sscanf` are not modelled. `json_to_string` and the property setters are not part of this model.
- The parser after an error: `init_json_parser` stops there.

APE's runtime
- `TickTimers.FiresOnTime`: periods of at least 1; `TickTimers.OnTimeIff` says what period 0 does to the others. Overflow of identifiers, and `del_timer_identifier`, are not modelled.
- `SocketQueue.EveryByteInOrder`: makes no claim after a failed direct write; a failed `writev` counts as no room, as in the code.
- SSL, sendfile and shutdown jobs, listening, connecting, reading, and the release of callers' memory.
- HTTP: the step counter, bits 8 to 15 of the parser's flag word, and the text of header keys that begin like Content-Length, whose first letters are matched and not reported. Websockets.
- SHA-1's compression function is a parameter; `sha1_file` and `sha1_hmac` are not part of this model.
- The hash table, arrays, buffers, the pipe and user layers, the JavaScript bridge and libConfuse would add easier members or are not shown whole.
