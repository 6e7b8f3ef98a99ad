# Verified model of rmpc and rmpcd

rmpc (a terminal client) and rmpcd (a daemon) talk to MPD over one connection each. MPD's
line protocol allows one thing at a time on it: a client that idles may only send `noidle`,
and replies come back in order with no label, so every reader must take exactly its own. This
project models how the two programs keep to that, and how they batch, quote, parse, delete and
sort, and proves that they do it right, or exactly when they do not.

| file | what it models |
|---|---|
| `Wire.dfy` | one connection and MPD's idle rules on it |
| `AsyncClient.dfy` | rmpcd: a worker thread, any number of callers, a three-valued atomic |
| `AsyncMessages.dfy` | what becomes of the messages sent to that worker |
| `AsyncHistory.dfy` | who won which idle period, and when a call has failed |
| `AsyncProgress.dfy` | how that worker, its callers and its closures come to their ends |
| `AsyncRecovery.dfy` | that worker after its connection has failed |
| `LateNoIdle.dfy` | when a `noidle` of that program ends a later period than its own |
| `ClientTask.dfy` | rmpc: main, idle and request threads passing one client around |
| `ClientRequests.dfy` | what becomes of the requests sent to those threads |
| `ClientHistory.dfy` | when HEALTHY is false, and how many `noidle` lines are written |
| `ClientRestart.dfy` | how those threads come back after a failure |
| `ClientProgress.dfy` | how the threads go on while all is well |
| `Sequences.dfy`, `Text.dfy`, `Errors.dfy`, `Proto.dfy` | reversal, strings, numbers, ACK lines, line and response reading |
| `Enqueue.dfy` | adding items to the queue by command lists |
| `Stickers.dfy` | fetching stickers by command lists |
| `Binary.dfy` | downloading album art in pieces |
| `Quoting.dfy`, `CommandLine.dfy` | argument quoting, the command-line tokenizer |
| `FilterEscape.dfy`, `FilterReading.dfy` | filter values and queries, and what MPD reads from them |
| `Songs.dfy` | song records |
| `Ranges.dfy` | marked positions as ranges |
| `Deletion.dfy` | deleting positions and ranges, one by one and in command lists |
| `Coalesce.dfy` | skipping superseded queries |
| `IdleFilter.dfy`, `Suppression.dfy` | suppressing idle events during own commands, and which are acted upon |
| `Sorting.dfy`, `SortingFields.dfy` | the order of directories, songs and playlists, and what decides in it |
| `MixedSorting.dfy`, `MixedLimits.dfy` | when directories among songs are in order, and when not |
| `PaneIter.dfy` | walking a layout |

Modelling choices:

- The two concurrent programs are step relations. A step is one access to shared state; all
  interleavings, failures of any call at any time, and any number of callers are included.
  Memory is sequentially consistent and a line is written at once. Fields marked as history
  are read by no step.
- `health!` is two steps, the test of HEALTHY and the call. A failing call and the store that
  follows it are one step: no other thread can tell them apart from a later failure.
- MPD's side follows the MPD protocol reference: "Querying MPD's status" for idle, "Command
  lists", "Binary Responses", "Requests" and "Filters" for the rest. For the queue a server is
  given an outcome per item, so every pattern of failures is covered.
- MPD refuses a deletion that reaches past the end of its list.
- A stream is a sequence of characters. Reading at its end is an error in the model; in the
  program it is waiting for a reply nobody sends.
- `std::mem::take`, drop guards and `?` appear as plain assignments and returns.

Where the code does less than one would expect:

- rmpcd handles at most one more message after a shutdown: exactly when one is in the queue as
  the draining loop first looks behind a shutdown that `blocking_recv` took, be it sent before
  or after (`AsyncMessages.MessageAfterShutdownExactly`).
- While it reconnects, rmpcd throws away every queued message up to a shutdown; only then are
  messages lost (`AsyncMessages.NothingLostExactly`). What is queued behind a shutdown stays
  behind (`AsyncMessages.LeftAtExit`).
- In rmpcd a `noidle` can end a later idle period than its own: exactly when a caller that won
  an earlier period has still to write as the worker enters idle
  (`LateNoIdle.StragglersExactly`). In rmpc it cannot (`ClientTask.TwoThreadWireSafety`).
- rmpc's main thread waits for the first confirmation without a timeout. If the idle thread
  leaves before it, main waits for ever and nothing reconnects (`ClientTask.FirstHandoverExactly`).
- `enqueue_multiple` gives up at a failure more than 255 items behind the previous one, since
  the index in the ACK is a `u8` (`Enqueue.GivesUpAt`, `Enqueue.LateFailureLosesRest`).
  With no items it does not even clear the queue it was to replace. A position relative to the
  current song is out of range once the queue is cleared, so nothing is added
  (`Enqueue.ReplacedMeaning`).
- `list_stickers_multiple` waits for a reply to nothing when asked about no songs.
- `read_bin` ignores an error of the first reply and asks again.
- A tag whose name starts with `OK`, `list_OK` or `ACK` ends a reply
  (`Proto.ReadPairExactly`).
- Directories among songs, sorted by a format without grouping, are in order if every property
  is placed by what it shows, as text and dates are and tracks, discs and rates are not; if
  behind the properties that every song has there is at most one field; and if with leading
  "the"s ignored there is one property at most. Otherwise they are not, for properties that vary
  on their own (`MixedLimits.UngroupedOrderExactly`). For that half it is assumed of each number
  in the list that songs show it beginning with 1, with 2 to 8 and with 9, and that it is shown
  either in its own order, as dates of four-digit years are, or like 9:00 and 10:00 out of it;
  and that case is folded character by character and plain file names are split as usual. Whether
  every file has a stem is left open: a stem counts as a property every song has exactly if so.
- A command to ignore a kind of idle event for a while that is dropped when rmpc reconnects
  leaves the kind ignored for good (`IdleFilter.SuppressedForGoodExactly`).
- `Command::Remove` with a position out of bounds leaves its command list open on the
  connection (`Deletion.Connection.Remove`).

## Model

| member | source | states |
|---|---|---|
| AsyncClient.NoLostWakeup | rmpcd/src/async_client.rs:55-71 | while the worker blocks on an idle reply with messages queued, a caller is still inside preempt_idle or the written lines already make the server answer, in every run |
| AsyncClient.WakeupDelivered | rmpcd/src/async_client.rs:97-128 | with all callers done, the server's reading and four worker steps take the next message; no event and no further caller is needed |
| AsyncClient.WireSafety | rmpcd/src/async_client.rs:105-128 | nothing but noidle reaches an idling server, closures start out of idle with no reply unread, each read takes the reply of its own period, each period is won once |
| AsyncClient.StepKeeps | rmpcd/src/async_client.rs:84-182 | every step of worker, callers, server and failures keeps the joint invariant |
| AsyncMessages.QueueConserved | rmpcd/src/async_client.rs:84-182 | every message sent was taken in sending order, handled or thrown away, or is still queued |
| AsyncMessages.NothingLostExactly | rmpcd/src/async_client.rs:141-147 | the messages handled and those still queued are the messages sent, in order, if and only if none was thrown away while reconnecting, in every run |
| AsyncMessages.LeftAtExit | rmpcd/src/async_client.rs:111-146 | when the worker has ended, exactly the messages behind the first shutdown are left, without the one that may still be handled |
| AsyncMessages.AtMostOneAfterShutdown | rmpcd/src/async_client.rs:100-116 | at most one message is handled after a shutdown was acknowledged |
| AsyncMessages.MessageAfterShutdownExactly | rmpcd/src/async_client.rs:100-116 | in every run, whatever callers do meanwhile, a message is handled after a shutdown if and only if the draining loop finds one behind a shutdown taken by blocking_recv |
| AsyncMessages.MessageAfterShutdownHappens | rmpcd/src/async_client.rs:100-110 | a run in which that message is sent only after the shutdown was taken from an otherwise empty queue |
| AsyncHistory.OneWinnerPerPeriod | rmpcd/src/async_client.rs:55-71 | along every run the compare-and-swaps that succeed, callers' and the worker's own, are one per idle period at most and in order |
| AsyncHistory.RecoversExactly | rmpcd/src/async_client.rs:120-170 | in every run the worker, not yet ended, is recovering if and only if entering idle or reading its reply has failed since the connection was last made good |
| AsyncHistory.NothingStraysIn | rmpcd/src/async_client.rs:150-166 | until the interrupt stream is replaced nothing is written to a new connection, so no noidle for an earlier one strays into it |
| AsyncProgress.MessageTaken | rmpcd/src/async_client.rs:97-170 | in every run, from wherever worker and callers are, callers that finish, MPD's reading and the worker's own steps take the next message; nothing need fail but a read on a broken connection |
| AsyncProgress.ShutdownHonoured | rmpcd/src/async_client.rs:97-147 | once a shutdown is queued or taken the worker comes to its end, whatever is queued before it and whatever state the connection is in |
| AsyncProgress.ClosureServed | rmpcd/src/async_client.rs:84-92 | a closure can send any number of commands and reads the reply to each, and the connection is quiet behind it |
| AsyncRecovery.ReconnectIdles | rmpcd/src/async_client.rs:150-166 | from a reconnect that succeeds the worker's successful steps alone ask for idle on the new connection and wait for the reply, with no message taken, the interrupt stream replaced, and the wakeup asked for if messages are queued |
| AsyncRecovery.ListensBeforeWaiting | rmpcd/src/async_client.rs:97-118 | in every run, on a reconnected connection the worker waits for a message or runs one only if it has asked for idle there |
| AsyncRecovery.ShutdownHeard | rmpcd/src/async_client.rs:140-179 | a shutdown queued while the worker recovers ends it even if every further attempt fails: what is before it is thrown away, it is acknowledged, what is behind it stays |
| AsyncRecovery.TriesAgain | rmpcd/src/async_client.rs:138-150 | with no shutdown queued a failed worker throws the queue away, in order, and tries to reconnect |
| AsyncRecovery.StandsStillExactly | rmpcd/src/async_client.rs:97-128 | in every run the worker stands still exactly when it has ended, waits for a message and none is queued, or waits for a reply that has not come; a closure's reply needs only MPD's reading of what is written |
| LateNoIdle.LateNoIdleExactly | rmpcd/src/async_client.rs:55-71 | while MPD idles, a noidle of an earlier period can come to end this one if and only if it is the next unread line, or none is unread and a caller that won an earlier period has still to write |
| LateNoIdle.StragglersExactly | rmpcd/src/async_client.rs:55-71 | a noidle of an earlier period can end the period about to begin if and only if some caller has still to write one when the worker enters idle |
| LateNoIdle.DelayedNoIdleEndsLaterPeriod | rmpcd/src/async_client.rs:55-71 | a run in which a noidle for period 1 is the next line MPD reads in period 2 |
| Wire.IdleExchangeOutcome | rmpc-mpd/src/client.rs:415-421 | an idle request ends idling or answered once, wherever the server is in reading |
| Wire.NoIdleWakes | rmpc-mpd/src/client.rs:419-421 | a noidle at any moment of an idle exchange makes the server answer exactly once |
| ClientTask.TokenAlternates | rmpc/src/core/client.rs:86-170 | exactly one of main, idle thread, request thread and channel has the client, no send blocks, no thread takes back what it dropped |
| ClientTask.ConfirmationsCross | rmpc/src/core/client.rs:183-216 | only one pair can meet on the rendezvous channel: idle thread and main first, the two workers afterwards, and the sender holds the client |
| ClientTask.TwoThreadWireSafety | rmpc/src/core/client.rs:206-260 | noidle goes to the client's own connection, once per period, after its idle and into no later period; callbacks run with the stream aligned |
| ClientTask.StepKeeps | rmpc/src/core/client.rs:78-284 | every step of the three threads, the server and failures keeps the joint invariant |
| ClientTask.TokenRecovered | rmpc/src/core/client.rs:100-106 | once both workers are gone the client is in the channel and main's own steps take it |
| ClientProgress.OnlyWaitsForServer | rmpc/src/core/client.rs:118-261 | while neither worker has failed they never wait for each other in vain: if no confirmation can pass and neither can act they wait for an event, a request, or an answer that the lines already written bring, never for a confirmation's timeout |
| ClientRequests.RequestsConserved | rmpc/src/core/client.rs:174-284 | in every run the requests sent are those called, those skipped, those thrown away as main empties the queue behind a reconnect or as the request thread leaves, and those still kept |
| ClientProgress.RequestsReached | rmpc/src/core/client.rs:191-261 | while nothing has failed, every request kept is brought to a call or a skip, whichever are skipped, by successful calls, confirmations and MPD's reading of what is written alone; no event, failure or timeout is needed |
| ClientRequests.TurnsExactly | rmpc/src/core/client.rs:221-235 | a request turned to is called, or passed over where it is another's duplicate, which is possible exactly while another request is known; the client is dropped exactly when the buffer is empty |
| ClientHistory.UnhealthyExactly | rmpc/src/core/client.rs:47-65 | in every run HEALTHY is false if and only if a call under health! or the read of idle events has failed, or the request thread has left its loop, since main last started over |
| ClientHistory.NoCallWhenUnhealthy | rmpc/src/core/client.rs:50-53 | while HEALTHY is false no thread begins a call under health! |
| ClientHistory.IdleLeavesExactly | rmpc/src/core/client.rs:117-166 | the idle thread leaves its loop exactly when a call fails, when it finds HEALTHY false before a call or as its read times out, or when its events cannot be sent |
| ClientHistory.OneNoIdlePerPeriod | rmpc/src/core/client.rs:206-210 | along every run at most one noidle is written between two requests for idle |
| ClientTask.UnhealthyWindsDown | rmpc/src/core/client.rs:47-65 | once HEALTHY is false every thread step and confirmation brings the end nearer |
| ClientTask.RecoveryCompletes | rmpc/src/core/client.rs:263-281 | from any unhealthy state after the first hand-over both threads can end and main reconnects with the client |
| ClientRestart.ServiceResumes | rmpc/src/core/client.rs:95-284 | from every unhealthy state after the first hand-over there is a continuation that ends with both threads running on a newer connection, with nothing queued |
| ClientRestart.MainRetries | rmpc/src/core/client.rs:329-359 | when reconnecting or setting the timeouts fails, main's own steps bring it back to the attempt with the client in its hand |
| ClientTask.FirstHandoverExactly | rmpc/src/core/client.rs:169-170 | while main waits for the first confirmation it can still come if and only if the idle thread has not left its loop |
| ClientTask.StuckForever | rmpc/src/core/client.rs:169-170 | once main waits for the first confirmation and the idle thread has ended, no run ever leaves that wait |
| ClientTask.FirstHandoverCanFail | rmpc/src/core/client.rs:118-131 | a run in which the idle thread fails before the first confirmation and main is left waiting |
| Coalesce.HandleBatch | rmpc/src/core/client.rs:221-255 | the request loop, for every arrival schedule, handles exactly the kept requests in order |
| Coalesce.SkipMeansNotKept | rmpc/src/core/client.rs:67-75 | the skip test is the presence of a later request of the same class among those known |
| Coalesce.SkippedExactly | rmpc/src/shared/mpd_query.rs:48-59 | a request is passed over if and only if it is a query with a replace id and one with the same id, replace id and target waits behind it |
| Coalesce.NeverSkipped | rmpc/src/shared/mpd_query.rs:48-59 | commands, synchronous queries and queries without replace id are always handled |
| Coalesce.SkippedHasSuccessor | rmpc/src/shared/mpd_query.rs:48-59 | a skipped query has a later one of its class in the batch |
| Coalesce.LastOfClassHandled | rmpc/src/core/client.rs:67-75 | behind or at every request of the batch stands a handled one that does the same, so the last of every class is handled |
| Coalesce.HandledInOrder | rmpc/src/core/client.rs:221-230 | the handled requests are a subsequence of the arrivals |
| Enqueue.Mpd.EnqueueItems | rmpc/src/shared/mpd_client_ext.rs:141-189 | succeeds exactly when no failure is more than 255 items behind the last and the socket takes all lines; then every item was tried once and errors counts the failures; otherwise stops at the first such failure, or behind the last list written in full; replacing, nothing of the old queue is left and the queue is exactly the songs, or nothing for a position relative to a current song; not replacing, every old song is still there in order and the current one is current |
| Enqueue.Mpd.EnqueueMultiple | rmpc/src/shared/mpd_client_ext.rs:134-214 | the items are added so, and then, if that succeeded and a song is to be played, it is played unless it is not there, MPD refuses or the socket is broken; the queue is the songs alone if it was to be replaced, and has every old song in order if not |
| Enqueue.Mpd.PlayPositionSafe | rmpc/src/shared/mpd_client_ext.rs:117-133 | plays the song if it is there; an argument error is passed over, any other error and a failed write are returned |
| Enqueue.EnqueuedMeaning | rmpc/src/shared/mpd_client_ext.rs:159-207 | a successful call puts the songs of all good items in as one block, in order, where the position pointed at the start; out of range it changes nothing |
| Enqueue.SpliceInOriginalOrder | rmpc/src/shared/mpd_client_ext.rs:144-153 | reversing for absolute and +n and not for -n and none gives the original order |
| Enqueue.OneBlock | rmpc-mpd/src/queue_position.rs:4-10 | what any sequence of positioned insertions amounts to, current song included |
| Enqueue.RelativePlaces | rmpc-mpd/src/queue_position.rs:3-10 | +n puts the songs behind the current song and n more, -n in front of n songs and the current one, and each is out of range exactly when there are fewer |
| Enqueue.RunListOutcome | rmpc/src/shared/mpd_client_ext.rs:162-182 | one command list does its items up to the first failure and reports its index |
| Enqueue.BatchStep | rmpc/src/shared/mpd_client_ext.rs:182-189 | the three ways a turn of the loop ends |
| Enqueue.GivesUpAt | rmpc-mpd/src/errors.rs:136-142 | a call with a failure more than 255 items behind the last gives up at the first such failure, with exactly the items before it done |
| Enqueue.LateFailureLosesRest | rmpc-mpd/src/errors.rs:136-142 | a failure sent behind any more than 255 items that succeed ends the call, and nothing sent behind it is added |
| Enqueue.AddFiles | rmpc/src/core/command.rs:277-286 | one add per file: succeeds exactly if none fails, with the files as one block in order; otherwise everything up to the first failure was added |
| Stickers.ListStickersMultiple | rmpc-mpd/src/client.rs:804-842 | one entry per song, its stickers or none if refused, for any pattern of refusals; every reply read and none waited for in vain |
| Stickers.FetchSongStickers | rmpc/src/shared/mpd_client_ext.rs:400-446 | the map of every song's own stickers, for any pattern of refusals, with every reply read and none waited for in vain |
| Stickers.MeaningOfIsPerSong | rmpc/src/shared/mpd_client_ext.rs:419-434 | the map of stickers has exactly the songs asked for, each with the last answer given for it |
| Stickers.ReadAnswer | rmpc-mpd/src/commands/stickers.rs:42-55 | one reply of a batch is read back and the rest left |
| Stickers.OtherLinesIgnored | rmpc-mpd/src/commands/stickers.rs:42-55 | lines with another key change nothing, and a sticker line without an equals sign is a parse error |
| Errors.AckRoundTrip | rmpc-mpd/src/errors.rs:197-236 | an ACK line is read back if its index fits u8 and is a parse error otherwise |
| Errors.ParseCodeNumber | rmpc-mpd/src/errors.rs:108-134 | every error code is read back from its number |
| Errors.AckMessage | rmpc-mpd/src/errors.rs:209-217 | the message of an error line is the text behind the braces without the line break |
| Text.ParseDigits | rmpc-mpd/src/errors.rs:205-206 | a written number is read back if the type holds it and refused otherwise |
| Proto.Client.ReadOk | rmpc-mpd/src/proto_client.rs:84-99 | takes one line; a value or an error may lose what was buffered behind it |
| Proto.Client.ReadResponse | rmpc-mpd/src/proto_client.rs:101-123 | reads pairs up to the terminating OK and leaves the rest |
| Proto.ReadOptResponse | rmpc-mpd/src/proto_client.rs:125-150 | reads like read_response, but a reply that is a bare OK is no value at all |
| Proto.ReadOneLine | rmpc-mpd/src/proto_client.rs:228-270 | reading takes exactly one line of the stream and leaves the rest |
| Proto.ReadAck | rmpc-mpd/src/proto_client.rs:263-266 | an error line is read alone, as an MPD error or a parse error |
| Proto.ReadPairExactly | rmpc-mpd/src/proto_client.rs:259-269 | a printed pair is read as that pair exactly when its key is not taken for OK or ACK |
| Proto.SplitPrinted | rmpc-mpd/src/from_mpd.rs:21-30 | splitting a printed pair gives its key and value back |
| Proto.ResponseEnd | rmpc-mpd/src/proto_client.rs:108-110 | a response stops exactly behind its own OK |
| Binary.ArtClient.ReadBin | rmpc-mpd/src/proto_client.rs:152-184 | returns the whole data whatever its bytes, after as few requests as needed but at least two; one refusal is forgiven |
| Binary.ArtClient.Download | rmpc-mpd/src/client.rs:683-689 | the whole picture comes back from the first command on, for any path, with nothing left unread |
| Binary.ReadBinInner | rmpc-mpd/src/proto_client.rs:186-226 | one binary reply: header, payload by length, line break, OK |
| Binary.ReadChunkReply | rmpc-mpd/src/proto_client.rs:190-217 | the payload is delimited by its length alone |
| Binary.FetchedMore | rmpc-mpd/src/proto_client.rs:165-182 | the buffer stays a prefix and the loop stops exactly when it is the data |
| Binary.TrimTakesOffset | rmpc-mpd/src/mpd_client.rs:697-707 | trimming takes the offset and nothing of any path |
| Binary.TrimUnquotedExactly | rmpc-mpd/src/proto_client.rs:166 | without quotes trimming would take the offset alone if and only if the path is not 0 and does not end in a space and 0 |
| Quoting.QuoteAndEscape | rmpc-mpd/src/mpd_client.rs:1160-1174 | the loop yields the quotes around every character escaped on its own |
| Quoting.SplitCommandLine | rmpc/src/shared/args.rs:19-84 | the loop is the run of the tokenizer's automaton over all characters, its three errors included |
| Quoting.QuotingRoundTrip | rmpc/src/shared/args.rs:19-84 | quoting any arguments and joining them with any white space is undone exactly |
| Quoting.QuoteEndsOnce | rmpc-mpd/src/mpd_client.rs:1160-1174 | nothing inside a quoted text closes its quotes |
| CommandLine.CommandLineMeaning | rmpc/src/shared/args.rs:19-84 | any words of bare, escaped, single-quoted and double-quoted pieces, separated by any white space, read as those words |
| CommandLine.UnfinishedLine | rmpc/src/shared/args.rs:69-77 | behind any such line an open single quote, an open double quote and a last backslash are three different errors, the backslash first |
| FilterEscape.ReplacementsAreSimultaneous | rmpc-mpd/src/mpd_client.rs:1152-1158 | the five replacements are one substitution |
| FilterEscape.QueryArrives | rmpc-mpd/src/filter.rs:86-125 | MPD's argument is the expression with every value at filter level, for any values |
| FilterEscape.ValueArrives | rmpc-mpd/src/filter.rs:86-108 | from its opening quote MPD reads exactly the value |
| FilterReading.FiltersArrive | rmpc-mpd/src/filter.rs:86-125 | through both levels of quoting MPD reads exactly the filters of the query, each tag, operator and value, in order |
| Songs.SongListRoundTrip | rmpc-mpd/src/commands/playlist_info.rs:9-20 | reading a printed list gives the list back and stops behind its OK |
| Songs.ReadQueue | rmpc-mpd/src/client.rs:542-544 | playlist_info of a printed queue gives its songs, none when it is empty, and leaves the rest of the stream |
| Songs.ReadInto | rmpc-mpd/src/proto_client.rs:101-123 | reading into a song list in place gives what the parser makes of the reply and leaves the rest of the stream |
| Songs.ReadSongs | rmpc-mpd/src/client.rs:700-706 | list_playlist_info of a printed playlist gives its songs and leaves the rest of the stream |
| Songs.TagsInOrder | rmpc-mpd/src/commands/current_song.rs:75-90 | every tag holds exactly the values printed for it, in order |
| Songs.FieldsInOrder | rmpc-mpd/src/commands/current_song.rs:59-74 | the id is the number of the last id line or 0, duration and dates are what their last lines say or the defaults, time lines change nothing, and none of these keys becomes a tag |
| Songs.RefusedExactly | rmpc-mpd/src/commands/current_song.rs:59-93 | a line is refused if and only if it is an id, a duration or a date that cannot be read |
| Songs.NoEmptyMultipleKept | rmpc-mpd/src/commands/metadata_tag.rs:7-13 | no lines at all can make an empty Multiple |
| Songs.SongList.NextInternal | rmpc-mpd/src/commands/playlist_info.rs:10-19 | a file line pushes one song with that file, any other line leaves all songs but the last as they are |
| Ranges.ForwardRanges.Next | rmpc/src/shared/ext.rs:464-485 | each call yields the next run and leaves the others |
| Ranges.BackwardRanges.NextBack | rmpc/src/shared/ext.rs:437-458 | each call from the back yields the last run still due and leaves the others, without underflow |
| Ranges.RangesAreMaximalRuns | rmpc/src/shared/ext.rs:461-486 | the runs are maximal, ascending and cover exactly the set |
| Ranges.MaximalRunsAreUnique | rmpc/src/shared/ext.rs:461-486 | two lists of maximal runs with the same union are equal |
| Ranges.BackwardIsReverse | rmpc/src/shared/ext.rs:436-459 | rev() yields the exact reverse of the forward list |
| Deletion.DeleteAllKeepsUncovered | rmpc-mpd/src/single_or_range.rs:9-13 | deleting half-open ranges from the highest down keeps exactly the rest in order |
| Deletion.DeleteMarked | rmpc/src/ui/panes/queue.rs:768-778 | deleting the marked songs keeps exactly the unmarked ones in order |
| Deletion.DeleteMultiple | rmpc/src/shared/mpd_client_ext.rs:216-234 | for ascending single positions or ranges of a playlist, adjacent ones included, deletes exactly those or, if one is not there, nothing; for playlists deletes exactly them if all are there |
| Deletion.RangesDeleted | rmpc/src/shared/mpd_client_ext.rs:222-234 | a list of ascending positions or ranges sent from the last to the first keeps exactly the rest in order |
| Deletion.Connection.Remove | rmpc/src/core/command.rs:287-318 | removes exactly the positions, or nothing if one is out of bounds; the command list is left open exactly in the latter case |
| IdleFilter.EventLoop.OnEvent | rmpc/src/core/event_loop.rs:149-174 | every event leaves exactly the counters and pending marks, and causes exactly the effect, of the transition the theorems below are about |
| IdleFilter.MainTask | rmpc/src/core/event_loop.rs:133-174 | the loop over any events it can take goes through exactly the transitions and effects of the model |
| Suppression.ActedUponExactly | rmpc/src/core/event_loop.rs:149-174 | in every run an event of MPD's is acted upon if and only if no ignore of its kind is outstanding and no un-ignore of it awaits its reconcile, and suppressed otherwise |
| Suppression.OneRefresh | rmpc/src/core/event_loop.rs:155-174 | the end of the last own command, any of MPD's events of the kind and any events of other kinds, and the reconcile cause exactly one refresh of the kind, at the reconcile |
| IdleFilter.NeverUnderflows | rmpc/src/core/event_loop.rs:156-157 | with every un-ignore behind its ignore the loop can take all events sent to it, so the counter never underflows |
| IdleFilter.SuppressedIsRemembered | rmpc/src/core/event_loop.rs:346-350 | a kind with a suppressed event is still ignored or has a refresh under way, however timers and cancels race |
| Suppression.MissedIsRemembered | rmpc/src/core/event_loop.rs:346-350 | in every run a kind with an event that was suppressed and not followed by a refresh is still ignored or has its refresh under way |
| Suppression.RefreshComes | rmpc/src/core/event_loop.rs:156-174 | with no command of the kind dropped, the client, the loop, the scheduler and the timer alone bring a refresh behind everything suppressed |
| Suppression.OneReconcilePerBatch | rmpc/src/core/event_loop.rs:155-170 | along every run the timer of a kind fires at most once for each time its last ignore was taken back |
| IdleFilter.RefreshFollows | rmpc/src/core/event_loop.rs:156-174 | with no command of the kind dropped, the client, the loop, the scheduler and the timer alone bring the refresh |
| IdleFilter.SuppressedForGoodExactly | rmpc/src/core/client.rs:339-342 | MPD's events of a kind sent from now on can be acted upon if and only if no command that was to ignore the kind has been dropped |
| IdleFilter.DropSilences | rmpc/src/core/client.rs:339-342 | a run in which one dropped command silences any given kind |
| Sorting.PropertyOrder | rmpc/src/ui/dir_or_song.rs:245-340 | with equal flags every comparison by property is a total preorder |
| Sorting.SongCmpIsKeyOrder | rmpc/src/ui/dir_or_song.rs:342-450 | every comparison by property compares one key of each song: numbers, then text, then nothing |
| Sorting.CompareSongs | rmpc/src/ui/song_ext.rs:36-77 | the loop with its two leading flags yields the song order that is proved a total preorder |
| Sorting.SongsAreOrdered | rmpc/src/ui/song_ext.rs:36-77 | the song order is a total preorder for all options |
| Sorting.CmpIsKeyOrder | rmpc/src/ui/dir_or_song.rs:111-154 | grouped or by time, the comparison is one lexicographic order of the entries' own keys |
| Sorting.EntriesAreOrdered | rmpc/src/ui/dir_or_song.rs:111-154 | grouped or by time, the comparison of entries is a total preorder |
| Sorting.ReverseFlips | rmpc/src/ui/dir_or_song.rs:189 | the reverse option is the exact flip of the comparison, whatever the other options |
| SortingFields.TheIgnored | rmpc/src/shared/cmp.rs:28-58 | with the option on "The x" is where "x" is, in three spellings and no other; with it off it is compared as it stands |
| SortingFields.TagDecides | rmpc/src/ui/dir_or_song.rs:342-450 | title, artist, album, album artist and other tags are compared by all their values joined, songs without the tag last |
| SortingFields.NumberDecides | rmpc/src/ui/dir_or_song.rs:342-450 | tracks, discs and positions that are numbers are ordered by them and come before those that are none |
| SortingFields.NegativeNumber | rmpc/src/ui/dir_or_song.rs:290-340 | tracks and discs may be negative down to the least i32 |
| SortingFields.ByTime | rmpc/src/ui/dir_or_song.rs:111-154 | by time, any two entries are ordered by their own dates of modification |
| MixedLimits.UngroupedOrderExactly | rmpc/src/ui/dir_or_song.rs:156-189 | ungrouped by a format, the comparison is a total preorder if, and for properties that vary on their own only if, each property is placed by what it shows, at most one field that songs may lack comes in, behind those that none lacks, and with leading "the"s ignored there is one property at most |
| MixedSorting.PlacedByKeys | rmpc/src/ui/dir_or_song.rs:156-186 | for such a format a directory is ordered like a song that shows its name in every property, just before it |
| MixedLimits.DatesAreOrdered | rmpc/src/ui/dir_or_song.rs:156-186 | by date of modification, shown with four-digit years, the comparison is a total preorder |
| MixedLimits.UngroupedFormatHasCycle | rmpc/src/ui/dir_or_song.rs:156-186 | by track, track 99, track 100 and the directory 5 are in a circle |
| Sorting.EqIsCompareEqual | rmpc/src/shared/cmp.rs:46-58 | eq and compare agree |
| PaneIter.PaneIter.Next | rmpc/src/config/tabs.rs:953-966 | takes the last leaf still due and leaves the others, and ends |
| PaneIter.CollectPanes | rmpc/src/config/tabs.rs:968-979 | every pane once, from right to left |

## Left out

- Sockets, byte-level reads and timeouts, keepalive, UTF-8 repair and Unicode lower-casing: lines arrive whole, calls fail at any time, lower-casing is ASCII.
- Weak memory orderings: all steps are sequentially consistent.
- The end of rmpcd's worker when every AsyncClient is dropped: a channel without senders is not modelled.
- Callbacks and closures that leave replies of their own commands unread: each is taken to read what it asked for, to fail on a dead connection, or to time out.
- The clearing of the rendezvous channel at the start of each generation: no thread is alive to send on it.
- AsyncClient.WakeupDelivered: after an idle reply with an empty queue the worker waits for the next message and does not go back to idle by itself; nothing is claimed about that.
- ClientRequests.RequestsConserved: requests are counted, not told apart; which of a batch are skipped and in which order they are handled is in Coalesce.
- Enqueue.Mpd.EnqueueMultiple: the status messages are left out; a server that refuses an item because the queue is full is one of the outcomes, and a line whose write fails does not reach MPD.
- Binary.ArtClient.ReadBin: data of 2^32 bytes or more, whose size the client cannot parse.
- Songs.SongListRoundTrip: the syntax of durations and dates; the functions that read them are parameters.
- Sorting.EntriesAreOrdered: case folding, the path library, the parts of a `format` tag and how durations, rates and dates are shown are parameters.
- MixedLimits.UngroupedOrderExactly: for lists that name two of path, stem and extension, a rate together with the `format` tag, or a tag both as text and as number together with a date, only the sufficient half is stated.
- Ranges.ForwardRanges.Next: taking from both ends of one iterator.
- add_to_playlist_multiple with absolute paths, which reads a reply inside an open command list.
- Filters given as a custom query.
- User interface, rendering, images, tmux, Lua, MPRIS, downloads, configuration, logging, command-line parsing.
