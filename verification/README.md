# A verified model of the apostol server's stateful cores

A C++ web application framework keeps several protocols that are easier to get wrong than to
write: a pipelined HTTP/1.1 connection, a log file rotated by many processes, an event loop whose
handlers reuse descriptor numbers, subscribers of a database queue, and a few codecs, filters and
rate limits. This project models them in Dafny 4.11 and proves what they promise.

    dafny verify dfyconfig.toml

| file | what it models |
|---|---|
| `http_connection.dfy` | `HttpConnection`: one request in work, deferred answers, partial writes, file answers, the write throttle, held input, the event mask, the graceful end. Everything outside it is an environment whose script decides how many bytes each transfer moves, what each read returns and what each handler does |
| `http_message.dfy` | `HttpResponse`: edited in place, printed, and read back by an independent line reader |
| `log_rotation.dfy` | `FileTarget` as a protocol of N processes: one step is one system call of one process, steps interleave freely, any process may crash at any step |
| `log_history.dfy` | what any run of that protocol does to the lines written and to the sizes of the files |
| `log_target.dfy` | `FileTarget` as the program writes it, over a kernel in which the other processes run between any two calls; every write is a part of a run of the protocol |
| `event_loop.dfy` | `EventLoop`: batches, handlers as arbitrary finite scripts that open, close, register, throw, stop and poll again, timers, faults, one-shot registrations |
| `notify_subscriber.dfy` | `NotifySubscriber`: take, complete, refuse, drain, stop, the number and its heartbeat, with handlers that call back in |
| `notify_queue.dfy` | any number of subscribers and the queue in the database: fresh tokens, transactions, leases, lost and repeated messages, crashes |
| `base64.dfy` | the encoder, the decoder with its wrapping accumulator, the SMTP client's encoder |
| `smtp_message.dfy` | dot-stuffing and the end of data |
| `fetch_policy.dfy` | prefixes, internal networks, allow rules |
| `respawn.dfy` | the reaping and delayed respawning of child processes |
| `helpers.dfy` | an option type, lower case, and the uniqueness of quotients |

Objects whose methods update their fields are classes; loops are loops. Each class method is proved
against functions or relations of the old and new state, and what the source promises is proved of
those. Lemmas whose names begin with `Kept` list what holds after any run.

What the proofs found:

- In an open state the bytes of an HTTP connection are in order if and only if no transfer has moved
  nothing (`stalled` in the environment). A send of data never does; sendfile does at the end of a file
  that is shorter than announced, which is then closed, and the next answer follows inside it
  (`ShortFile`). A write that fails for good in the drain of the buffer closes the connection, but a
  file queued behind the dropped tail is still sent (`GoneFile`).
- After `stop_keep_alive` the mask is not set anew. While the tail of the last answer goes out and nothing is
  owed, EPOLLIN is still in it, so a further request from the client is taken for a peer that left and the tail
  is dropped (`StoppedTail`). `OnEvent` says that without a sign from the peer this is the only way, for every
  event.
- A result sent without its confirmation would be executed by the database and stay (`ResultAlone`); that it has
  one, and a row one result, is the subscriber's doing (`OneResult`).
- Over the high mark a connection always waits, except while a file is open whose head alone is over
  the mark: the blocked branch of `send_file` makes no throttle check (`LongHead`).
- A registration's age is enough to tell whose event it is as long as holders take a number off the
  loop before they close it; `LeftoverHandlerIsMisled` is a run that shows what can happen otherwise.
- A message comes back from dot-stuffing if and only if no dot in its body follows a LF without CR.
- Any n consecutive deaths of one child take at least n - 5 seconds.

Where the code and its comments differ, the model follows the code: the first delay of a respawn is
2 s (src/core/application.cpp:1857), where the comment above it begins the ramp at 1 s.
The comment at src/net/http.cpp:820 takes EPOLLIN to be off wherever a connection is woken though it does not
read; after `stop_keep_alive` it need not be (`StoppedTail`).

## Model

| member | source | states |
|---|---|---|
| `HttpConnection.Connection.KeptOrder` | src/net/http.cpp:1099-1350 | In every open state of rest, bytes sent, buffered tail and rest of the file together are the answers in request order if and only if no transfer moved nothing; the bytes missing otherwise are counted exactly. Closed, as long as nothing was given up while it was open, what was sent is the start of them unless a file went out behind a dropped tail; a graceful end leaves nothing unsaid |
| `HttpConnection.Connection.KeptWork` | src/net/http.cpp:842-881 | One request in work; each request went to its handler once, in order; each answer is, byte for byte, the one its handler gave or, when it deferred, the one its module gave later for that request; only a last one may carry the close mark; a malformed request is answered with the 400 |
| `HttpConnection.Connection.KeptInput` | src/net/http.cpp:883-1004 | The dispatched requests are the parse of the bytes read, whatever the chunks; while reading goes on nothing read is skipped |
| `HttpConnection.Connection.KeptMemory` | src/net/http.cpp:1117-1144 | The tail is bounded by the high mark and one answer, held input by one read; over the high mark requests wait, but for a file whose head alone is over it, and the throttle ends only at the low mark or below |
| `HttpConnection.Connection.KeptHearing` | src/net/http.cpp:1352-1383 | No open connection is deaf, before or after stop_keep_alive: with nothing owed and nothing to write it is woken to read, with held input or a tail it is woken to write, an owed one hears the peer leave. It is never woken to read while an answer is owed or the tail is throttled, and once it stopped reading only while the tail of its last answer goes out after stop_keep_alive |
| `HttpConnection.Connection.KeptEnd` | src/net/http.cpp:866-880 | Reading stops exactly when the connection is to close, and only for a reason; nothing follows a request that ends the connection, and its answer says so; after stop_keep_alive at most one more answer, which says so |
| `HttpConnection.Connection.KeptReasons` | src/net/http.cpp:815-1158 | A closed connection was half-closed after stop_keep_alive, a refused request or one that ends the connection, or a sign came that the peer or the loop has let it go, a transfer moved nothing, or it was woken while it does not read; and while it is open, something is buffered or a file is open only if a transfer would once have blocked |
| `HttpConnection.Connection.Undisturbed` | src/net/http.cpp:842-922 | With no transfer that blocks or fails, a client that stays, and handlers that answer at once, in every state of rest the connection is open, reading and owes nothing: each request read has its answer, as its handler gave it, and the peer has all bytes |
| `HttpConnection.ServeAll` | src/net/http.cpp:883-922 | Over any input of whole requests in any pieces with any pauses, woken while something is there to read: exactly the requests of the whole input are dispatched, each answered as its handler did, and all answers are with the peer |
| `HttpConnection.ServeFrames` | src/net/http.cpp:883-922 | So pipelined requests come out as they were put in, and their replies, in order, are what the peer was given |
| `HttpConnection.StreamIsRead` | src/net/http.cpp:1099-1258 | A client that takes each answer's head, then as many bytes as its Content-Length says, reads a stream of answers as exactly these answers, to its end |
| `HttpConnection.FileIsRead` | src/net/http.cpp:1188-1193 | A file answer is read as a 200 with its type, the length of its content, the close header exactly when marked, and then its content |
| `HttpConnection.LastIsRead` | src/net/http.cpp:1106-1193 | An answer that is the last, reply or file, is read with its close header |
| `HttpConnection.MarkedOnly` | src/net/http.cpp:1106-1115 | The mark changes nothing but the Connection header |
| `HttpConnection.NotFoundSays` | src/net/http.cpp:1160-1179 | The 404 of a file that cannot be sent, header by header |
| `HttpConnection.BadRequestSays` | src/net/http.cpp:957-993 | The 400: its status, its close header and its type |
| `HttpConnection.Serve` | src/net/http.cpp:815-1416 | Any list of events, late answers, late files and stops, over any environment, ends at rest with all that is kept; what answers a deferred request is what some step gave |
| `HttpConnection.TakeStep` | src/net/http.cpp:1006-1029 | Each event, each late answer or file and each stop leads from rest to rest; a late one is begun as the answer to the request that is owed one, is recorded as that request's, and nothing else touches that record; requests, handler calls, answers, bytes sent and bytes read only grow; a stop is for good and keeps its mark |
| `HttpConnection.StopAndServe` | src/net/http.cpp:1385-1416 | From stop_keep_alive on, over any further steps, at most one more answer is started, and it says that it is the last |
| `HttpConnection.Connection.SameInputSameRequests` | src/net/http.cpp:883-909 | The dispatched requests depend on the bytes alone, not on their chunks or on when answers went out |
| `HttpConnection.ParseConcat` | src/net/http.cpp:743-769 | Whole requests one after another come out as they were put in |
| `HttpConnection.ParseExtends` | src/net/http.cpp:743-769 | More input never changes a request already found |
| `HttpConnection.ShortFile` | src/net/http.cpp:1326-1342 | A run in which sendfile ends n bytes into the file: the connection stays open with the announced rest missing, so the order of the stream is lost |
| `HttpConnection.GoneFile` | src/net/http.cpp:1287-1300 | A run in which the tail meets a fatal error: the connection closes, the tail is dropped, and the file behind it is still sent whole |
| `HttpConnection.LongHead` | src/net/http.cpp:1234-1242 | A run in which a head longer than the high mark is buffered and reading is not throttled |
| `HttpConnection.StoppedTail` | src/net/http.cpp:826-833 | A run in which the answer's tail is going out when stop_keep_alive comes and the client sends another request: the connection is given up and the whole answer is dropped, though nothing says that the peer left |
| `HttpConnection.Connection.DrainTail` | src/net/http.cpp:1287-1316 | The loop over the writes of the tail goes exactly as its transfers go |
| `HttpConnection.Connection.DrainBoth` | src/net/http.cpp:1267-1274 | The tail and then the file, exactly as their transfers go; the file is moved also when the tail has closed the connection |
| `HttpConnection.AnswerLate` | src/net/http.cpp:1099-1158 | The late answer is the next one, marked when it is the last, and is recorded as what the module gave to that request |
| `HttpConnection.AnswerLateFile` | src/net/http.cpp:1160-1258 | ... and so is a late file |
| `HttpConnection.Connection.OnEvent` | src/net/http.cpp:1006-1029 | An event keeps rest and takes nothing of the histories back; the descriptor is kept exactly when the connection is open. Without a sign that the peer left, and input reported only when the mask has it, the connection is given up if and only if it is woken to read while, reading stopped, the tail of its last answer is still going out after the event's own writes; before stop_keep_alive that cannot be. With no writable part it is given up exactly when it is woken and does not read, and then nothing is read, sent or dispatched. Whenever it is still reading afterwards, nothing is held and the dispatched requests are the parse of all that was read; and with a sign to read, or held input before, all that could be read before the first empty read is read |
| `HttpConnection.Connection.OnReadable` | src/net/http.cpp:815-923 | Woken while an answer is owed, reading has stopped or the tail is throttled, and only then, it is counted as given up: closed, with nothing read, sent or dispatched; otherwise it reads, dispatches, and leaves a closed connection or a sound mask, and if it is still reading, all that could be read is read and nothing is held |
| `HttpConnection.Connection.ReadAndFeed` | src/net/http.cpp:883-909 | Held input first, then the socket until a read finds nothing: if the connection is still reading at the end, nothing is held, all bytes that could be read before the first read that finds nothing are in, and the reads stand right behind it |
| `HttpConnection.Connection.Feed` | src/net/http.cpp:743-769 | The parser takes a prefix of the input, pauses after a request that must wait, and refuses a malformed byte |
| `HttpConnection.Connection.FeedInput` | src/net/http.cpp:925-1004 | What the parser leaves is held, or dropped once reading has stopped; a malformed request has its 400 as the answer after all requests' |
| `HttpConnection.Connection.AnswerBadRequest` | src/net/http.cpp:957-993 | The answer appended is the 400 with the parser's error; then reading stops and the connection is to close |
| `HttpConnection.Connection.Dispatch` | src/net/http.cpp:842-881 | The handler is called with the request, once; deferred, nothing is written and the answer is owed; otherwise the answer appended is what the handler gave, marked only as the last; the parser holds exactly when the next request may not start |
| `HttpConnection.Connection.RunHandler` | src/net/http.cpp:842-856 | The scripted action is what the handler does: it fills its response, sends an answer that is the action's, or leaves; in place and deferred nothing has moved yet |
| `HttpConnection.Connection.EndRequest` | src/net/http.cpp:873-880 | Deferred and unanswered means awaited; a request without keep-alive stops the reading |
| `HttpConnection.Connection.SendResponse` | src/net/http.cpp:1099-1158 | The answer appended is the response, marked when it is the last; it is written as its transfers go or queued behind a tail; afterwards, outside a dispatch, the mask is the one wanted, and only a peer or loop that has let go closes before the last answer; on a closed connection nothing changes |
| `HttpConnection.Connection.ResponseStarted` | src/net/http.cpp:1053-1076 | The next answer in line is the one that starts; an answer that is not owed does not come here |
| `HttpConnection.Connection.AnswerStarts` | src/net/http.cpp:1053-1076 | Starting the answer that is due keeps order, memory bound, turn, last answer and drain |
| `HttpConnection.Connection.Deliver` | src/net/http.cpp:1117-1158 | With nothing ahead of it, sent as far as its transfers go: the rest becomes the tail when the socket blocks and is counted when a transfer moves nothing, and the connection closes exactly when the peer is gone; behind a tail, all of it joins the tail. Either way over the high mark throttles |
| `HttpConnection.Connection.WriteOut` | src/net/http.cpp:1125-1155 | The loop over writes goes exactly as its transfers go: how it ends, what it sent, what is left of the data and of the transfers |
| `HttpConnection.Connection.WriteNow` | src/net/http.cpp:1125-1155 | With nothing ahead: what the transfers took is sent, what is left is the tail, given up and counted, or closes the connection, as the last transfer says; over the high mark it throttles unless a file follows |
| `HttpConnection.Connection.Enqueue` | src/net/http.cpp:1117-1123 | Data behind a tail: the tail grows by it, and over the high mark it throttles |
| `HttpConnection.Connection.SendFile` | src/net/http.cpp:1160-1258 | A missing or irregular file is answered with the 404, any other with head and content, in its turn, marked when it is the last, as the transfers go |
| `HttpConnection.Connection.SendOpened` | src/net/http.cpp:1183-1258 | The file answer carries the close mark exactly when it is the last, and is begun as its transfers go |
| `HttpConnection.Connection.DeliverFile` | src/net/http.cpp:1196-1258 | With nothing ahead, head and then content go out as their transfers go: the head's rest is buffered, the content's rest stays in the file, and a transfer that moves nothing gives up what is left; behind a tail both are queued; a file behind a file does not occur |
| `HttpConnection.Connection.OnWritable` | src/net/http.cpp:1260-1280 | Writes exactly what the transfers take of the tail and then of the file, the file even when the tail has closed the connection; more is left exactly when one of them would block, otherwise an open connection has a sound mask and waits for nothing it should close after |
| `HttpConnection.Connection.DrainBuffer` | src/net/http.cpp:1287-1316 | The tail goes as its transfers go: false exactly when the socket blocks, closed exactly when the peer is gone, which drops the tail, or a write moves nothing; the throttle ends exactly when what is left is at the low mark |
| `HttpConnection.Connection.DrainSome` | src/net/http.cpp:1287-1316 | One write of the tail moves what the transfer says; the throttle clears exactly when bytes moved and the tail is at the low mark; a write that moves nothing closes |
| `HttpConnection.Connection.DrainFile` | src/net/http.cpp:1318-1350 | Moves the file as the transfers go, until it is out, the socket blocks, or it ends early; then it is closed, and what was announced and not sent on an open connection is counted lost |
| `HttpConnection.Connection.UpdateInterest` | src/net/http.cpp:1352-1383 | The mask set is the one wanted, woken for what is left to do and not woken to read what must wait; it closes only when the loop has let the descriptor go |
| `HttpConnection.Connection.WantedOk` | src/net/http.cpp:1352-1383 | The mask wanted leaves no open connection deaf, also one that stopped reading |
| `HttpConnection.Connection.AfterResponse` | src/net/http.cpp:1078-1097 | Outside a dispatch the connection closes gracefully when its last answer is out, and otherwise sets its mask and closes only when the loop has let go; inside, nothing changes |
| `HttpConnection.Connection.Settle` | src/net/http.cpp:911-922 | The same at the end of a dispatch |
| `HttpConnection.Connection.Finish` | src/net/http.cpp:1031-1042 | The half-close happens only with every answer sent whole |
| `HttpConnection.Connection.StopKeepAlive` | src/net/http.cpp:1385-1416 | At rest before and after; closes at once exactly when nothing is owed, pending, held, half-read or waiting in the socket; the answers started so far are marked |
| `HttpConnection.Connection.BeginDrain` | src/net/http.cpp:1385-1398 | From here each answer is the last; with one at work it is that one, and nothing more is read; the mark is the number of answers started at the first stop |
| `HttpConnection.Connection.DeferredDue` | src/net/http.cpp:1053-1076 | The awaited answer is the next one in order, and its handler deferred it |
| `HttpConnection.Connection.ProperGiven` | src/net/http.cpp:1053-1076 | Whatever a module gives to the request it deferred is the answer due, marked only when reading has stopped |
| `HttpConnection.MarkedCloses` | src/net/http.cpp:1106-1115 | The last answer says close |
| `HttpConnection.BadRequestCloses` | src/net/http.cpp:973-976 | The 400 says close |
| `HttpConnection.Connection.constructor` | src/net/http.cpp:802-807 | A new connection is at rest, reading, with nothing owed |
| `HttpMessage.RoundTrip` | src/net/http.cpp:389-419 | A line reader gets back the status, the response's own headers, each in its place, behind them the length of the body unless the body is suppressed and a header of the response names a length, and the body, empty when suppressed: no value makes a line of its own |
| `HttpMessage.SerializedInjective` | src/net/http.cpp:389-419 | Two responses printed alike say the same |
| `HttpMessage.LengthIsTrue` | src/net/http.cpp:389-419 | The announced length is the body's length |
| `HttpMessage.CloseIsRead` | src/net/http.cpp:389-419 | A response with a close header is read as one that says close |
| `HttpMessage.HeaderSafe` | src/net/http.cpp:262-272 | A value is cut at its first control character |
| `HttpMessage.HeaderNameOk` | src/net/http.cpp:274-287 | A name is accepted exactly when it is a token of visible characters without a colon |
| `HttpMessage.ReplacedAt` | src/net/http.cpp:304-317 | Setting a header replaces the first of that name in place |
| `HttpMessage.ReplacedAbsent` | src/net/http.cpp:304-317 | ... and appends one when there is none |
| `HttpMessage.WithoutHeaders` | src/net/http.cpp:328-335 | Deleting a header leaves exactly the headers of other names |
| `HttpMessage.SetKeepsWellFormed` | src/net/http.cpp:304-317 | Setting any strings keeps every header on one line |
| `HttpMessage.SetCloseSaysClose` | src/net/http.cpp:344-349 | After set_close the response says close |
| `HttpMessage.HttpResponse.SetHeader` | src/net/http.cpp:304-317 | Replaces or appends, cut; a bad name changes nothing |
| `HttpMessage.HttpResponse.AddHeader` | src/net/http.cpp:319-326 | Appends, cut; a bad name changes nothing |
| `HttpMessage.HttpResponse.DelHeader` | src/net/http.cpp:328-335 | Removes every header of that name |
| `HttpMessage.HttpResponse.SetStatus` | src/net/http.cpp:289-295 | The status text is cut like a value |
| `HttpMessage.HttpResponse.SetBody` | src/net/http.cpp:337-342 | Sets the body and its content type |
| `HttpMessage.HttpResponse.SetCloseHeader` | src/net/http.cpp:344-349 | The response says close when asked to |
| `HttpMessage.HttpResponse.Clear` | src/net/http.cpp:378-387 | Back to the empty 200 |
| `HttpMessage.HttpResponse.Serialize` | src/net/http.cpp:389-419 | After any calls, what is printed is read back as the status, the headers set, the length and the body of this response |
| `HttpMessage.HttpResponse.NamesLength` | src/net/http.cpp:399-410 | Whether a suppressed response names its own length, in any case of letters |
| `HttpMessage.DecimalValue` | src/net/http.cpp:392-415 | The printed length is the number meant |
| `LogHistory.PlainRun` | src/log/logger.cpp:240-282 | Compression off: in every reachable state, even inside a rotation, what was unlinked as oldest, then backups N to 1, then the current file are the history of all lines written by all processes |
| `LogHistory.StepPlain` | src/log/logger.cpp:240-282 | Only unlinking the oldest backup gives lines up, and it gives up exactly that backup's |
| `LogHistory.ChainShifts` | src/log/logger.cpp:246-252 | A backup moved up into an empty place leaves the chain as it read |
| `LogHistory.KeptRun` | src/log/logger.cpp:257-306 | Compression on, or off: every line ever written is in the current file, a staged file or a backup, or went with the oldest backup, crashes and overlapping rotations included |
| `LogHistory.StepKept` | src/log/logger.cpp:240-306 | A line stored before a step is stored after it, or was in the backup unlinked as oldest |
| `LogHistory.StagedRun` | src/log/logger.cpp:288-306 | A staged file stays as it was renamed until all its lines are backup 1 |
| `LogHistory.StepStaged` | src/log/logger.cpp:284-306 | Nobody's step changes a staged file; its own process removes it only when its lines are in backup 1 |
| `LogHistory.StagingNameIsFree` | src/log/logger.cpp:267-271 | The staging name never meets another staged file |
| `LogHistory.SizeRun` | src/log/logger.cpp:331-371 | N processes with lines of at most L bytes keep every file below max_size + N * L |
| `LogHistory.StepBounded` | src/log/logger.cpp:331-371 | The bound, with the room kept for the processes about to write, is kept by each step |
| `LogHistory.StepReady` | src/log/logger.cpp:184-219 | A process becomes ready to write only on a file found, or made, small enough |
| `LogHistory.RunSound` | src/log/logger.cpp:331-375 | The invariant holds in every state of every interleaving |
| `LogHistory.TakenRun` | src/log/logger.cpp:355-366 | In no run, at no step, does a file lose the log's name that is below the limit at that moment: of several processes that found one file too large, one rotates it |
| `LogHistory.StepTakes` | src/log/logger.cpp:355-366 | A step that takes the log's name off a file takes it off a file of at least max_size bytes |
| `LogHistory.StepDrops` | src/log/logger.cpp:240-253 | Lines are given up only with the oldest backup, and exactly its lines |
| `LogHistory.InitSound` | src/log/logger.cpp:155-161 | Idle processes over the files a former run left satisfy it, and none has judged a file |
| `LogHistory.InitBounded` | src/log/logger.cpp:155-161 | Over the files a former run left, the bound on sizes holds at the start exactly when it holds of each file; as many processes leave it so |
| `LogRotation.StepSound` | src/log/logger.cpp:331-375 | Each system call of each process keeps names, locks and every process's place in the protocol |
| `LogRotation.LocksKept` | src/log/logger.cpp:115-149 | Exclusive excludes all other holders although the conversion releases first |
| `LogRotation.FilesOfWrite` | src/log/logger.cpp:240-282 | No step of a write or a rotation gives a file two names |
| `LogTarget.TargetsKeepHistory` | src/log/logger.cpp:331-375 | Whatever the targets of all processes have done, the history is in the files or went with the oldest backup; without compression the files are its end, in order; and no file below the limit was ever rotated |
| `LogTarget.FileTarget.WriteText` | src/log/logger.cpp:331-375 | A write that returns is part of a run of the protocol and has put its line after everything written before it began |
| `LogTarget.FileTarget.Prepare` | src/log/logger.cpp:340-366 | After the checks and a rotation the process holds a lock, on a file below the limit |
| `LogTarget.FileTarget.LookAgain` | src/log/logger.cpp:350-362 | Too large under the shared lock, the file is judged once more under the exclusive one: if the file the path then names is below the limit, nothing is staged and the path still names that file; otherwise it is rotated away |
| `LogTarget.FileTarget.FollowPath` | src/log/logger.cpp:204-219 | The descriptor and the size are those of the file the path names at a moment of the call |
| `LogTarget.FileTarget.Rotate` | src/log/logger.cpp:255-282 | After a rotation the process is on a new, empty file under the exclusive lock; the staged file is the old one |
| `LogTarget.FileTarget.ShiftBackups` | src/log/logger.cpp:240-253 | The loop makes the protocol's unlink and renames, in its order |
| `LogTarget.FileTarget.FinishRotation` | src/log/logger.cpp:288-306 | Compression, the chain and the placing are the protocol's steps, in its order |
| `LogTarget.Kernel.Stat` | src/log/logger.cpp:207-216 | The file the path names at that moment |
| `LogTarget.Kernel.OpenLog` | src/log/logger.cpp:183-201 | The file opened is the one the path names, and its size; after a rotation it is empty |
| `LogTarget.Kernel.WriteLine` | src/log/logger.cpp:368-370 | The line goes to the end of the file the path names |
| `EventLoops.EventLoop.Kept` | src/core/event_loop.cpp:89-138 | With numbers taken off the loop before they are closed: every callback that ran belonged to the registration, and the file, the event was collected for; the log has a timer's stamp at most once for each expiry the timer read itself, and a one-shot's at most once |
| `EventLoops.OldEntryIsHolder` | src/core/event_loop.cpp:116-138 | An entry no newer than the batch is the one that held the number when the event was raised |
| `EventLoops.LeftoverHandlerIsMisled` | src/core/event_loop.cpp:116-138 | A run of the loop without that discipline: a handler left behind under a closed number hears an event raised for a timer that another handler of the batch cancelled |
| `EventLoops.EventLoop.PollOnce` | src/core/event_loop.cpp:89-156 | Whatever can be reported is collected, with the registration that then holds its number; unless the loop is stopped or a timer throws, every event collected has its turn; with one-shot registrations, stopped or not, each event collected had its turn, or its number is armed again, off the loop, or with a newer registration |
| `EventLoops.EventLoop.DispatchEvent` | src/core/event_loop.cpp:116-138 | An entry registered after the batch was collected is not called and nothing changes; an older handler is called, first of all, for this event, and an older timer that reads an expiry fires |
| `EventLoops.EventLoop.DispatchIo` | src/core/event_loop.cpp:226-255 | The entry's callback runs for the event; a registration that has thrown before is gone afterwards |
| `EventLoops.EventLoop.IoHandlerThrew` | src/core/event_loop.cpp:257-299 | A throw touches no other registration; its own is marked, with end of input in its mask, or gone |
| `EventLoops.EventLoop.DispatchTimer` | src/core/event_loop.cpp:448-475 | Fires exactly when it reads an expiry; a one-shot is gone after it; without an expiry nothing changes |
| `EventLoops.EventLoop.ReadTimer` | src/core/event_loop.cpp:448-456 | A read tells whether there was an expiry and takes it |
| `EventLoops.EventLoop.Collect` | src/core/event_loop.cpp:89-107 | Events are raised for the files the numbers name now, in the order reported; whatever can be reported is; a one-shot registration is disarmed |
| `EventLoops.EventLoop.RearmRest` | src/core/event_loop.cpp:140-154 | Stopped inside a batch, every event not heard whose registration still stands is armed again |
| `EventLoops.EventLoop.AddIo` | src/core/event_loop.cpp:181-192 | A new registration is newer than every batch collected; a number watched or not open throws |
| `EventLoops.EventLoop.RemoveIo` | src/core/event_loop.cpp:391-395 | The entry is gone, the others stay |
| `EventLoops.EventLoop.ModifyIo` | src/core/event_loop.cpp:313-347 | The mask changes, or the registration that went with its descriptor is dropped, or it throws |
| `EventLoops.EventLoop.RearmIo` | src/core/event_loop.cpp:349-389 | The registration is armed again, or dropped when it is gone; others stay |
| `EventLoops.EventLoop.AddTimer` | src/core/event_loop.cpp:399-433 | A new timer under a number nobody has, newer than every batch collected |
| `EventLoops.EventLoop.CancelTimer` | src/core/event_loop.cpp:435-446 | The timer and its number are gone, the others stay |
| `EventLoops.EventLoop.CloseFd` | include/apostol/event_loop.hpp:94-96 | Closing a number that is still registered is what the discipline forbids; nothing else breaks it but registering over a timer |
| `EventLoops.EventLoop.RunFor` | src/core/event_loop.cpp:56-87 | Pumped from inside a handler, the loop keeps the invariant and running is put back unless it throws; each poll is made unless the loop was stopped, every batch but the last has all its turns, and no event collected in any batch is lost: it had its turn, or its registration is armed or gone |
| `EventLoops.EventLoop.Handle` | src/core/event_loop.cpp:226-242 | Any handler, with any nested polls and throws out of it or out of a call it makes, keeps the invariant |
| `NotifyQueue.OneResult` | include/apostol/notify_subscriber.hpp:41-45 | Over any run of any subscribers from the start: a row is confirmed once at most, exactly when it is closed as done, and every result the database has executed stands directly before the confirmation it was sent with: one for a row at most, and none for a row that is not done |
| `NotifyQueue.LateConfirmation` | include/apostol/notify_subscriber.hpp:41-45 | From the start there is a run in which a row is given out, loses its lease, is given out again, is confirmed by both with the late one first, and is closed with the second one's result executed alone |
| `NotifyQueue.ResultIsItsSubscribers` | src/dbplatform/notify_subscriber.cpp:327-380 | What was confirmed under a token, with its result, was sent in one batch, by its subscriber or by a module itself; sent by the subscriber it is the only thing sent under that token, and nobody refused it |
| `NotifyQueue.DoneForGood` | include/apostol/notify_subscriber.hpp:41-45 | A row done stays done, with the confirmation that closed it and the result executed with it, whatever expires, repeats or crashes |
| `NotifyQueue.RunSound` | src/dbplatform/notify_subscriber.cpp:275-408 | The invariant of queue, subscribers and messages holds along every run, modules that confirm by themselves included |
| `NotifyQueue.StepSound` | src/dbplatform/notify_subscriber.cpp:176-568 | Each step keeps it: numbers given and forgotten, takes, handlers, settlements, expiries, losses, repeats, crashes |
| `NotifyQueue.ExecutedOk` | include/apostol/notify_subscriber.hpp:41-45 | Whatever batch arrives from whomever, a row is confirmed once at most and exactly when it is done, and nothing executed is taken back |
| `NotifyQueue.ResultAlone` | src/dbplatform/notify_subscriber.cpp:106-119 | The database alone does not tie a result to its confirmation: one sent without it is executed and stays |
| `NotifyQueue.CommitExecuted` | src/dbplatform/notify_subscriber.cpp:106-119 | Under the current token a confirmation leaves its result, executed, and itself; under any other its result is rolled back with it |
| `NotifyQueue.ExecutedWrites` | src/dbplatform/notify_subscriber.cpp:106-119 | Of the batches a subscriber sends, only a confirmation leaves anything: its own result and then itself |
| `NotifyQueue.TookMoves` | src/dbplatform/notify_subscriber.cpp:275-325 | A take adds that row only and sends nothing; after the stop it is refused at once and the subscriber is as it was |
| `NotifyQueue.TookAndHandledMoves` | src/dbplatform/notify_subscriber.cpp:275-325 | A row that arrives, with whatever its handler calls and whether it throws, adds at most that row and settles only rows let go of |
| `NotifyQueue.NumberedMoves` | src/dbplatform/notify_subscriber.cpp:204-256 | A number, with whatever its handler calls, settles only rows let go of |
| `NotifyQueue.ForgotMoves` | src/dbplatform/notify_subscriber.cpp:503-568 | So does a number the database has forgotten |
| `NotifyQueue.CalledMoves` | src/dbplatform/notify_subscriber.cpp:327-535 | A module's call settles only rows the subscriber lets go of |
| `NotifySubscribers.NotifySubscriber.Kept` | src/dbplatform/notify_subscriber.cpp:327-535 | Per row and token at most one ack or nack; a row given is with the module, settled once, or shadowed by an overlapping take; every number answered is in use, given back or forgotten; a stopped subscriber has no number and no row, and has given back every number it was ever answered and did not forget |
| `NotifySubscribers.NotifySubscriber.CompleteRow` | src/dbplatform/notify_subscriber.cpp:327-380 | The row leaves the module and its result and ack go out in one batch; a row not held sends nothing |
| `NotifySubscribers.NotifySubscriber.RefuseRow` | src/dbplatform/notify_subscriber.cpp:382-408 | The row leaves the module and its nack goes out; a row not held sends nothing |
| `NotifySubscribers.NotifySubscriber.Stop` | src/dbplatform/notify_subscriber.cpp:442-499 | Exactly the rows held are refused, after the drain and before the number is given back, in one batch, after which no number and no row is left; a second stop sends nothing |
| `NotifySubscribers.NotifySubscriber.Deregister` | src/dbplatform/notify_subscriber.cpp:458-498 | The batch of the stop, and nothing when there is nothing to say |
| `NotifySubscribers.NotifySubscriber.Drain` | src/dbplatform/notify_subscriber.cpp:412-438 | Said once, and only with a number |
| `NotifySubscribers.NotifySubscriber.OnWake` | src/dbplatform/notify_subscriber.cpp:261-289 | A take is sent only by a subscriber with a number that neither drains nor stops, for a row it does not have |
| `NotifySubscribers.NotifySubscriber.OnTaken` | src/dbplatform/notify_subscriber.cpp:275-325 | The row goes to the module, or back after the stop; a handler that throws refuses it |
| `NotifySubscribers.NotifySubscriber.OnSubscribeAnswer` | src/dbplatform/notify_subscriber.cpp:176-202 | Every number answered enters the ledger once, and is used or given back: after the stop it is drained and given back at once, exactly once, and no number is kept; a failure or no number changes nothing and arms the retry unless draining |
| `NotifySubscribers.NotifySubscriber.OnSubscribed` | src/dbplatform/notify_subscriber.cpp:204-256 | A number that comes after the stop is given back at once and not kept; one that comes while draining is drained; otherwise its handler runs with it |
| `NotifySubscribers.NotifySubscriber.OnHeartbeat` | src/dbplatform/notify_subscriber.cpp:503-568 | A number the database does not know is forgotten, once, and another is asked for unless the handler stopped it; a known one runs its handler; a failed or stale answer changes nothing |
| `NotifySubscribers.NotifySubscriber.SubscribeNow` | src/dbplatform/notify_subscriber.cpp:159-175 | At most one subscribe is under way, and only without a number |
| `NotifySubscribers.NotifySubscriber.RunHandler` | src/dbplatform/notify_subscriber.cpp:314-325 | A handler's calls are applied in order |
| `NotifySubscribers.StopSettles` | src/dbplatform/notify_subscriber.cpp:458-476 | The batch of the stop settles each held row once and gives the number back |
| `NotifySubscribers.NacksSettle` | src/dbplatform/notify_subscriber.cpp:465-471 | The refusals are of the rows with the module, each once |
| `NotifySubscribers.AckSql` | src/dbplatform/notify_subscriber.cpp:106-119 | The result less its closing separators, then the confirmation, which no comment in the result swallows |
| `NotifySubscribers.RowsByTaking` | src/dbplatform/notify_subscriber.cpp:307-313 | A row under a new token is held, or shadowed when the module has the id already |
| `Base64.RoundTrip` | src/core/base64.cpp:15-100 | Every string of octets comes back |
| `Base64.Decode` | src/core/base64.cpp:69-100 | The wrapping accumulator computes what the groups of four say, spaces skipped, cut at the padding; anything else is an error |
| `Base64.AccumStep` | src/core/base64.cpp:90-97 | The bits that wrap out of 32 were written long before; the bits still needed are in place |
| `Base64.OneMore` | src/core/base64.cpp:90-97 | One more sextet completes exactly the octet the group's 24 bits have there |
| `Base64.Encode` | src/core/base64.cpp:15-46 | The loop over whole groups and the padded rest is the encoding by 24-bit groups |
| `Base64.EncodeForSmtp` | src/core/smtp_client.cpp:271-294 | The SMTP client's encoder agrees with it |
| `Base64.EncodedLength` | src/core/base64.cpp:15-46 | 4 * ceil(n / 3) characters |
| `Base64.SpaceAnywhere` | src/core/base64.cpp:77-79 | A space inserted anywhere changes nothing |
| `Base64.FailsExactly` | src/core/base64.cpp:82-88 | Decoding fails exactly when a character that is neither digit nor space stands before the padding |
| `Base64.BuildDecodeTable` | src/core/base64.cpp:48-67 | The table holds each digit's value and nothing else |
| `SmtpMessages.EndComesOnce` | src/core/smtp_client.cpp:201-208 | For header fields without line ends and every body, the end of data occurs at the very end of what is sent and nowhere before |
| `SmtpMessages.MessageComesBack` | src/core/smtp_client.cpp:298-329 | Cut there and unstuffed the message comes back, if and only if no dot follows a bare LF in the body |
| `SmtpMessages.BareLineFeed` | src/core/smtp_client.cpp:318-326 | A body for which it does not: the receiver reads two dots |
| `SmtpMessages.BuildMessageData` | src/core/smtp_client.cpp:298-329 | The loop stuffs every dot that begins a line, after the headers or a raw MIME body's own |
| `SmtpMessages.StuffedDoubles` | src/core/smtp_client.cpp:318-326 | Every dot that begins a line is followed by another |
| `SmtpMessages.UnstuffStuffed` | src/core/smtp_client.cpp:318-326 | What the receiver reads, for every body |
| `SmtpMessages.PreamblePlain` | src/core/smtp_client.cpp:303-316 | No header line begins with a dot |
| `SmtpMessages.HeadersAreRead` | src/core/smtp_client.cpp:308-315 | A reader of header lines finds the sender, every recipient in order, the subject, the version and the type, then the empty line, and then exactly the body |
| `SmtpMessages.HeadersUnlessRaw` | src/core/smtp_client.cpp:303-316 | They stand before the body unless it brings MIME-Version and Content-Type itself |
| `FetchPolicy.PrefixIsDivision` | src/core/fetch_policy.cpp:62-72 | Byte and mask: the prefix matches exactly when the addresses divided by 2^(width - prefix) are equal, at every width and prefix |
| `FetchPolicy.MaskDivides` | src/core/fetch_policy.cpp:70-71 | The masked bytes are equal exactly when the divided bytes are |
| `FetchPolicy.PrefixIsInterval` | src/core/fetch_policy.cpp:62-72 | A network with zero host bits is an interval of numbers |
| `FetchPolicy.InternalIsRanges` | src/core/fetch_policy.cpp:74-96 | Internal IPv4 is exactly a union of intervals |
| `FetchPolicy.InternalV6IsRanges` | src/core/fetch_policy.cpp:98-119 | An address that carries an IPv4 address is judged as that one, any other by its networks' divisions |
| `FetchPolicy.InternalV6Bytes` | src/core/fetch_policy.cpp:98-119 | Internal IPv6, of an address that carries no IPv4 address, byte by byte |
| `FetchPolicy.CarriedIsRanges` | src/core/fetch_policy.cpp:98-110 | 64:ff9b::a.b.c.d and 2002: with the four bytes are judged by the intervals of the IPv4 address |
| `FetchPolicy.FetchAddressPolicy.Check` | src/core/fetch_policy.cpp:266-293 | The loop over the rules permits exactly what is not internal or is admitted by some rule |
| `FetchPolicy.AdmitsMeans` | src/core/fetch_policy.cpp:278-289 | A rule admits nothing on another port; under a name that name only, within a network exactly the addresses of its width with the same quotient by 2^(width - prefix) |
| `FetchPolicy.AdmitsExtremes` | src/core/fetch_policy.cpp:278-289 | Prefix 0 admits the whole family, the full prefix one address |
| `FetchPolicy.HostForms` | src/core/fetch_policy.cpp:276 | Brackets around the host and the case of its letters make no difference |
| `FetchPolicy.MoreRulesRefuseNoMore` | src/core/fetch_policy.cpp:278-289 | A rule more, wherever it stands, refuses nothing that was let through |
| `FetchPolicy.MappedIsTheSame` | src/core/fetch_policy.cpp:45-55 | ::ffff:a.b.c.d is judged and admitted as a.b.c.d |
| `Respawn.Master.Kept` | src/core/application.cpp:1797-1872 | Any n deaths of one child in a row take at least n - 5 seconds; the delay is at most 30 s and the count at most 8; at the ceiling every delay is 30 s until a death comes over 60 s after the one before; a death over 60 s after the one before it has no delay |
| `Respawn.DeathsTakeTime` | src/core/application.cpp:1848-1859 | ... for the history of any child |
| `Respawn.CeilingHolds` | src/core/application.cpp:1868-1871 | The storm is latched |
| `Respawn.DeathDecided` | src/core/application.cpp:1797-1872 | A death that comes no sooner than its delay: the shift stays at 5 at most, a second is spent for it less what the slack has grown, and after a minute the delay is gone |
| `Respawn.DelayRamp` | src/core/application.cpp:1848-1872 | Rapid deaths: no delay for three, then 2, 4, 8, 16 and 30 seconds |
| `Respawn.DelayRests` | src/core/application.cpp:1797-1872 | A death later than two seconds leaves the count, and the delay only of a storm; after a minute count, storm and delay are gone |
| `Respawn.Master.Decide` | src/core/application.cpp:1848-1872 | The code of the rate limit computes the decision for that name and touches no other name's state |
| `Respawn.Master.ReapOne` | src/core/application.cpp:1759-1972 | A child that died is dropped; told to go, or of a master that shuts down, it is not forked or scheduled again and its rate limit is untouched; otherwise it is forked at once, or scheduled as far from now as the delay its death was recorded with; other names are not touched |
| `Respawn.Master.ReapChildren` | src/core/application.cpp:1754-1974 | However many died, nobody is forgotten |
| `Respawn.Master.RespawnChild` | src/core/application.cpp:1961-1971 | Forked at once when its death is recorded without a delay, or by a timer due exactly that delay from now |
| `Respawn.Master.FireTimer` | src/core/application.cpp:1883-1890 | A timer that comes due forks its child, unless the shutdown has begun |

## Left out

- HttpConnection: llhttp is an arbitrary function that judges the bytes of a request read so far; its errors, header parsing and the fields of a request are not part of this model.
- HttpConnection: stray answers, which the handlers' contract rules out (each request gets exactly one answer), and so the append to the buffer behind an unfinished file; both branches are shown unreachable.
- HttpConnection: exceptions from handlers, the WebSocket take-over (`release_tcp`), the h2c resume after an Upgrade request, and the synchronous fallback without an event loop.
- HttpConnection.Connection.KeptOrder: on a connection given up with a file behind a dropped tail, whether the bytes sent still happen to begin the stream depends on their values; it is claimed for all others.
- HttpConnection.Connection.OnEvent: with EPOLLRDHUP, EPOLLHUP or EPOLLERR beside EPOLLOUT, whether the event's own writes leave anything to give up is not spelled out; that a connection given up has closed with nothing dispatched or answered is claimed for every event.
- HttpConnection.Connection.OnWritable: after a partial drain that clears the throttle the mask is the old one, which still wakes for writing (src/net/http.cpp:1310).
- HttpConnection.StreamIsRead: answers whose body is suppressed, and those whose module names a length itself, are cut by a client that knows what it asked for; they are not part of this reading.
- HttpResponse: cookies, reason phrases by enumerated status and the client-side response parser.
- FileTarget: failed locks, opens, renames and compressions, an external logrotate, `reopen()`; at least one backup is configured. Compression keeps the content; gzip itself is not part of this model.
- LogHistory.SizeRun: the size of a compressed backup is that of the lines in it.
- LogTarget.FileTarget.WriteText: what a write that is blocked for ever, or whose process crashes, has done is left to the runs of the protocol.
- EventLoop: signals, and errors of `epoll_ctl` and `timerfd_create` other than those a handler's script can name; a holder that closes a registered number is modelled, but nothing is claimed after it.
- EventLoop: `run()` and the deadline of `run_for()` are a finite list of polls.
- NotifySubscriber: the policy check, the sweep, the lapse report and the timers other than the retry; payload, key and attempts pass through unchanged and are not modelled.
- NotifySubscribers.NotifySubscriber.Kept: two overlapping takes of one id leave the older row with the module and the newer one shadowed (src/dbplatform/notify_subscriber.cpp:308), so rows are counted per id and token.
- NotifyQueue: who is chosen as an addressee, keys and their order, and wake-ups that are not a row id; a take is granted to whoever asks while the row waits.
- SmtpClient: the dialogue before and after the data.
- FetchAddressPolicy: the parsing of allow entries (`inet_pton`, `from_chars`) and the process-wide default.
- Application: what children do, the SIGHUP reload, the log lines, and the immediate respawn without a master loop.
- PgPool, PgLeaderLock, WebSocket parsing, routing, configuration, OAuth, JWT, YAML, MIME and process titles: foreign code, or easier than what is here.
