# zzFTP, verified

A model of zzFTP, a small FTP server and client (RFC 959), and proofs about it. `dafny verify
dfyconfig.toml` checks everything.

The model follows five parts of the program.

**The session and its data thread.** The server runs a session thread and, after each `PORT` or
`PASV`, a data thread. They share `state`, `dat_fp` and `thr_dat_running`. Module `Server` is the
transition system of the two: every critical section, every unlocked write of the state and every
reply is one step, and a run interleaves steps freely. What the handlers compute is `Handle`,
`HandleUser` and `HandlePass` in `Session`; the same functions specify the methods of class
`Client`, which holds the record that the source updates in place, and `ServerLogin.StepsAreServed`
connects the methods with the steps. `ServerRuns`, `ServerFiles`, `ServerReplies` and `ServerTells`
hold what every interleaving keeps, for any client. `ServerHandover` holds what a disciplined client
gets: one that sends no transfer-related command before the completion reply of the transfer before
(section 5.4 of RFC 959) and whose active connections are not refused. `ServerStuck` says exactly
when a session ends up with a file that is never transferred, and `ServerScript` builds the concrete
runs that show what can happen. `ServerJoin` says exactly when a session that stops its data thread
goes on.

**The control connection.** `ControlChannel` writes replies in pieces, with and without `mutex_ctl`;
`ServerChannel` runs `Server` on top of it, and shows exactly when two replies may overlap, that they
may then mix, and that otherwise replies may be taken as single steps. `ServerClash` says what a
client has to do so that replies never mix, and `ServerMeets` when they can if it does not.

**The control-stream codec.** `LineBuffer` (`rlb_*`), `Replies` (`send_mark`, `read_mark_thr`),
`Requests` (the parser of `client_run_loop`) and `Codecs` (227, `PORT`, 257), over the socket of
`Wire`: a read gives any non-empty piece of what is to come, a write takes any non-empty piece of
what is offered, and a non-blocking descriptor refuses finitely often. Every result is about the
bytes and not about the pieces.

**Paths, transfers and names.** `Path`: `path_cat` in its buffer against a stack of components, and
the laws of the latter. `Transfer`: `process_block`, the data loops, the client's copy loops, both
ends of a whole transfer, and resuming with `REST`. `FileList`: the search for a free name.

**The client.** `ClientChain`: its chains of callbacks. `Chain` is what they mean, a callback that
carries what it will need; class `Window` is how the program does it, with callbacks without data
and the statics of `client/main.c`, and its methods are proved to do what `Chain` says. `EndToEnd`
puts the client and the two threads of the server together, with a queue of requests and a data
connection that is made or is not; `EndToEndFailures` says what becomes of failed data connections,
`EndToEndScenes` plays two of them, and `EndToEndDirectory` is about the directory the client keeps.

Where a lemma about steps concludes `true == P(s)`, it says P(s); the comment at the head of
`ServerLife` says why it is written so.

## What the proofs found

- A file can end up in `dat_fp` that no data thread will take. That happens if and only if a signal
  finds no data thread, one that has looked at `dat_fp` for the last time, or an active one that has
  yet to reach `pthread_cond_wait` (`ServerStuck.StuckExactly`). From then on every command that
  looks for a transfer gets 503, for good (`StuckForever`, `StuckRefuses`); when the file was lost
  on a thread that waits, QUIT never returns either. A client that does not wait for 226 gets there
  (`ImpatientGetsStuck`), one whose active connection is refused (`RefusedGetsStuck`, since 425 is
  sent before the cleanup), and a client that does everything right in active mode
  (`EarlySignalGetsStuck`). In passive mode a disciplined client never does (`DisciplinedStuck`).
- `client_close_threads` does not wake an active data thread that waits for a file, so its join never
  returns: PORT followed by QUIT, PASV or another PORT hangs the session
  (`ServerJoin.QuitHangs`, `PasvHangs`). That is the only case: every other join lasts for at most
  eight steps of the data thread (`JoinReturns`, `JoinIsShort`), and so returns provided that each of
  these steps ends. A `connect`, or a write to a peer that does not read, may take its time.
- `client_close` joins a thread that was never created after a failed `pthread_create`:
  `thr_dat_running` stays set (`ServerRuns.JoinsAreProper`, and `ServerScript.FailedCreateJoins` for
  a run).
- The 220, 221, 202 and 500 replies are sent without `mutex_ctl`. They can overlap with a reply of the
  data thread if and only if both are due (`ServerChannel.ClashExactly`), and then come out mixed, as
  neither order of the two, whatever their texts (`ClashMixes`). For a disciplined client that is in
  its own hands: if it keeps back lines that are no command, and the connection open, while it awaits
  the completion of a transfer, replies never mix (`ServerClash.MindfulReplies`). If it sends such a
  line, or closes, the reply can meet the completion reply if and only if one is awaited at that
  moment and the file is not stuck (`ServerMeets.CarelessMeets`); `CarelessMixes` has the runs for
  221, 202 and 500.
- A data connection that fails in passive mode does no harm to the order of reads and replies: the
  data thread never says anything about it. One that fails in active mode does: 425 is sent, and
  nobody reads it, so that from then on every callback gets the reply before its own
  (`EndToEndFailures.ReadsMatchReplies`, `EndToEndScenes.ActiveFailureHappens`). The
  client's own count of reads and commands cannot tell the two apart (`ClientChain.ReadsMatchCommands`).
- The client recovers the working directory from the 257 reply exactly when it has at most 232
  bytes. With 232 the closing quote is the last byte that fits the server's buffer; from 233 on it
  is cut off, and the client computes the length -1 (`Codecs.PwdEndToEnd`,
  `EndToEndDirectory.DirectoryIsPresent`).
- A download is exact if and only if every `write` to the local file is whole and everything was
  read: the client looks neither at how much was written nor at why the reading stopped, and reports
  success in any case (`Transfer.ReceiveTo`, `Transfer.Download`).
- The client tells a download, an upload and a listing apart by the sign of `data_fd`: descriptor 0
  would be collected in memory as a listing (`ClientChain.Window.Data2`).
- `LIST` hands the working directory to `ls` without `--`: in a directory whose path goes on behind
  a leading `-` it is an option, and the directory is not listed (`Session.ListsWorkingDirectory`).
- After a rename the working directory is left behind in the old place exactly when it lay properly
  below the renamed directory: `mark_dir` looks only for the directory itself
  (`Session.RenamedLeft`).
- `path_exists` does not look the root directory up, so `RETR /` gets as far as `fopen("")`, which
  fails (`Session.Lookup`). A negative `REST` wraps: `fseek` then fails and the transfer starts at
  0 (`Transfer.RestStartsThere`), `truncate` fails and the file is appended to (`Transfer.Truncated`).

## Environment

- A blocking `read` of the control connection that fails counts as the end of the stream, as in
  `rlb_get_char`. A hard failure of `accept` ends the process in the source and is not a step.
- `pthread_cond_wait` has no spurious wake-ups. A signal that comes before the wait is missed.
- Statements about bytes sent or received say "unless the connection broke" where the source does
  not look at the result of `write_all`.
- The answers of the file store, of `pthread_create`, of `ephemeral` and of `connect` are free
  inputs of each step.
- In `EndToEnd` the control connection delivers requests and replies in order, reads are served in
  the order in which they were issued, and a data connection is made only between a client that
  still calls and the data thread it was told of. A data connection that exists stays until the
  transfer is over. The text of a 257 is the one the server prints, with its directory at that time,
  and that of a 227 the one for some address; the client looks at no other text.
- `%u` and `%zd` of a value out of range are open in C (section 7.21.6.2 of C11); here they wrap.
- Where the repository's comment names RFC 954 for the command-reply sequences, RFC 959 is meant.

## Model

| member | source | states |
|---|---|---|
| ServerRuns.ThreadLife | server/client.c:107-125 | in every interleaving, at the boundaries of handlers there is at most one created, unjoined data thread, `thr_dat_running` tells whether there is one, PORT and PASV mode need one, and a freed record has had every thread joined once |
| ServerRuns.JoinsAreProper | server/client_cmds.c:152-155 | a finished session has joined a thread that was never created if and only if some `pthread_create` failed |
| ServerScript.FailedCreateJoins | server/client_cmds.c:184-186 | there is a run with a failed `pthread_create` that ends with such a join |
| ServerRuns.NothingAfterFree | server/client.c:38-55 | once the record is freed, neither thread has a step left |
| ServerRuns.LoginSafety | server/client_cmds.c:20-28 | in every interleaving a login once reached is never lost, stands for an accepted USER and PASS, and before it no guarded handler has changed the session or called the store |
| ServerRuns.PathSafety | server/client_cmds.c:194-345 | in every interleaving the working directory and a pending rename source are normalised, every store path lies inside the root directory, and renames are at most as many as accepted RNFRs |
| ServerRuns.StepKeeps | server/client_xfer_thr.h:59-202 | every step of either thread keeps the invariant behind the run theorems and the login |
| ServerFiles.ClosedOnce | server/client_xfer_thr.h:59-80 | in every interleaving, of any client, no FILE is closed twice, and the one a data thread works on is open and is `dat_fp` |
| ServerReplies.ReplyAccounting | server/client.c:70-105 | in every interleaving every accepted transfer has had one terminal reply, is pending, or was dropped; all replies are the welcome, the goodbye, one per command line other than QUIT, and the terminal replies; at the end at most one transfer is pending, its file stuck in `dat_fp` |
| ServerReplies.DropsWhenStopping | server/client.c:115-125 | in every interleaving an accepted transfer is dropped only while QUIT, ABOR or the end of the session joins the data thread |
| ServerTells.WelcomedRun | server/client_cmds.c:128-130 | in every interleaving 230 has been sent, or is about to be, only to a logged-in session |
| ServerTells.ModesRun | server/client_cmds.c:135-192 | in every interleaving no file is stored while the last reply is the 200 or 227 of a mode, and behind 227 the passive data thread is there, listening and without a file |
| ServerHandover.Handover | server/client_xfer_thr.h:59-80 | in every interleaving of a disciplined run, a file in `dat_fp` means an accepted transfer the client awaits, a data mode and a thread that has yet to clear `dat_fp`; behind a completion reply or ABOR's join `dat_fp` is NULL and the state READY |
| ServerStuck.StuckForever | server/client_cmds.c:45-48 | a file that no thread will take stays in `dat_fp` for the rest of the session, whatever the client sends; the session record and the store are left alone; when the thread waits for a signal that was missed, the session never ends |
| ServerStuck.StuckRefuses | server/client_cmds.c:45-48 | in a stuck session every command that looks for a transfer in progress is answered 503, and no handler runs |
| ServerStuck.StuckExactly | server/client_cmds.c:37-38 | in every interleaving, of any client, a session is stuck if and only if some signal found no data thread, one past its last look at `dat_fp`, or an active one that had yet to wait |
| ServerStuck.DisciplinedStuck | server/client_xfer_thr.h:94-98 | a disciplined client gets stuck if and only if a signal comes before the active data thread waits; in passive mode it never does |
| ServerJoin.JoinReturns | server/client.c:115-125 | in every interleaving `client_close_threads` can return if and only if the data thread is not an active one that still waits, or has yet to wait, for its signal |
| ServerJoin.HangsForever | server/client_xfer_thr.h:94-98 | otherwise it never does, whatever happens |
| ServerJoin.JoinIsShort | server/client_xfer_thr.h:121-129 | a join that can return lasts for at most eight steps, under any scheduler |
| ServerJoin.PassiveReturns | server/client_xfer_thr.h:158-161 | in passive mode a join can always return |
| ServerJoin.QuitHangs | server/client_cmds.c:52-56 | there is a run of a disciplined client that enters active mode and quits, whose session never ends |
| ServerJoin.PasvHangs | server/client_cmds.c:165-169 | there is one that turns from active to passive mode and is never answered |
| ServerStuck.ImpatientGetsStuck | server/client_xfer_thr.h:71-72 | there is a run with every connection made, in which only the client's patience is missing, that gets there |
| ServerStuck.RefusedGetsStuck | server/client_xfer_thr.h:113-116 | there is a run of a patient client, in which only an active connection is refused, that gets there |
| ServerStuck.EarlySignalGetsStuck | server/client_xfer_thr.h:94-98 | there is a run of a disciplined client in active mode that gets there, with the session ready for the next command |
| ServerRuns.UnlockedAlone | server/client.c:70-105 | in every interleaving the welcome is sent while there is no data thread, and the goodbye while there is one if and only if the command loop ended with the control connection while one was live |
| ControlChannel.RepliesNeverMix | server/client.h:67-76 | in every interleaving and cutting-up of writes without overlapping unlocked replies, the control output is the whole replies in the order they were begun, and decodes to them |
| ControlChannel.LockedApart | server/client.h:67-71 | replies made under the lock alone never overlap |
| ServerChannel.ClashFreeApart | server/client.h:67-76 | every run of the server, with replies cut up, in which an unlocked reply never meets one of the data thread is a run of the channel in which they stay apart |
| ServerChannel.RepliesAreAtomic | server/client.h:67-76 | such a run is a run of the server with each reply as one step, and the control output is whole replies with exactly the codes sent, in that order, and decodes to them |
| ServerChannel.Lift | server/client.h:67-76 | every run of the server with replies as single steps is one with replies cut up |
| ServerChannel.ClashExactly | server/client.h:67-76 | a run of the server has a way of being cut up in which two replies overlap if and only if it ends with an unlocked reply of the session and a reply of the data thread both due |
| ServerChannel.ClashMixes | server/client.c:104 | whenever that is so the two may come out mixed, as neither order of the two, whatever their texts |
| ServerClash.ClashAwaits | server/client_xfer_thr.h:71-79 | for a disciplined client that happens only while it awaits a completion reply |
| ServerClash.MindfulReplies | server/client.c:75-104 | a disciplined client that sends no line that is no command, and does not close, while it awaits a completion reply gets whole replies in the order sent, in every interleaving of their pieces |
| ServerMeets.ExpectedRun | server/client_xfer_thr.h:121-133 | in every interleaving, of any client, a transfer whose completion is awaited is pending, unless the session is ending or serving ABOR |
| ServerMeets.CarelessMeets | server/client.c:75-104 | for a disciplined client, the reply to such a line, or to closing, can meet a reply of the data thread if and only if a completion reply is awaited and the file is not stuck |
| ServerMeets.CarelessMixes | server/client.c:78-93 | for each such line there is a run of a disciplined client in which 221, 202 or 500 comes out mixed with 226 |
| Session.HandleKeepsPaths | server/client_cmds.c:194-345 | for any argument and answers of the store a handler keeps the session's paths normalised, gives the store only paths inside the root, and keeps the login |
| Session.HandleMoves | server/client_cmds.c:274-321 | a rename uses up the pending source, which only an accepted RNFR provides |
| Session.HandleRest | server/client_cmds.c:369-433 | the restart offset is zeroed by the RETR that opens its file and by the STOR that truncates, and otherwise only REST changes it |
| Session.RenamePair | server/client_cmds.c:274-321 | an accepted RNFR and an RNTO make exactly one move, between the two places their arguments lead to; a second RNTO is refused |
| Session.ThereAndBack | server/client_cmds.c:202-217 | CWD to an ordinary name and CWD to ".." lead back to the same record |
| Session.RemovedLeft | server/client_cmds.c:242-272 | after an accepted RMD the working directory lies in what was removed if and only if it lay properly below it |
| Session.RenamedLeft | server/client_cmds.c:295-321 | after an accepted rename the working directory lies in the old place if and only if it lay properly below it |
| Session.LoginSteps | server/client_cmds.c:74-131 | an accepted PASS leads to `anonymous/` and at most 64 characters or to a known user; nothing changes an account once logged in |
| ServerLogin.StepsAreServed | server/client_cmds.c:20-48 | a command served by steps without interference does to record, store, reply and file what the method of class `Client` does |
| Session.Client.constructor | server/client.c:11-36 | a new record: connected, no user, working directory "/", no offset |
| Session.Client.Guarded | server/client_cmds.c:20-48 | which reply the guards of a handler make, in their order |
| Session.Client.HandlerUSER | server/client_cmds.c:74-94 | does to record and reply what `HandleUser` says, which `LoginSteps` and `ServerRuns.LoginSafety` are about |
| Session.Client.HandlerPASS | server/client_cmds.c:96-131 | does to record and reply what `HandlePass` says, which `LoginSteps` and `ServerRuns.LoginSafety` are about |
| Session.Client.PathExists | server/path_utils.c:60-73 | the store is asked about anything but the root directory |
| Session.Client.HandlerCWD | server/client_cmds.c:202-217 | does to record, store and reply what `Handle` says, so that `HandleKeepsPaths` and `ThereAndBack` hold of it |
| Session.Client.HandlerPWD | server/client_cmds.c:219-225 | the guards and the reply, as `Handle` says; the record stays as it is |
| Session.Client.HandlerMKD | server/client_cmds.c:227-240 | does to record, store and reply what `Handle` says, so that `HandleKeepsPaths` holds of it |
| Session.Client.MarkDir | server/client_cmds.c:242-253 | a working directory that is gone becomes the directory above the argument's |
| Session.Client.HandlerRMD | server/client_cmds.c:255-272 | does to record, store and reply what `Handle` says, so that `HandleKeepsPaths` and `RemovedLeft` hold of it |
| Session.Client.HandlerRNFR | server/client_cmds.c:274-293 | does to record, store and reply what `Handle` says, so that `HandleMoves` and `RenamePair` hold of it |
| Session.Client.HandlerRNTO | server/client_cmds.c:295-321 | does to record, store and reply what `Handle` says, so that `HandleMoves`, `RenamePair` and `RenamedLeft` hold of it |
| Session.Client.HandlerDELE | server/client_cmds.c:323-345 | does to record, store and reply what `Handle` says, so that `HandleKeepsPaths` holds of it |
| Session.Client.HandlerLIST | server/client_cmds.c:347-367 | does to record, store and reply what `Handle` says, so that `ListsWorkingDirectory` holds of it |
| Session.ListsWorkingDirectory | server/client_cmds.c:353-357 | LIST lists the working directory if and only if its path is no option of `ls` |
| Session.Client.HandlerREST | server/client_cmds.c:369-383 | does to record and reply what `Handle` says, so that `HandleRest` and `Transfer.RestStartsThere` hold of it |
| Session.Client.HandlerRETR | server/client_cmds.c:385-410 | does to record, store and reply what `Handle` says, so that `HandleRest` and `Transfer.RestStartsThere` hold of it |
| Session.Client.HandlerSTOR | server/client_cmds.c:412-433 | does to record, store (in this order) and reply what `Handle` says, so that `HandleRest` and `Transfer.ResumedStor` hold of it |
| Path.PathCat | server/path_utils.c:8-46 | the in-place normaliser computes split, fold over the component stack and render; NULL exactly on a relative `wd` or a character outside the allowed set; every write is inside its buffer |
| Path.Process | server/path_utils.c:30-40 | one item worked into the buffer is one visit of the stack |
| Path.Push | server/path_utils.c:37-40 | appending separator and item pushes a component and stays in the buffer |
| Path.GoUp | server/path_utils.c:33-36 | the ".." branch pops a component |
| Path.ScanBack | server/path_utils.c:35 | the backward scan stops at the last slash, at the latest at the leading one |
| Path.FindItem | server/path_utils.c:20-29 | the current item ends at the next slash or the end, or there is a character outside the set |
| Path.CatNormal | server/path_utils.c:16-44 | results are normalised: ordinary components only, no "..", no trailing slash except root |
| Path.CatCompose | server/path_utils.c:16-44 | going by a and then by b is going by a/b |
| Path.CatUp | server/path_utils.c:16-44 | entering an ordinary name and going up changes nothing |
| Path.CatSelf | server/path_utils.c:16-44 | a normalised path is its own result |
| Wire.Sock.WriteAll | server/io_utils.c:54-71 | for every schedule of partial writes and EAGAIN, what was written is a beginning of the message, all of it unless the connection broke |
| Wire.Sock.ReadAll | server/io_utils.c:33-52 | what was read is a beginning of the stream, short only at its end or on an error |
| LineBuffer.Rlb.constructor | server/io_utils.c:75-81 | a new buffer shows the whole stream without its CRs |
| LineBuffer.Rlb.GetChar | server/io_utils.c:83-106 | for every chunking, the next byte that is no CR; LF and `no_more` exactly when only CRs are left |
| LineBuffer.Rlb.Fill | server/io_utils.c:113-118 | the first loop takes the line with its LF, or as much as fits |
| LineBuffer.Rlb.ReadLine | server/io_utils.c:108-133 | for every chunking, one line of the stream: in full when it fits, else its first n-1 bytes with result n and the rest skipped; -1 exactly at the end |
| LineBuffer.LinesAreTheStream | server/io_utils.c:108-133 | the lines of successive calls put together are the stream |
| Replies.SendMark | server/io_utils.c:140-161 | the bytes sent are the printed reply, unless the connection broke |
| Replies.SendLine | server/io_utils.c:153-156 | prefix, line and end of line go out in this order |
| Replies.ReadMark | client/xfer.c:159-198 | for any stream that holds a whole reply: its code, its text up to the first NUL as a callback sees it, and exactly that reply consumed |
| Replies.TakeLine | client/xfer.c:171-183 | one line is collected without its prefix, and ends the reply exactly when it is three digits and a space |
| Replies.AddLine | client/xfer.c:173-176 | the line is appended to the collected text inside the grown buffer |
| Replies.CodeRoundTrip | server/io_utils.c:142-145 | the three printed digits give the code back |
| Replies.ReplyRoundTrip | server/io_utils.c:140-161 | reading a printed reply gives its code and its text with one final LF, and leaves what follows it |
| Replies.RepliesRoundTrip | server/io_utils.c:140-161 | any list of replies decodes to itself |
| Requests.UpperVerb | server/client.c:85-88 | the letters and the byte behind them are upper-cased in place, nothing else |
| Requests.Parse | server/client.c:85-98 | verb and argument of a line, or a malformed line |
| Requests.ReadCommand | server/client.c:75-98 | what one turn of the run loop sees is the next input of the stream |
| Requests.RequestsRoundTrip | server/client.c:75-102 | any requests the client writes reach `process_command` as upper-cased verbs and untouched arguments, in order; an over-long one is dropped whole |
| Codecs.AllBytes | server/client_cmds.c:147-150 | whether all numbers are below 256 |
| Codecs.ReadAddress | server/client_cmds.c:141-150 | the six numbers of a PORT argument, or an error |
| Codecs.DataPasv | client/main.c:121-134 | what the client makes of a 227 reply |
| Codecs.AddressRoundTrip | client/main.c:113-116 | an address printed by either end is scanned back by the other |
| Codecs.PasvEndToEnd | server/client_cmds.c:165-192 | through the whole reply codec, whatever follows, the client connects to the server's host and port |
| Codecs.PortEndToEnd | server/client_cmds.c:141-159 | through the whole request codec, whatever follows, the server stores the client's host and port |
| Codecs.PwdEndToEnd | client/main.c:199-210 | the client recovers the server's working directory if and only if it has at most 232 bytes; otherwise it computes the length -1 |
| Transfer.DoubleAndLimit | server/client_xfer_thr.h:11-15 | a sleep doubles, up to its limit |
| Transfer.SendBlock | server/client_xfer_thr.h:26-34 | one block sends the next bytes of the file; status 1 at its end, 2 on a read error |
| Transfer.SendLoop | server/client_xfer_thr.h:121-129 | for every schedule, the bytes sent are the file's from the start offset, all of them with status 1; the loop ends |
| Transfer.RecvBlock | server/client_xfer_thr.h:35-56 | one block appends the bytes received; EAGAIN backs off |
| Transfer.RecvLoop | server/client_xfer_thr.h:121-129 | for every schedule, the file grows by the bytes received in order, all of them with status 1; the loop ends |
| Transfer.ReadEverything | client/xfer.c:230-247 | the collected text is what was read, inside the doubled buffer, and everything the peer sent if and only if no read failed first |
| Transfer.ReceiveTo | client/xfer.c:290-323 | for the writes made, in order: their blocks are what was read, the local file grows by what was taken of each, and the copy is exact if and only if every write was whole and everything was read |
| Transfer.SendLocal | client/xfer.c:339-363 | what is sent is a beginning of the local file, and all of it unless the connection broke or a read failed |
| Transfer.TakenWhole | client/xfer.c:300-305 | what a sequence of writes takes is what it was offered if and only if each write is whole |
| Transfer.Download | client/xfer.c:290-323 | RETR at both ends: the local file grows by exactly the rest of the file, when the server reports the end and no connection broke, if and only if every local write was whole |
| Transfer.Upload | client/xfer.c:339-363 | STOR at both ends: the stored file grows by exactly the client's file when the server reports the end and nothing broke |
| Transfer.RestRoundTrip | server/client_cmds.c:374-380 | a printed offset is scanned back |
| Transfer.RestStartsThere | server/client_cmds.c:374-404 | for any number sent with REST: the next RETR, and only that one, starts there if and only if the number is 0 or more and below 2^63; for other 64-bit values it starts at 0 |
| Transfer.BadRestIgnored | server/client_cmds.c:375-378 | a REST that is no number changes nothing |
| Transfer.ResumedRetr | server/client_cmds.c:385-410 | RETRs cut short anywhere and resumed at the count received join to a beginning of the file, to all of it when the last runs to the end |
| Transfer.ResumedStor | server/client_cmds.c:412-433 | STORs cut short anywhere and resumed at the file's length leave a beginning of the upload, all of it when the last runs to the end |
| FileList.Model.FileExists | client/model_filelist.c:66-71 | whether a name is in the list |
| FileList.Model.GetUploadName | client/model_filelist.c:73-89 | terminates with the base name if it is free, else with the smallest unused suffix, at most the length of the list; the name is not in the list and fits its buffer |
| FileList.Model.NewFolderName | client/model_filelist.c:198-206 | terminates with the smallest unused number, at most one more than the length of the list |
| FileList.AlternativeBound | client/model_filelist.c:85-88 | among as many alternatives as there are names, one is free |
| FileList.AlternativeFits | client/model_filelist.c:80-86 | with fewer than 10^8 entries every candidate fits its buffer |
| FileList.FolderBound | client/model_filelist.c:202-205 | n folder names in use need n entries |
| ClientChain.ReadsMatchCommands | client/main.c:281-554 | an idle client has asked for the welcome, one reply per command and one per transfer if and only if no data connection failed |
| ClientChain.Window.Data2 | client/main.c:163-181 | the copy loop chosen by the sign of `data_fd` is the pending job's if and only if it is a listing or the descriptor is not 0 |
| ClientChain.Window.KeepDirectory | client/main.c:199-222 | the `cwd` kept is the working directory of the server whose text this is if that has at most 232 bytes; for a longer one the length is -1 |
| ClientChain.Window.List1Reply | client/main.c:199-227 | the callback with its statics is the callback that carries its data; it is lost, without continuation, exactly when the length is -1 |
| ClientChain.Window.SendTransfer | client/main.c:228-232 | what the statics make `data_inter` write is the request of the pending job |
| ClientChain.Window.Rename1Reply | client/main.c:353-369 | the name kept in a static since RNFR is the one RNTO sends |
| ClientChain.Window.StartRetr | client/main.c:443-460 | from here on the statics stand for a download of this name into this descriptor |
| EndToEnd.Balance | client/main.c:92-554 | in every interleaving of client, session and data threads: reads issued, plus those left out for failed connections or still to come, are the replies sent, owed by the server's state and queue, and lost to refused or dropped transfers |
| EndToEndFailures.CallbacksFindRest | client/main.c:281-554 | with every transfer accepted and nothing failed, a reply that a callback waits for is the last one, and the server is at rest |
| EndToEndFailures.PassiveFailure | server/client_xfer_thr.h:158-197 | a failed passive connection stays the only one, and its file waits for a data thread without a connection |
| EndToEndFailures.OrphanSilent | server/client_xfer_thr.h:76-79 | that data thread never says anything |
| EndToEndFailures.ReadsMatchReplies | client/main.c:163-181 | for an idle client whose transfers were accepted: reads are the replies sent and to come if no active connection failed, whatever became of passive ones, and fewer if one did; at rest they agree if and only if none did |
| EndToEndScenes.PassiveFailureHappens | client/main.c:177-180 | there is a conversation, with the texts the server prints, with a failed passive connection, the client idle and every reply read |
| EndToEndScenes.ActiveFailureHappens | server/client_xfer_thr.h:113-116 | there is one with a failed active connection, the client idle, the server at rest and a reply unread |
| EndToEndFailures.ClientKnowsLogin | client/main.c:597-611 | in every interleaving a client that takes itself to be logged in is logged in at the server, as an account it accepts |
| EndToEndDirectory.DirectoryWasTold | client/main.c:199-222 | in every interleaving the directory the client keeps is one the server was in when it said so |
| EndToEndDirectory.DirectoryIsPresent | client/main.c:199-222 | with every transfer accepted and no connection failed, in every interleaving: `list_1` can go on with its 257 if and only if the server's working directory has at most 232 bytes, and then that is the one it keeps |

## Left out

- Transfer.SendLoop: `SLOW_DATA`, `usleep` and the sleep counters beyond their bounds; a pipe from `ls` is read like a file.
- Transfer.Download: the two ends one after the other, since TCP delivers what was sent in order; a `read` that fails is a broken connection.
- Transfer.Upload: that the server has taken the file before the client is done is assumed; a passive data thread without a file that finds its peer gone drops the connection with what it holds.
- Replies.ReadMark: requires a whole reply in the stream; at its end `read_mark_thr` compares -1 as unsigned, which is not modelled.
- Replies.ReplyRoundTrip: texts without CR and NUL, with lines of at most 1019 bytes and codes below 1000; others are not read back as they were sent.
- FileList.Model.GetUploadName: requires fewer than 10^8 list entries, without which the source's buffer does not hold the suffix.
- FileList.Model.NewFolderName: requires fewer list entries than the largest `int`, since the source's counter is one.
- Codecs.ReadAddress: an out-of-range number wraps; C leaves it open.
- ServerHandover.Handover: holds for disciplined runs; `ServerStuck` shows the runs that need the discipline.
- ServerJoin.JoinIsShort: counts steps; a single step, such as a `connect` without a time limit, may take long.
- ServerFiles.ClosedOnce: that every opened FILE is closed is not claimed; ABOR before the passive connection drops one.
- EndToEndFailures.ReadsMatchReplies: a transfer refused with another reply than 150 is counted by `EndToEnd.Balance` alone; after a failed active connection, `ToCome` may hold a file that a stuck session never transfers.
- EndToEndFailures.CallbacksFindRest: for conversations without failed connections; replies are matched to reads by number, and a LIST's completion reply is read without looking at its code, as in the source.
- EndToEndDirectory.DirectoryIsPresent: at the moment the callback runs; what a client that starts an operation before the completion reply of its listing has come keeps afterwards is not claimed.
- ServerClash.MindfulReplies: for disciplined clients; `ServerChannel.ClashExactly` is the condition for the others.
- ClientChain.Window.SendTransfer: of the callbacks that find their data in statics; those that find none are `ClientChain.OnMark` alone. Widgets, status texts and progress are not modelled, and the disabled widgets that `stor_3` leaves behind a code other than 226 are an idle chain here.
- `PORT`, `PASV`, `ABOR`, `QUIT`, `SYST`, `TYPE` and the data threads are steps of `Server` on values, not methods of `Client`: their small steps interleave, which a method body cannot show.
- `read_mark_thr`, `write_thr` and the copy loops each run on a thread of their own in the client; here reads and writes are served in the order in which they were issued.
- Message texts other than those of 227 and 257, `usleep` after a wrong password, the transfer counters of the record, and `dat_type` beyond the kind of the opened file.
- `path_change`, which nothing calls, and `qsort` with `file_rec_cmp`.
- Parsing the `ls -l` columns, tables, images, `get_size_str`, both `main` functions, `misc/binfc.c` and `client/res.c`.
- Real sockets, `stat`, `popen`, `accept` and `poll` beyond the outcomes described under Environment.
