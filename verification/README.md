# sockd: a verified model

sockd is a small framework for daemons on a Unix socket: a daemon that owns a pid file and a
socket file and serves framed requests, and a client that finds it, starts it when it is not
there, and can ask it to stop. Its repository also carries a reference daemon in C, the skill
router, which answers "which skill files belong to this path?" out of a library held in memory.

This project models four parts and proves what they promise.

**The skill router** (`CText`, `StableSort`, `RouterSpec`, `RouterTheorems`, `RouterReply`,
`RouterTables`, `RouterRuns`, `RouterCommands`, `RouterReset`, `RouterEngine`). `RouterEngine.Router` is the C program's global state: fixed arrays, counters,
in-place loops, `int` sums checked to stay inside 32 bits. `HandleRequest` is proved equal to
`RouterSpec.Respond`, a short declarative function: the first 64 hits, stably sorted, first
occurrence of each skill, then a greedy choice under three limits with the dedup table threaded
through. `RouterReply` says what that reply is without sorting or walking anything: the skills it
carries are the only list that the hits, the session and the table explain. `RouterRuns` and
`RouterCommands` follow the table, the library and the running flag over any sequence of messages,
and `RouterTables` says what was loaded and where the hits of a request come from.

**Ownership and life cycle** (`Ownership`, `OwnershipTheorems`, `Accounts`, `SoloRuns`,
`DaemonCode`). Any number of
daemons and of clients in `shutdown()`, interleaved one file or socket operation at a time, with
processes dying at any moment. Mutual exclusion does not hold at this grain. The theorems say who
is to blame when it fails, that such a failure can really follow, and what holds as long as nobody
is to blame. `DaemonCode.Host` holds the code of the pid guard, `bind`, `run` and `shutdown` as
methods with arbitrary interference between two operations; each of their executions is a run of
the state machine, and their contracts speak about the steps they took in it. `SoloRuns` says what
those steps achieve when nobody else acts and no operation fails: which claims and binds succeed.

**Client and event loop** (`EventLoop`, `ClientCode`, `AtMostOnce`, `Conversation`). The loop of the
daemon over a clock and a listener, the waiting loops of the client, their composition, and what a
client understands of the bytes it is answered with.

**Codecs** (`Frames`, `JsonText`, `JsonValues`). The frame format through streams that chunk
arbitrarily, and the JSON scanner and escaper of the router's client, also against JSON as RFC 8259
defines it.

Where the code and its documentation differ, the model follows the code:

- `docs/LIFECYCLE.md:5-7` says a live process is killed; `src/pidfile.rs:18-25` refuses to start.
- `docs/LIFECYCLE.md:64-68` has `on_stop` before the socket is closed; `src/daemon.rs:213-215` has it after.
- `docs/PROTOCOL.md:164-166` says a bad version gets an Error frame; `src/daemon.rs:269` ends the loop.

Four promises are false of the code as they stand, and all are settled here. Two guards can be live
at once (`OwnershipTheorems.TwoGuardsReachable`), and always because of a claimant's careless unlink
(`Blame`). The scanner does not undo the escaper on every text: it does exactly on text whose control
characters are newline and tab only and which fits the buffer (`JsonText.EscapeRoundTrip`). Nor does it
read every JSON string: of those without a \u escape, exactly the ones that do not write a backspace,
a form feed or a carriage return as an escape (`JsonValues.ScanReadsJson`). And the router means to skip the skills it has already selected but skips all it has seen: that makes a
difference exactly when a reset of the dedup table brings a passed-over skill back
(`RouterTheorems.SeenEqualsSelected`), and `RouterReset.ResetMatters` is a run in which it does.

## Model

| member | source | states |
|---|---|---|
| RouterEngine.Router.HandleRequest | reference/router-daemon.c:519-662 | status, skill count, bytes written and the dedup table afterwards are those of the specification `Respond`, for every library, table and request |
| RouterReply.ReplyMeans | reference/router-daemon.c:545-661 | there is a list `chosen`, explained by the first hits, the session and the table alone, with which count, content and table of the reply agree: its skills are hits, best priority first and ties in hit order, and a hit skill is in it exactly if at its turn fewer than three were chosen, the session did not know it and it fitted into 24576 bytes |
| RouterReply.OneExplanation | reference/router-daemon.c:580-647 | no other list is so explained, so the order by priority, the limits and the dedup test determine the reply |
| RouterReply.LeftOutOfReply | reference/router-daemon.c:597-647 | a hit skill left out although new to the session and fitting at its turn lost to three chosen ones, none with a lower best priority |
| RouterReply.ContentLayout | reference/router-daemon.c:618-642 | each chosen skill's data lies in the content where the sizes and separators before it put it, followed by a rule between blank lines, and the last one ends the content |
| RouterTables.RequestHits | reference/router-daemon.c:545-567 | the hits are the skills of the matching rules by rule and slot, from the file rules for tools 1 to 4 and the bash rules for tool 5; only a table of 64 leaves any out, and then those at the end |
| RouterTables.RuleNames | reference/router-daemon.c:273-305 | a rule has its row's priority and the first skills with its first three ids, in order, and none for an id that no skill has |
| RouterTables.LibraryLoaded | reference/router-daemon.c:226-436 | loading takes the skills from the directory as in the next row, and each rule array from the first 64 rows of its own table, in order |
| RouterTables.SkillsLoaded | reference/router-daemon.c:226-253 | the skills are those of the entries that are neither hidden nor private and have a non-empty file, in directory order, ids cut to 127 characters, and only 256 skills leave any out |
| RouterEngine.Router.RouteWith | reference/router-daemon.c:545-661 | the same for one rule array: the three phases compose to `Respond` |
| RouterEngine.Router.CollectHits | reference/router-daemon.c:554-567 | the hits array holds the first 64 (skill, priority) pairs of the matching rules, in rule order |
| RouterEngine.Router.RuleMatches | reference/router-daemon.c:474-489 | the loop with its basename test decides whether some pattern matches, where the specification has no basename |
| RouterEngine.Router.SelectSkills | reference/router-daemon.c:597-647 | after the loop the table, the number selected and the bytes are those of the greedy choice over the distinct skills, and the all-deduped flag is exact while nothing is selected |
| RouterEngine.Router.VisitHit | reference/router-daemon.c:601-647 | one iteration takes the greedy choice from position i to position i+1 |
| RouterEngine.Router.TrySkill | reference/router-daemon.c:612-646 | one new skill: table, count and bytes change as one greedy step does, and not at all if it is known or does not fit |
| RouterEngine.Router.Append | reference/router-daemon.c:618-642 | a skill is appended, with a separator unless first, exactly if the result is within the budget; no dangling separator, no copy out of bounds, no int overflow |
| RouterEngine.Router.SeenBefore | reference/router-daemon.c:605-610 | true exactly if an earlier hit has the same skill |
| RouterEngine.Router.IsDeduped | reference/router-daemon.c:441-449 | true exactly if the pair is in a live slot |
| RouterEngine.Router.MarkDeduped | reference/router-daemon.c:451-461 | writes the next slot, starting over when all 1024 are used; no other slot changes |
| RouterEngine.Router.FindSkillIndex | reference/router-daemon.c:173-178 | the first index with that id, or -1 if there is none |
| RouterEngine.Router.AddRule | reference/router-daemon.c:273-305 | appends one rule with its patterns split, clipped and its skills resolved, unless the array is full; earlier rules stay |
| RouterEngine.Router.SplitPatterns | reference/router-daemon.c:284-294 | the strtok loop yields the first 16 tokens, each clipped to 127 characters |
| RouterEngine.Router.MmapSkill | reference/router-daemon.c:180-224 | adds one non-empty file while there is room, else nothing |
| RouterEngine.Router.LoadAllSkills | reference/router-daemon.c:226-253 | the skills array holds the loadable entries in directory order, up to 256 |
| RouterEngine.Router.LoadRuleTables | reference/router-daemon.c:307-436 | both rule arrays are built from their tables against the skills now loaded |
| RouterEngine.Router.ReloadAll | reference/router-daemon.c:770-775 | the library becomes that of the new directory, the dedup table stays, and the state is valid again |
| RouterEngine.Router.ProcessConnection | reference/router-daemon.c:724-815 | every message changes the state and is answered as the transition function says, which `RouterCommands.ConnectionMeans` puts in terms of the message's fields; short and foreign messages included |
| RouterCommands.ConnectionMeans | reference/router-daemon.c:724-815 | running is cleared exactly by a message with the right magic and version, tool 0 and a path beginning with SHUTDOWN; the library is loaded anew exactly by one beginning with RELOAD; the table changes only with a routed request; and the answer to each |
| RouterCommands.RunStops | reference/router-daemon.c:758-769 | after any run the daemon is running exactly if no such SHUTDOWN came in |
| RouterCommands.RunLibrary | reference/router-daemon.c:770-775 | after any run with a RELOAD the library is that of the directory as the last one found it |
| RouterCommands.RunFirstLibrary | reference/router-daemon.c:862-884 | and without one that of start-up |
| RouterEngine.Router.Serve | reference/router-daemon.c:922-963 | the main loop with its select, idle test, signal flag and connections ends in the state, answers and round count of `LoopAfter` |
| RouterRuns.LoopMeans | reference/router-daemon.c:922-963 | every connection accepted before the loop stops is served while the daemon runs, answered in the state those before it left; only SHUTDOWN or a signal clears the flag; the loop stops at the first failing select or the first quiet one more than 300 seconds after the last connection, or when the flag is cleared |
| RouterCommands.LoopEnds | reference/router-daemon.c:922-963 | the main loop ends exactly at the first round in which select fails or is quiet more than 300 seconds after the last round with a connection, or the start; else it goes on while the flag is set |
| RouterCommands.LoopRuns | reference/router-daemon.c:922-963 | every round is made with the flag set; it is cleared exactly by a signal or by such a SHUTDOWN, and while it is set and no round has ended the loop, every round is made |
| RouterEngine.Router.constructor | reference/router-daemon.c:862-884 | start-up reaches the initial state of a run |
| StableSort.InsertionSort | reference/router-daemon.c:580-588 | sorts the used part of the array in place into `Sorted` and leaves the rest alone |
| StableSort.Shift | reference/router-daemon.c:581-587 | the inner loop moves exactly the smaller elements one place up and stops at the first that is not smaller |
| StableSort.SortedIsStableSort | reference/router-daemon.c:574-588 | the result is a permutation, descends by priority, and keeps hits of equal priority in their order |
| StableSort.StableSortUnique | reference/router-daemon.c:574-588 | no other sequence is a stable descending permutation |
| CText.BasenameRedundant | reference/router-daemon.c:481-486 | a suffix of the basename is a suffix of the path, so the first test never adds a match |
| CText.TokensAreFields | reference/router-daemon.c:284-294 | strtok's tokens are exactly the non-empty pipe-separated fields |
| RouterSpec.FileRuleMeaning | reference/router-daemon.c:474-489 | a file rule matches exactly the paths that end in one of its pipe-separated patterns |
| RouterSpec.BashRuleMeaning | reference/router-daemon.c:474-489 | a bash rule matches exactly the commands in which one of its pipe-separated patterns occurs |
| RouterTheorems.GreedyAccounting | reference/router-daemon.c:597-647 | after any prefix of the candidates: at most 3 skills, and the content is exactly the sum of sizes plus 7 per separator and within the budget |
| RouterTheorems.SentOnce | reference/router-daemon.c:604-610 | no request selects a skill twice |
| RouterTheorems.JoinedLength | reference/router-daemon.c:632-642 | length of joined parts: their sizes plus 7 between each two |
| RouterTheorems.StatusFromPreState | reference/router-daemon.c:569-572 | MATCHED iff some hit is new to the session and fits the buffer, DEDUPED iff there are hits and all are known, both judged by the table before the request; else the table is unchanged; content is non-empty iff MATCHED |
| RouterTheorems.NothingChosen | reference/router-daemon.c:601-659 | nothing is selected exactly if no candidate was eligible before the request, and then the table is untouched |
| RouterTheorems.LeftOut | reference/router-daemon.c:601-647 | a matched skill is not sent only if it was known or did not fit at its turn, or three others from hits before it were already chosen |
| RouterTheorems.PriorityDominance | reference/router-daemon.c:580-647 | an unselected skill that was new and would have fitted at its turn lost to three skills, none with a lower best priority |
| RouterTheorems.FirstIsBest | reference/router-daemon.c:590-610 | the first occurrence of a skill in the sorted hits carries its best priority |
| RouterTheorems.FullStays | reference/router-daemon.c:601 | once three are selected the remaining candidates change nothing, so the loop may stop |
| RouterTheorems.RefusedStays | reference/router-daemon.c:601-638 | without a table reset, a skill once refused stays refused |
| RouterTheorems.SeenEqualsSelected | reference/router-daemon.c:604-610 | skipping every skill seen earlier selects the same and leaves the same table as skipping only selected ones exactly if no hit repeats a passed-over skill that would be taken at that point |
| RouterTheorems.SameWithRoom | reference/router-daemon.c:452-456 | it does so whenever the table has room for three more pairs, which can be checked before the request |
| RouterTheorems.SameUnlessReset | reference/router-daemon.c:601-638 | and in every request in which the table does not reset |
| RouterTheorems.SameStatus | reference/router-daemon.c:599-659 | the status is the same under both rules, resets or not |
| RouterTheorems.SeenDiffersAfterReset | reference/router-daemon.c:452-456 | with a full table the two rules differ on hits a, b, a whenever the session knows a and not b |
| RouterReset.ResetMatters | reference/router-daemon.c:597-647 | such a request exists in a run from start-up: with two loaded skills and two rules, after 1024 sessions were sent a, a request's sorted hits are a, b, a and the code sends b only where the other rule would send a again |
| RouterReset.FillRuns | reference/router-daemon.c:451-461 | n requests of n sessions leave exactly their n pairs in the table, in order, for every n up to 1024 |
| RouterRuns.RunDedup | reference/router-daemon.c:441-461 | over every run the live slots are exactly the injections of the current block of 1024, the n-th in slot n mod 1024, and no pair is injected twice in one block |
| RouterRuns.MarkKeepsInv | reference/router-daemon.c:451-461 | one injection of a new pair goes to slot n mod 1024 and keeps that invariant |
| RouterRuns.NextKeepsInv | reference/router-daemon.c:724-815 | every connection keeps the table invariant and the validity of the library |
| RouterRuns.RunKeepsCaps | reference/router-daemon.c:770-775 | in every state between connections, also after RELOAD, rule indices are below the skill count and all tables and rules within their caps |
| RouterRuns.LoadedLibraryValid | reference/router-daemon.c:226-305 | whatever the directory and the rule tables hold, loading gives a library within the caps with all indices in range |
| OwnershipTheorems.Blame | src/pidfile.rs:16-40 | if two guards are ever live at once, an earlier unlink by a claimant removed an active instance's file, and that claimant had read another incarnation or this one before its pid was written |
| OwnershipTheorems.StealsAreCareless | src/pidfile.rs:17-27 | in every reachable state an unlink that hits an active instance's file is careless in that sense |
| OwnershipTheorems.StealBreaksExclusion | src/pidfile.rs:26-40 | conversely every such unlink can be continued to two live guards |
| OwnershipTheorems.TwoGuardsReachable | src/pidfile.rs:16-40 | a concrete run from an empty directory to two live guards |
| OwnershipTheorems.GuardExclusion | src/pidfile.rs:11-53 | in runs without such an unlink at most one guard is live at any moment, and the pid file is its holder's and names it |
| OwnershipTheorems.ExclusiveUntil | src/pidfile.rs:11-53 | up to the first theft every active instance owns the file on disk |
| OwnershipTheorems.OneAtATimeIsStealFree | src/pidfile.rs:16-40 | if at every moment at most one instance is between the exists and the write of its claim, as under a lock, no active instance's file is ever unlinked by a claimant |
| OwnershipTheorems.OneAtATimeIsExclusive | src/pidfile.rs:11-53 | so then at most one guard is live at any moment and the file names its holder |
| Ownership.StepKeepsInv | src/pidfile.rs:16-53 | every operation of every process, and every death, keeps the invariant linking files, incarnations and what claimants have read |
| OwnershipTheorems.SocketSafety | src/socket.rs:12-58 | as long as at most one guard was live at every moment, bind never removes the socket of an open listener and cleanup removes the daemon's own socket only |
| OwnershipTheorems.SocketSafetyWithoutTheft | src/socket.rs:12-58 | so in particular in runs in which no active instance's file was unlinked by a claimant |
| OwnershipTheorems.StepKeepsSockets | src/socket.rs:12-58 | while at most one guard is live, a daemon that has bound finds its own socket on the path until it cleans up |
| OwnershipTheorems.ShutdownTrue | src/client.rs:229-260 | in runs without such an unlink, when shutdown() returns true the daemon that acknowledged has finished on_stop or is dead, whatever other daemons did |
| OwnershipTheorems.ShutdownNeedsTheftFreedom | src/client.rs:248-260 | one live guard at a time is not enough for that: a run in which a claimant unlinks the file early and dies, and a client is told the daemon is gone before on_stop has run |
| OwnershipTheorems.StepKeepsClients | src/client.rs:122-145 | every step keeps what a waiting client relies on about the daemon that answered it |
| DaemonCode.Host.Claim | src/pidfile.rs:11-47 | under any interference claim ends with a guard or with an error and no guard, after at most 16 operations and at most three creates that found a file; AlreadyRunning means that the pid read last was running at the probe, or that three creates found a file; an I/O error means that the last operation failed; without thefts the file names the claimant on return; alone and without faults it is refused, changing nothing, exactly if the file names a running process, and else leaves a file of its own with its pid |
| DaemonCode.Host.ClearStale | src/pidfile.rs:17-27 | on its own recorded steps: refuses exactly if the pid it read was running at the probe, and then unlinks nothing; otherwise it unlinks, and an error means that its read or unlink failed |
| DaemonCode.Host.BindSocket | src/socket.rs:12-50 | its own steps are those of bind, in order and each at most once; Ok exactly if the last is a listen that succeeded; every failure goes to on_stop; alone and without faults it is Ok, with the daemon's own socket on the path, exactly if the path was empty or held a socket on which nobody answers, and else the path is untouched |
| DaemonCode.Host.ClearStaleSocket | src/socket.rs:18-44 | on its own recorded steps: unlinks exactly if the path was a socket and nobody answered the connect; a listener that answers is reported as in use, any other path or failure as an error; Ok means that the path is empty |
| DaemonCode.Host.ShutDown | src/daemon.rs:213-220 | its own steps are closing, cleanup, on_stop and the guard drop, in that order, each once; alone and without faults it leaves neither socket nor pid file |
| SoloRuns.SoloClaim | src/pidfile.rs:11-47 | the claim as the state machine takes it, alone and without faults: the exact condition and outcome |
| SoloRuns.SoloBind | src/socket.rs:12-50 | the same for bind: a stale socket file is unlinked and replaced, anything else on the path is left alone |
| SoloRuns.SoloDown | src/daemon.rs:213-220 | the same for the shutdown sequence: both files are gone |
| DaemonCode.Host.RunDaemon | src/daemon.rs:192-221 | on the daemon's own recorded steps, under any interference: after the claim each operation at most once and in one order; the guard is dropped last exactly if the claim succeeded; a successful bind is followed by close, cleanup, on_stop and drop; on_stop ran exactly if on_start succeeded; the error is the loop's, else the cleanup's, else on_stop's, and a failing on_stop masks a bind error |
| DaemonCode.Host.Shutdown | src/client.rs:122-145 | it returns true only after finding the socket gone and no running process behind the pid file, and then, if no theft happened, the daemon that acknowledged is over |
| DaemonCode.Host.WaitForShutdown | src/client.rs:229-260 | done means that its last own steps found no socket, and after that no pid in the file or one of a process not running; not done means that its last own step was an error or the timeout; alone, with time for at least one check, it is done exactly if there is no socket and the file names no running process |
| DaemonCode.Host.ShutdownComplete | src/client.rs:248-260 | one check, on its own recorded steps: true exactly if its operations succeeded, the socket was gone, and after that the file held no pid or the pid of a process not running at the probe |
| EventLoop.Daemon.RunEventLoop | src/daemon.rs:223-262 | on every exit: the state is the handler folded over the requests read, every frame is answered once on its own connection, nothing follows a Shutdown; on an idle exit, by the world's own times: no accept in the last idle timeout, nothing left that the listener had ready, and the clock at most one poll lateness past the deadline unless the last service ended later; no poll asks to sleep past the deadline or the interval; a signal, a failed poll or a failed accept ends the loop exactly if it happened |
| EventLoop.Daemon.LoopOnce | src/daemon.rs:232-259 | one round keeps the clock and service invariants and makes progress |
| EventLoop.Daemon.Drain | src/daemon.rs:245-258 | accepts and serves in order; going on polling means that an accept would have blocked |
| EventLoop.Daemon.ProcessConnection | src/daemon.rs:264-299 | one connection changes state and log as the specification says, and what goes out on the wire is the encoded answer, or a part of it if writing failed |
| Conversation.LoopUnderstood | src/daemon.rs:264-299 | across the wire, for every connection of a run whose answer was delivered: an encoded Ping gets bytes that the client takes for ready, a Shutdown for acknowledged, a Request for the handler's own result in the state all earlier requests made, and any other kind for an error |
| Conversation.AnswerUnderstood | src/client.rs:122-161 | the client's side of it: what each of its three calls makes of the answer |
| EventLoop.Daemon.PollListener | src/daemon.rs:309-327 | the sleep asked for is the timeout rounded down to whole milliseconds, or what an i32 holds, and so never passes the idle deadline |
| EventLoop.Daemon.ServedMeans | src/daemon.rs:223-299 | a service that ended in the recorded way has the folded state, one answer on the wire per frame read, and an end that no failing handler caused |
| EventLoop.ServeIsFold | src/daemon.rs:264-299 | serving connections is folding on_request over the payloads of the Request frames, failing handlers included |
| EventLoop.ServeDiscipline | src/daemon.rs:223-299 | the frames read are those sent, in accept order; each answer is made in the state all earlier requests produced; only a Shutdown, or a stream that cannot be switched to blocking, read or answered, ends the service early, and is reported as that |
| EventLoop.Daemon.Run | src/daemon.rs:192-221 | on_stop is called exactly if on_start succeeded, once, with the state the loop made of on_start's, with or without a pid file; the result carries the first error in the order loop, cleanup, on_stop, and an error of on_stop hides a bind error |
| EventLoop.ReportedMeans | src/daemon.rs:203-220 | exactly when each error is reported, and when none |
| ClientCode.WaitForReady | src/client.rs:178-198 | the k-th sleep is the k-th backoff; it ends at the first ping that succeeds or fails otherwise; ReadyTimeout never before the deadline and late by at most one sleep and one ping |
| ClientCode.BackoffStep | src/client.rs:185-187 | saturating doubling then the minimum gives min(2^k initial, max): saturation never shows |
| ClientCode.RecoverIfNeeded | src/client.rs:163-176 | without auto-start or for another error nothing is done; else one probe of the pid file, a start exactly if no live process is named, then the wait |
| ClientCode.Request | src/client.rs:105-115 | one send, and a second exactly if the first failed and the recovery succeeded, whose result is the result; with auto-start a recovery is attempted exactly if the first send failed with one of four kinds: not found, refused, aborted, not connected; at most one daemon is started, and only if the pid file named no live process |
| ClientCode.WaitForShutdown | src/client.rs:229-246 | checks every 20 ms until one says gone or fails; the timeout never before the deadline and late by at most one sleep and one check |
| AtMostOnce.RequestAtMostOnce | src/client.rs:105-161 | in every run of clients and daemons one request call has the handler run at most once, and Ok(r) means it ran and returned r, if recoverable errors come from connect only |
| AtMostOnce.SingleRetry | src/client.rs:105-115 | in every run a call sends at most twice, and at most once without auto-start |
| AtMostOnce.StepKeepsLinks | src/client.rs:147-161 | a call has at most one connection, and a retry starts only after none was made |
| AtMostOnce.StepKeepsResults | src/daemon.rs:280-291 | a returned Ok is the result of that call's own handler run |
| AtMostOnce.TwiceWithoutIt | src/client.rs:271-286 | the assumption is needed: a recoverable kind from the read makes one call run the handler twice |
| Frames.HeaderRoundTrip | src/frame.rs:66-96 | decoding inverts encoding, and encoding inverts decoding on every accepted header |
| Frames.KindOf | src/frame.rs:35-50 | a code is accepted exactly if it is the code of a kind, and gives that kind |
| Frames.FrameLayout | src/frame.rs:66-75 | the bytes on the wire, one by one: SOCK, 1, the kind from 1 to 7, flags and length with the high byte first, the payload |
| Frames.RefusedBecause | src/frame.rs:78-119 | exactly which bytes are refused, and with which error: the first that applies of magic, version, kind, length over the limit, end of file |
| Frames.FrameRoundTrip | src/frame.rs:98-147 | a frame followed by anything reads back as itself, using exactly its own bytes |
| Frames.ParseIsEncoding | src/frame.rs:98-119 | whatever is accepted is the encoding of what is returned |
| Frames.PrefixFree | src/frame.rs:98-147 | no frame's encoding is a proper prefix of another's |
| Frames.StrictPrefixFails | src/frame.rs:98-119 | every strict prefix of a frame fails to read, with an end-of-file error if the payload limit allows it |
| Frames.StreamRoundTrip | src/frame.rs:98-147 | the encodings of any list of frames, one after the other, parse back to the list with no byte left |
| Frames.Carry | src/frame.rs:98-147 | any list of frames written through an arbitrarily chunked writer and read through an arbitrarily chunked reader comes back equal with every byte consumed, and writing fails only if the writer at some point takes nothing |
| Frames.WriteFrames | src/frame.rs:125-147 | frame after frame into one writer gives the encodings in sequence |
| Frames.ReadFrames | src/frame.rs:98-119 | frame after frame out of one reader equals parsing the bytes, errors included |
| Frames.ReadFrame | src/frame.rs:98-119 | reading through any chunking equals parsing the bytes, error cases included |
| Frames.ReadExact | src/frame.rs:98-112 | short and interrupted reads are continued until n bytes or the end |
| Frames.WriteFrame | src/frame.rs:125-147 | Ok means exactly the encoding went out; an error means a prefix of it, and nothing if the payload is too long for the length field |
| Frames.WriteAll | src/frame.rs:143-144 | everything is written through any chunking, or a prefix and an error |
| Frames.EncodeInto | src/frame.rs:67-75 | the header buffer filled in place is the encoded header |
| JsonText.EscapeRoundTrip | reference/router-client.c:60-75 | scanning an escaped text gives it back exactly if its only control characters are newline and tab and it fits |
| JsonText.ScanUndoesEscape | reference/router-client.c:169-183 | on any text the scan of the escaped text is the text with carriage returns turned into r and other control characters dropped, cut to the room |
| JsonValues.EscapeIsJson | reference/router-client.c:169-183 | what is printed is always the inside of a JSON string (section 7 of RFC 8259), and stands for the text without its control characters other than newline, carriage return and tab |
| JsonValues.ScanReadsJson | reference/router-client.c:60-75 | of JSON strings without a \u escape the scanner reads exactly those for what they stand for that hold none of the escapes b, f and r |
| JsonText.FieldRoundTrip | reference/router-client.c:45-75 | the same exact condition for a field extracted from a document, with or without a space after the colon, if the label does not occur earlier and fits the pattern buffer |
| JsonText.ExtractJsonString | reference/router-client.c:45-75 | the buffer receives the scanned value and its terminator, or is left alone if the key is missing |
| JsonText.Find | reference/router-client.c:52-58 | the first occurrence, or none if there is none |
| JsonText.PrintJsonEscaped | reference/router-client.c:169-183 | the loop emits the escape of the text, character by character |

## Left out

- System calls are nondeterministic outcomes or single steps of the state machine; `src/process.rs` is the step in which a new instance appears.
- `src/ffi.rs`, `include/sockd.h`, the Python and Swift examples: glue over the client without an algorithm.
- `src/error.rs` display text, builder setters and `src/config.rs`: easy members only.
- The rules compiled into `load_rules` (`reference/router-daemon.c:307-436`): rule tables are arbitrary.
- `kill_stale_daemon`, logging and statistics of the C daemon: no property here depends on them.
- The timestamp of a dedup entry, which nothing reads.
- Pid casts and range in `is_process_alive`: liveness is a set of pids.
- Panics and allocation failure, tampering with the files by other programs, and C strings without a terminator, are excluded.
- A C request whose header arrives but whose body is cut short is taken as whole; the source reads on from whatever the struct held.
- Session ids longer than 63 characters, which the fixed field of the request cannot hold.
- Skill files larger than INT_MAX - 24583 bytes, for which the source's int sums would overflow.
- `MappedSkill` data and the inner arrays of a rule are values; mapping and unmapping memory and aliasing between them are not modelled.
- Creation of parent directories before the claim and the bind.
- The write and flush of a pid are one step that succeeds or fails as a whole; a partly written number is not modelled.
- Conversion of error messages through UTF-8, and errors of a stream's read other than end of file.
- A debug name of a frame kind is taken as its ASCII text.
- DaemonCode.Host.Shutdown: `Ok(false)` and the error cases of shutdown() are one result, so which of them is reported, and the pid probe that decides it, are not stated.
- DaemonCode.Host.BindSocket: which I/O error is reported is not distinguished.
- DaemonCode.Host.RunDaemon: the event loop is one step here, either an end by itself or the acknowledgement of a client; its contents are in EventLoop.
- OwnershipTheorems.ShutdownTrue: a frame other than the acknowledgement, sent in reply to Shutdown, is one failing step of the client.
- EventLoop.Daemon.Run: whether setup, claim, bind and cleanup succeed is an input here; those operations and the drop of the guard are performed, and accounted for, in DaemonCode.Host.RunDaemon.
- EventLoop.Daemon.RunEventLoop: time passes only in polls and while a connection is served; what passes between other operations, such as an accept and the reading of the clock after it, counts towards those.
- Flushing a stream after a frame, which buffers nothing here.
- ClientCode.WaitForReady: assumes that time passes in every round, because a ping takes time or because both backoffs are positive; otherwise the loop spins.
- JsonValues.ScanReadsJson: a \u escape, which the scanner takes for the letter u and four digits, is outside its reading of JSON; the escaper makes none.
- JsonText.FieldRoundTrip: a label longer than the 255 characters of the pattern buffer is cut by the scanner and not covered.
