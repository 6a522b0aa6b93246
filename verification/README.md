# OpenPS3FTP: a verified model

OpenPS3FTP is an FTP server in C for the PlayStation 3 and for ordinary hosts. One reactor thread polls all
control connections and runs the commands. A pool of worker threads runs the data transfers. Jobs go to the
workers through a circular queue and come back through a completion stack; lines for a control connection that
a worker produces go through a reply queue. Clients are shared by reference counting, and a generation number
separates a client's current transfer from earlier ones.

This project models that machinery in Dafny and proves what it is meant to guarantee. `dafny verify
dfyconfig.toml` checks everything.

| files | what they model |
|---|---|
| `Common`, `Addresses` | shared vocabulary; the peer comparison of the data channel |
| `ServerState`, `ServerSteps` | the shared memory of the server and every step of reactor and workers |
| `ServerInvariant`, `PlaceProofs`, `CountProofs`, `DescriptorProofs`, `LinkProofs` | the invariant, in parts |
| `WorkerProofs`, `ReactorProofs`, `DispatchProofs`, `RetireProofs`, `ServerTheorems`, `LateLine` | that every step keeps it, and what follows for every run |
| `StepForms`, `ServerHistory`, `ServerMeaning`, `ServerFrames`, `ServerReports` | what each step does, to whom, and what replies and flags tell about it |
| `JobRing` | the circular job queue |
| `ControlLines`, `Utf8` | framing of the control stream; the UTF-8 check |
| `Paths`, `Resolver`, `ResolverTheorems` | path resolution, the stored working directory, containment |
| `MemTree`, `MemView`, `MemFs` | the in-memory file system: node graph, path map, operations |
| `CopySpec`, `CopyRun`, `CopyProofs`, `CopyTree` | server-side copying of files and trees |
| `Schedules`, `Transfer`, `Listing` | RETR, STOR, APPE and the batched listings under any I/O schedule |
| `AvlTree`, `AvlHeap` | the AVL map, as values and on linked nodes |
| `PrefixTree`, `PrefixHeap` | the prefix tree, as values and on linked nodes |
| `Pollset`, `UiView`, `UiModel` | the poll set; what a poll of the display means, and the display model |

How the world enters: the order of steps, what poll, recv, send, read and write return, failures of the file
system, cancellation and the order of directory entries are parameters, schedules or nondeterministic choices,
so every theorem holds for all of them.

Where the code falls short of what one might expect, the model follows the code:

- Relative arguments. `cmd_cwd` stores a root-relative directory, while the resolver drops as many leading
  components from an absolute cwd as the root has. `RelativeArgument` gives the exact condition under which a
  relative argument still means what it says.
- Copying. A comment in `src/transfer.c` says that an existing destination is left untouched on failure; it is
  opened with truncation. `ExistingFileKept` says exactly when its contents survive; `CancelledCopyEmpties` and
  `FailedCopyOverwrites` show copies after which they do not.
- Copying into the parent. A copy to a directory that contains the source is accepted and can change the source
  (`NestedCopyChangesSource`); `ApartExactly` says which copies cannot.
- Late replies. A comment in `src/client.c` says the generation test keeps a client that disconnected from getting a
  reply. A line stamped after the disconnect passes that test, and only such a line does (`LineIsCurrent`,
  `LateLineReachable`); the closed descriptor stops it (`QueuedLineDelivered`).
- Listings. A readdir failure can be reported as success (`FailureMasked`, `MaskedExactly`).
- RETR. All bytes can have been sent and the result still be a cancellation (`RetrResult`).
- Prefix tree. It is a map on prefix-free keys; `InsertSearch` and `InsertIsUpdate` say what happens otherwise.

## Model

| member | source | states |
|---|---|---|
| ServerTheorems.NoRunCrashes | src/server.c:534-612 | For any number of workers and any interleaving of reactor and worker steps, no step touches a freed client, job or pending reply, closes a descriptor it does not hold, or writes to one that is closed. |
| ServerTheorems.StepSafe | src/server.c:222-307 | Each single step (accept, poll, handle, drain, complete, disconnect, take, connect, post) is safe from every good state and leads to a good state; a new listener may get the number of the one just closed. |
| ServerTheorems.ReferencesExact | src/client.c:37-50 | In every reachable state a client's reference count is 1 if it is in the reactor's list plus its jobs queued, running or awaiting completion plus its pending replies, and the client is allocated exactly while that sum is positive. |
| ServerTheorems.PollSetIsRegistry | src/server.c:222-290 | In every reachable state the poll set points exactly at the registered clients, which are allocated and have their control descriptor open, although its pointers hold no reference. |
| ServerTheorems.JobInOnePlace | src/datachan.c:128-172 | A job is in exactly one of queue, one worker, the completion stack or the batch being completed while it is allocated, and in none afterwards. |
| ServerTheorems.PointerMatchesGeneration | src/commands.c:1095-1144 | A client's job pointer is set exactly when one in-flight job carries its current generation, and points to that job; a client that hung up has none. |
| ServerTheorems.AtMostOneTransfer | src/commands.c:1101-1104 | Never more than one in-flight job carries a client's current generation, not even between dispatch and assignment. |
| ServerTheorems.DescriptorsHeldOnce | src/server.c:228-262 | Open descriptors and their holders (control, listener, data, both pipe ends) correspond one to one, so each is closed at most once and none leaks. |
| ServerTheorems.NoForeignDataConnection | src/datachan.c:213-349 | With foreign ports off, every established data connection ends at the control peer's host, up to IPv4-mapped addresses; a client never holds a passive listener and an active target together. |
| ServerTheorems.DialogueKept | src/server.c:517-587 | The replies on every control connection follow the RFC 959 section 4.1.3 dialogue automaton, and its state is the one the client's fields announce. |
| ServerTheorems.FinalAnswersOneStart | src/datachan.c:353-427 | In every reachable state, every completion reply answers an earlier acceptance of the same job with no other transfer reply in between, and the extra 226 has been written right after it exactly if ABOR arrived in between. |
| ServerTheorems.OneStartOneFinal | src/datachan.c:353-427 | In every reachable state a job has been accepted at most once and answered at most once on a control connection. |
| ServerTheorems.PreliminaryWritten | src/commands.c:1105-1144 | After a dispatch the 150 is the next thing written, even if the worker has finished the job already, and the client then points at the job; TransferAccepted says when there is a dispatch. |
| ServerTheorems.CompletionReplies | src/datachan.c:360-427 | Draining a completion writes exactly one terminal reply to a client that is still connected, plus the 226 for ABOR exactly if one is owed, and nothing to anybody else or to a client that hung up. |
| ServerTheorems.SuccessCodesExact | src/datachan.c:386-417 | 226 or 250 is answered exactly for a job without error, and a job whose result is ECANCELED is answered 426. |
| ServerTheorems.QueuedLineDelivered | src/client.c:149-167 | A line queued by a worker is written exactly if its generation is current and its client is still connected. |
| ServerTheorems.LineIsCurrent | src/client.c:149-167 | In every reachable state a pending line passes the generation test exactly if it was stamped on that side of the hang-up on which its client now is: one of a client that hung up exactly if it was stamped after the hang-up. |
| ServerTheorems.LateIsAfterHangup | src/client.c:123-146 | The line a worker queues counts as late exactly if its client had hung up when the worker read the generation, and its stamp is then the client's second generation. |
| ServerTheorems.ReachStep | src/server.c:534-612 | The reachable states are closed under every step a thread can take. |
| ServerMeaning.TransferAccepted | src/commands.c:1095-1144 | A data transfer is started, with one new job last in the queue that carries the request and the set-up, exactly if the client has no transfer, has a listener or a target, the target is its own host or foreign ports are allowed, the cancel pipe was made, and fewer than 2*workers jobs wait. Otherwise one reply is written and no job is made, and only a full queue spends the set-up. |
| ServerMeaning.CopyAccepted | src/commands.c:504-546 | CPTO is started exactly if the client has no transfer, the arguments pass, the pipe was made and the queue has room; it leaves the data-channel set-up alone. |
| ServerMeaning.OldestFirst | src/datachan.c:128-156 | In every reachable state a worker takes the waiting job that was dispatched first. |
| ServerMeaning.AborHeard | src/commands.c:1077-1090 | ABOR flags the job of its own client and no other; without a job it is answered 226 at once. |
| ServerMeaning.SetUpReplaced | src/commands.c:810-1012 | After PASV, EPSV, PORT or EPRT the client has just the new set-up, the old listener is closed, nothing else is closed or opened, and one line is written. |
| ServerMeaning.Admitted | src/server.c:264-307 | An accepted connection that can be polled is registered under a new name and greeted; one that cannot leaves nothing behind. |
| ServerMeaning.HangupEnds | src/server.c:222-262 | A hang-up takes the client off the registry and closes its control and listening descriptors and no others. |
| ServerFrames.JobFollows | src/datachan.c:254-349 | Over every step of every run a job keeps the orders it was made with until its completion frees it; it is cancelled by the ABOR or hang-up of its own client only, connected only by the worker that runs it (to the control peer's host unless foreign ports are allowed), and ends as that worker reports. |
| ServerFrames.ClientFollows | src/client.c:37-50 | Over every step of every run a client is changed only by its own commands, by the opening and the completion of the transfer it points at and by its own hang-up, each in the stated way. |
| ServerReports.CancelledExactly | src/commands.c:1077-1090 | In every reachable state an allocated job is asked to stop if and only if its client has hung up, or has sent ABOR since the job was accepted. |
| ServerReports.RepliesTellResults | src/datachan.c:353-427 | For every completion reply in every run, the run has exactly one report of that job, and the code is the one its result calls for: 226 or 250 for success, 425, 426, 550 each for its own errors and nothing else, 451 for the rest. |
| ServerReports.CodeTable | src/datachan.c:386-417 | The reply code of every operation, connection state and result, both ways. |
| ServerHistory.ReachableHistory | src/transfer.c:668-682 | In every reachable state a job is reported at most once, a job awaiting completion is as its worker reported it, and jobs wait in dispatch order. |
| LateLine.LateLineReachable | src/client.c:149-167 | Counterexample, as a run of twelve steps from the start: a line of a client that hung up passes the generation test, and draining it writes nothing. |
| Addresses.AddrEqIsNormalEquality | src/datachan.c:178-211 | addr_eq is equality after mapping IPv4-mapped IPv6 addresses to IPv4, and never holds for other families. |
| Addresses.AddrEqIsSameHost | src/datachan.c:178-211 | addr_eq says exactly that both are internet addresses of one host, for byte strings of any length. |
| Addresses.AddrEqIsEquivalence | src/datachan.c:178-211 | On internet addresses addr_eq is reflexive, symmetric and transitive. |
| JobRing.JobQueue.constructor | src/datachan.c:25-52 | The queue starts empty with two slots per worker. |
| JobRing.JobQueue.Dispatch | src/datachan.c:158-172 | A job is refused exactly when 2*workers jobs wait; otherwise it joins the end. |
| JobRing.JobQueue.Next | src/datachan.c:128-156 | Jobs are taken in dispatch order, each once; a worker leaves exactly when the pool is stopped and the queue is empty. |
| JobRing.JobQueue.Stop | src/datachan.c:54-72 | Stopping visits every waiting job once, in order. |
| JobRing.WindowPush | src/datachan.c:158-172 | Writing the slot after the window extends the circular window by that element. |
| ControlLines.ControlBuffer.Read | src/client.c:54-89 | Leftover bytes move to the front, received bytes are appended, and a full buffer is an error. |
| ControlLines.ControlBuffer.GetLine | src/client.c:91-110 | The next line up to LF, without one CR and cut at 1023 bytes, leaves the buffer; nothing happens without an LF. |
| ControlLines.ControlBuffer.OnReadable | src/server.c:378-402 | One readable event hands out every complete line until a handler ends the reading, end of stream, an error, a full buffer without LF, or nothing more has arrived; each ending is told apart exactly, and every recv takes at least one of the waiting bytes. |
| ControlLines.ServeStream | src/server.c:378-402 | However the bytes arrive over the polls and however recv cuts them, once all of them have arrived and recvs enough were made, the lines handed out are the lines of the stream up to the one whose handler ends the reading, and the connection ends as the stream says: stopped by a handler, dropped exactly if a line overflows the buffer, else by what the peer does. Before that, the same holds of what was received. |
| ControlLines.WholeLines | src/client.c:91-110 | Lines already cut off are not affected by anything that follows. |
| Utf8.Validate | src/utf8.c:9-49 | A string is accepted exactly if it is the UTF-8 encoding of some sequence of Unicode scalar values (RFC 3629). |
| Utf8.AcceptsIffWellFormed | src/utf8.c:9-49 | The byte tests accept exactly the encodings. |
| Utf8.DecodingUnique | src/utf8.c:9-49 | Two scalar sequences with the same encoding are equal. |
| Resolver.SplitComponents | src/resolve.c:12-35 | Yields the non-empty segments between slashes, at most `cap`, none for an overlong path. |
| Resolver.Resolve | src/resolve.c:37-142 | Computes the specified text or refusal for every root, cwd, argument and buffer size, and reports the trailing slash. |
| Resolver.Parent | src/resolve.c:144-174 | The text before the last slash after trailing slashes are stripped, or a refusal for length. |
| ResolverTheorems.ParentMeaning | src/resolve.c:144-174 | On canonical paths the parent has the same components without the last, and "/" has none. |
| ResolverTheorems.Contained | src/resolve.c:37-142 | Every successful resolution under a canonical root and cwd is canonical, inside the root component by component, and accepted by under_root. |
| ResolverTheorems.UnderRootMeaning | src/fs_rooted.c:29-37 | On canonical paths the textual prefix test is component-list containment, both ways. |
| ResolverTheorems.IsUnderMeaning | src/commands.c:118-126 | On canonical paths path_is_under means strict containment, both ways. |
| ResolverTheorems.AbsoluteArgument | src/resolve.c:37-142 | An absolute argument gives root plus the clamped normal form of its components; the only refusals are for length; an argument of 1024 bytes or more gives the root. |
| ResolverTheorems.VisibleRoundTrip | src/commands.c:348-374 | The directory CWD shows, resolved again as an absolute argument, gives back the same path. |
| ResolverTheorems.WorkingDirectory | src/commands.c:348-374 | In every run of CWD commands over a changing file system the stored directory stays canonical, fits its buffer, and names the root or a directory the file system reported to one of the commands. |
| ResolverTheorems.ChangeDirMeaning | src/commands.c:348-374 | CWD moves exactly if the resolved path is a directory: the stored directory then names that path under the root, fits its buffer and resolves back to it; otherwise it is left as it was. |
| ResolverTheorems.ChangeDirAbsolute | src/commands.c:348-374 | For an absolute argument the stored directory becomes the clamped normal form of its components exactly if the path is short enough and a directory, and otherwise stays. |
| ResolverTheorems.RelativeArgument | src/resolve.c:67-95 | From the root-relative cwd that CWD stores, a relative argument is resolved as meant if and only if the root is "/", or the cwd is shallower than the root, or the argument climbs out of it, and the 512-entry stack suffices. |
| ResolverTheorems.RelativeArgumentStrays | src/resolve.c:67-77 | Counterexample: under /r, in the directory shown as /a, the argument b leads to /r/b. |
| ResolverTheorems.PrefixedArgument | src/resolve.c:67-95 | From a cwd that contains the root, a relative argument is resolved as meant exactly within the 64- and 512-component limits. |
| ResolverTheorems.WalkExact | src/resolve.c:84-96 | The bounded stack agrees with the unbounded normal form if and only if no prefix of the argument goes deeper than 512. |
| MemFs.MemoryFs.constructor | src/fs_mem.c:493-512 | A new file system holds just the root directory. |
| MemFs.MemoryFs.FindChild | src/fs_mem.c:112-119 | Finds the child with a name exactly if that path exists. |
| MemFs.MemoryFs.Lookup | src/fs_mem.c:66-84 | Finds the node at a path exactly if the path exists. |
| MemFs.MemoryFs.LookupParent | src/fs_mem.c:86-110 | Finds the parent directory, or reports the first missing (ENOENT) or non-directory (ENOTDIR) ancestor, or EEXIST for the root. |
| MemFs.MemoryFs.Open | src/fs_mem.c:121-170 | Creates or truncates exactly as flagged, with exact errors; creation and truncation stay even if no descriptor is free. |
| MemFs.MemoryFs.Mkdir | src/fs_mem.c:332-352 | Adds one directory and nothing else, with exact errors; the graph stays a tree. |
| MemFs.MemoryFs.Rmdir | src/fs_mem.c:354-373 | Removes one empty directory and nothing else, with exact errors. |
| MemFs.MemoryFs.Unlink | src/fs_mem.c:375-392 | Removes one file and nothing else, with exact errors. |
| MemFs.MemoryFs.Rename | src/fs_mem.c:394-443 | On success new+s is what old+s was for every s, old+s is gone, every other path is unchanged; errors are exact and change nothing. |
| MemTree.SiblingNames | src/fs_mem.c:66-119 | In every such graph siblings have different names. |
| MemTree.RootReached | src/fs_mem.c:409-417 | No cycle: from every node the parent links reach the root in as many steps as the path has names. |
| MemTree.MoveKeeps | src/fs_mem.c:433-440 | Unhooking, renaming and hooking in a subtree outside itself keeps the graph a tree with every path below it moved along. |
| MemView.RenameBack | src/fs_mem.c:394-443 | Renaming to a free name and back restores every entry. |
| CopyTree.FileSystem.CopyFile | src/transfer.c:386-432 | Makes the calls, counts the bytes and leaves the files that the answers of the file system, the allocator and the cancel flag determine. |
| CopyRun.FileOutcome | src/transfer.c:386-432 | On success the destination is the source and its size is counted; otherwise a new destination is gone again and an existing file holds its old contents or a beginning of the source; a refusal has its reason in the files. |
| CopyRun.FileHistory | src/transfer.c:386-432 | A file copy fails exactly if one of its calls did, and is cancelled only if the flag was set by then. |
| CopyRun.ExistingFileKept | src/transfer.c:383-401 | A copy that does not succeed leaves an existing destination as it was if and only if it stopped before the open that truncates, or the bytes it wrote are what was there. |
| CopyRun.ForeignFileKept | src/transfer.c:396-431 | Told from the inputs: an existing file that is no beginning of the source survives a copy that does not succeed exactly if that copy never opens both files. |
| CopyRun.CancelledCopyEmpties | src/transfer.c:396-401 | Counterexamples: every copy that is cancelled before its first read empties an existing destination. |
| CopyRun.FailedCopyOverwrites | src/transfer.c:413-431 | Counterexample: a copy whose second read fails leaves one byte of the source in place of the old contents. |
| CopyTree.FileSystem.Copy | src/transfer.c:483-569 | Terminates under any read order; keeps everything outside the destination; on success every source entry is copied and the byte count is the sum of the copied sizes; it fails exactly if a call did; depth, length and conflict errors have their cause in the trees; and unless cancelled it succeeds exactly if no call fails and nothing in the two trees is too deep, too long or in the way. |
| CopyProofs.TreeCopied | src/transfer.c:483-569 | After success: same relative paths with identical bytes, unmatched destination entries survive, everything new is a copy, source and the rest unchanged. |
| CopyProofs.Unblocked | src/transfer.c:507-557 | A copy that is in place had nothing in its way: the converse of the reasons for a refusal. |
| CopyProofs.ApartExactly | src/commands.c:517-531 | The tree copies the model covers are exactly those of which no entry's copy is a path of the source; that includes a source inside its destination unless it has an entry at its own relative place. |
| CopyProofs.NestedCopyReplaces | src/transfer.c:553-557 | A copy to a directory that contains the source replaces a source file by the one from deeper inside that has its place. |
| CopyProofs.NestedCopyChangesSource | src/commands.c:527-531 | Counterexample: copying /a/b to /a is accepted, and however it is done it changes /a/b/f when /a/b/b/f differs. |
| CopyProofs.DirectoryOverFile | src/transfer.c:507-513 | A source directory met by a destination file passes only if nothing below it had to be copied. |
| CopyProofs.TouchedSafe | src/transfer.c:423-431 | A file copy that stopped keeps the whole tree copy safe: no path is lost and nothing new is partial. |
| CopySpec.WalkInto | src/transfer.c:493-560 | Opening a directory keeps every source path handled or below exactly one pending entry. |
| Schedules.StopsExactly | src/transfer.c:97-132 | What it means to end as a schedule says: failed exactly if the last event used is an error, cancelled exactly if it is a cancellation, and complete or out of events exactly if no event used is either. |
| Schedules.StorStopsExactly | src/transfer.c:324-378 | The same for uploads, where a cancellation is only noted while a buffer is written: failed exactly if an error was met, which is then the last event used; completed only if no cancellation was met, cancelled only if one was. |
| Transfer.SendAll | src/transfer.c:97-132 | Sends the bytes the schedule lets through, in order, and completes exactly if all went out. |
| Transfer.Retr | src/transfer.c:286-321 | Sends the slice of the file from the restart point that the schedule lets through, and counts whole chunks. |
| Transfer.Download | src/transfer.c:286-321 | The client gets a prefix of file[rest..] under any schedule, and exactly that on success, with the counter equal to its length; without errors and cancellations and with calls enough it does succeed. |
| Transfer.RetrPrefix | src/transfer.c:286-321 | What RETR sends is a prefix of file[rest..], all of it if it succeeds; the counter never runs ahead and lags by less than a buffer. |
| Transfer.RetrResult | src/transfer.c:307-317 | RETR succeeds if and only if everything was sent and the next answer after the last byte is end of file rather than a cancellation or an error. |
| Transfer.RetrStops | src/transfer.c:286-321 | RETR ends early only because of what the schedule says: cancelled if the first thing that stops it is a cancellation, failed if it is an error, and otherwise only when the schedule is used up. |
| Transfer.RetrCompletes | src/transfer.c:286-321 | With no error or cancellation and more successful calls than twice the bytes to send, RETR completes. |
| Transfer.SendStops | src/transfer.c:97-132 | A send ends early only by the first error or cancellation of the schedule, or because the schedule ends. |
| Transfer.SentButCancelled | src/transfer.c:307-317 | Counterexample: every byte sent and the result still cancelled. |
| Transfer.WriteAll | src/transfer.c:324-334 | Partial writes add up to one write of what went through, at the same position. |
| Transfer.Stor | src/transfer.c:338-378 | The file holds the received prefix written at the position, and the counter the whole chunks. |
| Transfer.StorPrefix | src/transfer.c:338-378 | An upload stores a beginning of what the client sent, and all of it if it completes. |
| Transfer.UploadStops | src/transfer.c:338-378 | An upload ends early only by the first error, by a cancellation, after which no more than the rest of one buffer is written, or because the schedule ends. |
| Transfer.UploadCompletes | src/transfer.c:338-378 | With no error or cancellation and more successful calls than twice the bytes sent by the client, an upload completes. |
| Transfer.Receive | src/transfer.c:338-378 | A completed STOR is the upload, a completed REST STOR overwrites from the restart point, a completed APPE appends, whatever the schedule; without errors and cancellations and with calls enough it does complete. |
| Transfer.WriteAtIndex | src/fs_mem.c:206-229 | A write changes exactly its range, byte by byte, and fills a gap with zeros. |
| Transfer.WriteOn | src/fs_mem.c:206-229 | Writing piece after piece is writing all of it. |
| Transfer.StoreThenRetrieve | src/transfer.c:286-378 | STOR then RETR, both complete, returns the upload; an incomplete RETR returns a prefix. |
| Transfer.ResumeUpload | src/transfer.c:338-378 | An upload that broke off anywhere and is resumed at the size reached ends as the whole. |
| Listing.List | src/transfer.c:200-282 | What the client gets is a prefix of the lines in readdir order, sent in batches of at most 8192 bytes, and the counter is what was flushed. |
| Listing.ListDirectory | src/transfer.c:252-280 | The client gets a prefix of all lines in readdir order, and exactly those on success unless readdir failed; on success the counter is the number of bytes; without errors and cancellations and with calls enough it does succeed. |
| Listing.ListPrefix | src/transfer.c:252-280 | No more is sent than the lines read hold, and the counter never runs ahead. |
| Listing.ListComplete | src/transfer.c:252-280 | Result 0 means every line read was sent and counted, and without a readdir failure that every line was read. |
| Listing.ListingStops | src/transfer.c:200-282 | A listing ends early only by the first error of a send, the first cancellation or the end of the schedule, or at a readdir failure, after which nothing but the batch is sent. |
| Listing.ListingCompletes | src/transfer.c:200-282 | With no error or cancellation and more successful calls than lines and bytes together, a listing completes. |
| Listing.FailureMasked | src/transfer.c:212-281 | A listing meets a readdir failure exactly if the schedule says so, and then ends as sending the batch ends if the batch holds anything, and as failed otherwise; the batch is empty only if no line was read. |
| Listing.MaskedExactly | src/transfer.c:212-281 | A readdir failure is reported as success if and only if something is in the batch when it happens and the batch can be sent with what is left of the schedule. |
| Listing.FailureReportedAsSuccess | src/transfer.c:278-281 | Counterexample: one line, a readdir failure, result 0. |
| AvlTree.BalanceIdentity | legacy/src/avlutils.c:256-285 | Balancing a balanced tree changes nothing. |
| AvlTree.TurnBalances | legacy/src/avlutils.c:270-282 | The rotation chosen for a node off by at most two balances it and costs at most one level. |
| AvlTree.TurnContents | legacy/src/avlutils.c:206-254 | Every rotation keeps order, keys and values. |
| AvlTree.InsertCorrect | legacy/src/avlutils.c:21-63 | Insertion keeps order and balance, adds the key and never overwrites. |
| AvlTree.RemoveCorrect | legacy/src/avlutils.c:126-169 | Removal keeps order and balance and takes away exactly the key. |
| AvlTree.RunAgrees | legacy/src/avlutils.c:21-78 | Every run of insertions and removals yields an AVL tree that agrees with a finite map. |
| AvlTree.HeightLogarithmic | legacy/src/avlutils.c:171-187 | A balanced tree of height h has at least 2^(h/2) - 1 entries. |
| AvlHeap.SearchNodes | legacy/src/avlutils.c:102-112 | The loop finds the node with the key exactly if the tree has it. |
| AvlHeap.HeightOf | legacy/src/avlutils.c:171-187 | Computes the height of the tree the nodes hold. |
| AvlHeap.FactorOf | legacy/src/avlutils.c:189-204 | Computes right height minus left height. |
| AvlHeap.TurnLL | legacy/src/avlutils.c:206-215 | The pointer updates perform the LL rotation on the same nodes. |
| AvlHeap.TurnLR | legacy/src/avlutils.c:217-229 | The pointer updates perform the LR rotation on the same nodes. |
| AvlHeap.TurnRL | legacy/src/avlutils.c:231-243 | The pointer updates perform the RL rotation on the same nodes. |
| AvlHeap.TurnRR | legacy/src/avlutils.c:245-254 | The pointer updates perform the RR rotation on the same nodes. |
| AvlHeap.BalanceNodes | legacy/src/avlutils.c:256-285 | Balancing in place refines balancing the value, on the same nodes. |
| AvlHeap.Descend | legacy/src/avlutils.c:21-39 | The descent ends at the key or at the node under which it belongs. |
| AvlHeap.InsertKey | legacy/src/avlutils.c:21-63 | Insertion in place refines insertion on values; only new nodes are added. |
| AvlHeap.LastNode | legacy/src/avlutils.c:114-124 | Finds the in-order predecessor. |
| AvlHeap.RemoveHere | legacy/src/avlutils.c:126-143 | Replaces a node by its predecessor or its only child. |
| AvlHeap.RemoveKey | legacy/src/avlutils.c:145-169 | Removal in place refines removal on values. |
| AvlHeap.AvlMap.Search | legacy/src/avlutils.c:16-19 | Finds exactly the stored keys, with their data. |
| AvlHeap.AvlMap.Insert | legacy/src/avlutils.c:21-63 | The linked tree stays an AVL tree and changes as a map does, without overwriting. |
| AvlHeap.AvlMap.Remove | legacy/src/avlutils.c:75-78 | The linked tree stays an AVL tree and loses exactly the key. |
| PrefixTree.InsertSearch | legacy/src/pftutils.c:75-104 | Every insertion sets the data of exactly one key, the one it lands on, and leaves every other search result alone. |
| PrefixTree.LandingElsewhere | legacy/src/pftutils.c:77-82 | If it lands elsewhere, that is a stored proper prefix of the key, and the key itself is not found. |
| PrefixTree.LandsOnBlocker | legacy/src/pftutils.c:77-82 | An insertion lands on a proper prefix of its key exactly if that prefix is stored and no stored key goes on from it as the key does. |
| PrefixTree.InsertIsUpdate | legacy/src/pftutils.c:75-104 | An insertion acts as on a map if and only if no stored proper prefix of the key has nothing stored that goes on as the key does. |
| PrefixTree.RunFormed | legacy/src/pftutils.c:21-104 | After any insertions siblings differ and an end-of-key node is last in its list. |
| PrefixTree.RunIsMap | legacy/src/pftutils.c:16-104 | For every sequence of prefix-free keys a search returns what was last inserted for the key and nothing for other keys. |
| PrefixTree.PrefixOverwrites | legacy/src/pftutils.c:77-82 | Counterexample: inserting "ab" after "a" overwrites the data of "a". |
| PrefixHeap.SearchNode | legacy/src/pftutils.c:53-73 | The recursive search over nodes computes the search on the value they hold. |
| PrefixHeap.InsertNode | legacy/src/pftutils.c:75-104 | Insertion in place refines insertion on values; only new nodes are added. |
| PrefixHeap.PtTree.Insert | legacy/src/pftutils.c:21-29 | The tree object holds what all insertions so far make. |
| PrefixHeap.PtTree.Search | legacy/src/pftutils.c:16-19 | On prefix-free keys the data last inserted. |
| Pollset.PollSet.constructor | src/pollset.c:28-55 | Starts with the wake slot and no handles. |
| Pollset.PollSet.EnsureCap | src/pollset.c:69-80 | Growth keeps every slot and user. |
| Pollset.PollSet.Add | src/pollset.c:82-106 | Gives the first free handle, never a live one; all other handles keep their descriptor and user. |
| Pollset.PollSet.Mod | src/pollset.c:108-115 | Changes the interest of one slot, never the wake slot, and nothing else. |
| Pollset.PollSet.Remove | src/pollset.c:119-128 | Ends exactly one handle. |
| Pollset.PollSet.Wait | src/pollset.c:130-150 | Takes over what poll reports, clears the wake slot exactly if it reports input or an error, and counts the ready slots. |
| Pollset.PollSet.Collect | src/pollset.c:169-186 | Reports user and events of the ready slots after the wake slot, in slot order, all of them up to the limit. |
| Pollset.PollSet.ReadyHandles | src/pollset.c:164-186 | These are exactly the ready live handles, each with the user it was added with: never the wake slot, a removed slot or one added since the last wait. |
| UiModel.Ui.constructor | app/ui.c:290-297 | Starts empty. |
| UiModel.Ui.EvPush | app/ui.c:64-75 | The event ring holds the last min(n, 4) pushes. |
| UiModel.Ui.HistPush | app/ui.c:77-93 | The history ring holds the last min(n, 48) pushes, and the session totals count all of them and their bytes. |
| UiModel.Ui.TrkFind | app/ui.c:95-107 | The peer's slot, else a cleared free one, else none because all are taken by other peers. |
| UiModel.Ui.Progress | app/ui.c:137-172 | A start, an update or an end of a transfer, each counted and recorded once; the name of a transfer stays as first seen and its figures follow the snapshot. |
| UiModel.Ui.Observe | app/ui.c:119-173 | A client of the snapshot is entered in the books: a new one is announced unless the table is full, and its transfer starts, goes on or ends with exactly one count or record. |
| UiModel.Ui.ExpireAll | app/ui.c:177-186 | Exactly the clients not seen are struck out, each once, with a disconnect and, if it had a transfer, a record that it broke. |
| UiModel.Ui.Poll | app/ui.c:112-187 | For every snapshot, with duplicate peers and full tables: the clients known, the starts, the records and the events afterwards are those of entering all clients and striking out the vanished; starts equal finished plus active, connects equal disconnects plus present; only peers of the snapshot stay tracked, each active exactly if its last client in the snapshot is and with its figures; and all are tracked if and only if the clients tracked before and those of the snapshot together fit the table. |
| UiView.PollMeaning | app/ui.c:112-187 | What entering and striking out amounts to: nothing recorded is lost, every entry shows the last the snapshot says of it, and the condition under which nobody is passed over is exact. |
| UiView.EntryIsLast | app/ui.c:119-173 | With several clients of one peer in a snapshot the last one counts; an entry the snapshot does not name is as it was. |
| UiModel.Ui.NthEvent | app/tui.c:359 | Read newest first, the strip is the last events. |
| UiModel.Ui.NthRecord | app/tui.c:579 | Read newest first, the history is the last records. |
| UiModel.Ui.Announce | app/ui.c:351-354 | An event of the renderer's own leaves all totals as they are. |

## Left out

- The server protocol is a state machine over values: each function of `ServerSteps` is one section that runs under a lock or on one thread. Interleaving inside such a section, and updates in place, are not captured.
- Heap addresses are never reused in the protocol model, so that a use after free is visible; descriptor numbers are reused.
- Control lines sent from other threads are modelled for pool workers on behalf of the client whose job they run.
- Completions posted after the reactor's last drain stay on the stack; nothing is claimed about release at shutdown, and restart is not modelled.
- Commands other than ABOR, PASV/EPSV, PORT/EPRT, CPTO, QUIT and the transfers appear in the protocol as one that sends a single reply; their text and the login state are not modelled.
- TLS on either channel, the user callbacks, logging, snapshots for other threads and the listener set-up are not modelled.
- Failed memory allocation is not modelled, except in a copy and in that a transfer job may fail to get its cancel pipe.
- ControlBuffer.OnReadable: which handlers end the reading is a parameter; the TLS handshake that follows AUTH, after which the connection may go on, is not modelled.
- Resolve: takes texts that are present; the null-pointer checks are not modelled. The realpath half of the containment check and symbolic links are not modelled.
- MemoryFs: paths are lists of at most 256 names of at most 255 bytes, which the fixed buffers of fs_mem.c hold. Child lists are sequences of node ids instead of linked cells. The descriptor table, modes and times are not modelled.
- Copy: expects that no source entry has its copy in the source (`ApartExactly`; what goes wrong otherwise is shown by `NestedCopyChangesSource`, and the walk over a source that changes under it is not modelled), that nothing else changes the files meanwhile, that directories do not list "." and "..", and that no source entry meets a device, fifo or link at the destination. Removing a new, incomplete file is taken to work, and so is asking whether a destination exists.
- Retr, Stor: failures to open or seek before the loop starts are not modelled; REST values and sizes are unbounded integers.
- List: the format of a line is not modelled, only that it is not empty and fits the line buffer. Listing a single file is not modelled.
- AvlHeap and PrefixHeap: freed nodes leave the structure; their memory is not tracked. Destroying a whole tree is not modelled.
- Wait: which events poll reports is a parameter; the PS3 variant without a wake slot is not modelled.
- Ui: clocks, idle times, rates, truncation of texts, selection and editing are not modelled; counters are unbounded integers.
- Command parsing, time formats, listing formats, the rooted wrapper's forwarding calls, the POSIX and PS3 back ends, the web and on-screen displays and the legacy command handlers would add only easy members.
