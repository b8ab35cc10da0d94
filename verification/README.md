# bsync: a verified model of the block synchronisation protocol

bsync copies a file to another machine block by block. The two sides compare a hash of every
block and transfer only the blocks that differ. This project models that protocol in Dafny 4.11
and proves what it guarantees, and where it does not do what its documentation says, the exact
condition under which it does. `dafny verify dfyconfig.toml` checks the whole project.

## The parts

- `Basics`, `Blocks`: bytes, machine integers, a file as a byte sequence; positioned reads and
  writes, resizing, and how the blocks of a file move under them.
- `Wire`, `Frames`: the 40-byte header, and what a reading side makes of a byte stream that is cut
  anywhere.
- `Hashing`: FNV-128a (section 2 of draft-eastlake-fnv) with its real constants, and the sixteen
  zero bytes that stand for a block of zeros.
- `Packing`, `ZeroTest`, `Checksum`, `Reader`, `Connection`, `Server`, `Download`: the sequential
  code in its own form. Loops are loops; the checksum cache, the sequential reader, the
  reconnecting connection, the zero buffer and the file are classes whose methods update them.
- `Pipeline`, `Pool`: the client's goroutines with their two bounded channels, and the server's hash
  pool with its own, as state machines.
- `Protocol`: one upload as a concurrent system. A state holds the destination file, the checksum
  cache, the hash pool's jobs, every connection ever made with the queues both ways and its
  handler, the server's counters and timers, and the pipeline. `Protocol.Do` says what one action
  of one goroutine, of the network or of a timer changes. `Protocol.HandlerStep` is the handler
  loop of server.go:102-250 cut at every access to shared memory or to the network,
  `Protocol.DoClient` is client.go:107-160 with processPrecomputedBlock, `Protocol.DoServer` adds
  server.go:310-357 and the pool of checksum.go:160-194. The network may drop any connection at any
  time, and a write may be reported as failed whether or not it arrived.
- `SharedMemory`, `Handlers`, `Clients`, `System`: the inductive invariant. Handlers and clients
  rely only on facts about the shared memory that never become false again.
- `Attempts`: every step of the system is a step of the pipeline or leaves it alone; failed attempts,
  counted over whole runs.
- `Delivery`, `Guarantees`, `Progress`: what follows for every reachable state of every upload.
- `Termination`, `Completion`: a measure that every step without a fault lowers, and so how every
  upload without faults ends.
- `Runs`, `Witness`: runs that show what can happen, for whole families of uploads: a lost block, a
  destination longer than the source, a server that hangs.

A step is a fault (`Progress.Useful`) when a connection is dropped or refused, when a write does not
arrive or is reported as failed, or when a read fails on a connection that is neither dropped nor at
the end of its stream. A run without faults (`Termination.FaultFree`) may also let the shutdown timer
fire early, any number of times.

In `Connection` and `Download` the network is an input: `Connection.AutoReconnectTCP` is given the outcome
of every call on it in advance, bytes read included, and a download is given the turns in which its
connection fails. Results say exactly when a call fails, and what it has read.

## What is assumed of an upload

`SharedMemory.Hypotheses` and `Protocol.Bounded` say it formally. Both ends use one block size. The
source is not empty, does not change and is not the destination, the destination is a regular file,
and file operations fail only at negative offsets or sizes. A connection delivers in order until it is
dropped. Decompressing restores what was compressed. Of the hash only this is assumed, for each block
of the source and the two old contents (short, or extended with zeros) it is compared with: equal
hashes mean equal contents, or zeros on both sides. Sizes are below 2^63 and the number of the last block is below
2^32 - 1, so that no machine operation of the source wraps. Downloads need the same of the codec, and
that it does not expand a block to 2^32 bytes or more (`Download.CodecSuits`), but nothing of the hash.

## What the code does that its documentation does not say

The model follows the code. Each point is a theorem of the table below.

- An upload can end with the server's exit if and only if the old destination is not empty, the server
  skips no block and has a hash worker (`Completion.ExitReachableIff`). Into an empty destination the
  server never answers for block 0 (`Guarantees.EmptyDestinationBlocksForEver`); bsync's own README
  names no such requirement. The DONE message asks for block 0 like any other request, so a server
  started with `-s` above 0, the documented way to resume, never exits.
- The idle timer of server.go:272-274 is never started, because the handler that tests the count is
  itself still counted (`Guarantees.OwnTestReadsAtLeastOne`). When only the DONE message is lost, the
  server of any upload hangs for ever (`Witness.ServerHangs`, `Progress.StuckIffHanging`).
- A block counts as sent as soon as its bytes are written. When the connection breaks after that, the
  block is lost and no error is seen (`Witness.BlockLost`); at most one block per dropped connection
  (`Delivery.LossesBoundedByDrops`).
- With `-n` a block that compresses well cannot be sent at all (`Packing.SendableUnlessDropped`): an
  upload without any fault then delivers if and only if every such block was right before
  (`Completion.FaultFreeDeliversIff`).
  The example "Local File Sync" in bsync's README uses `-n`.
- A download leaves the old bytes under every block of zeros (`Download.DownloadExactIff`,
  `Download.OldBytesSurvive`).
- A download compares lengths after cutting them to 32 bits, so for blocks near 4 GiB a compressed
  form of more than that could be sent under a wrong length (`Download.LengthAnnouncedIff`). An
  upload compares full lengths.
- A partial last block of zeros is overwritten as a whole block when the old block was not all zeros.
  When DONE is handled before that write, the destination ends up longer than the source, even in a
  clean run (`Witness.LongerDestinationIff`). Without such a block it ends up exactly as long
  (`Guarantees.SizeAtExit`).
- With `-w 0` the client announces DONE without having transferred anything
  (`Guarantees.NoWorkersNothingTransferred`).
- A header can name an offset of 2^63 or more, which is negative as an int64: a request then ends the
  loop without a reply (`Server.ServeRequest`). A file size of 2^63 or more ends the server process
  (`Server.TruncateIfRegularFile`). No message of an upload does either.
- The number of the last block is converted to 32 bits; past that the reader leaves out blocks
  (`Reader.ReaderCoversIff`).

## Model

| member | source | states |
|---|---|---|
| Delivery.ExitDelivers | client.go:105-161 | End to end, for every interleaving, retry and duplicate handler: when the server exits through its shutdown timer, no block was given up, and no block's successful attempt was on a connection dropped before another reply was read, the first FileSize bytes of the destination are the old ones below the skipped blocks and the source's from there on |
| Delivery.ExitOutcome | server.go:312-356 | At that exit every block asked for is in place, or was given up, or its successful attempt was on a connection dropped before another reply was read; in every run that leads there a block given up has failed exactly three times, any other at most twice |
| Completion.FaultFreeRunsExit | client.go:105-161 | With a pool that hashes every block of a non-empty old destination, in every run without faults, in which the shutdown timer may also fire early any number of times, the other steps are bounded in number, and when it can go no further it has ended with the exit through the shutdown timer |
| Completion.ExitReachableIff | server.go:171-192 | Some run ends with the server's exit if and only if the old destination is not empty, the server skips no block and has a hash worker; and then a run without faults does |
| Completion.FaultFreeDeliversIff | client.go:105-161 | After a run without faults has ended the destination is the target if and only if every block for which there is nothing to send was right before |
| Completion.FaultFreeClean | client.go:113-122 | A run without faults in which every block can be sent gives up no block and leaves none open |
| Termination.UsefulStepLowers | client.go:105-161 | Every step without a fault, of the client, a handler, the hash pool or the main loop, leaves strictly less to do |
| Termination.FaultFreeRunsAreFinite | client.go:105-161 | A run without faults from any state of the invariant has, early firings of the timer apart, at most as many steps as there was to do |
| Termination.FaultsStopThenItEnds | server.go:253-358 | From every reachable state, whatever faults led there: once faults stop, a bounded number of steps later, early firings of the timer not counted, the server has exited or hangs |
| Termination.OnlyAcceptStopsTimer | server.go:312-356 | From any state with a running shutdown timer, exactly the steps other than accepting a connection leave it running or the server ended; its firing ends the server if and only if no handler is counted, and otherwise it runs on |
| Termination.RunningTimerEnds | server.go:346-356 | Once the shutdown timer runs and no connection waits to be accepted, it runs until the server has exited, and a run without further faults that can go no further has ended with its exit |
| Delivery.ExitMeansFinished | server.go:348-352 | An exit needs a zero count, and every connection that carried a block was counted: its handler has ended |
| Delivery.CleanRunsAgree | client.go:113-122 | Confluence: any two clean runs of the same upload leave the same first FileSize bytes |
| Delivery.LossesBoundedByDrops | client.go:253-266 | At the exit no more blocks are reported as delivered and wrong than connections were dropped |
| Delivery.SyncedBytes | server.go:144-237 | All blocks from the skipped ones on in place means byte equality with the target, block 0 to the partial last one |
| Witness.BlockDelivered | client.go:105-161 | A concrete upload with a reachable clean run that ends at the timer exit with the source in a destination that was different |
| Witness.BlockLost | client.go:253-266 | For every upload of one block by one worker that can end and has something to send, whatever the sizes and contents: a reachable run that ends at the timer exit with the block reported as delivered and the old content still there. Without a clean run delivery is false |
| Witness.LongerDestination | server.go:144-166 | For every such upload whose block is a partial one of zeros over an old block that was not: a clean run that ends at the timer exit with a destination longer than the source |
| Witness.LongerDestinationIff | server.go:144-166 | Such an upload can end longer than the source if and only if that is so |
| Witness.ServerHangs | server.go:312-356 | For every upload that can end: a reachable state in which everything but the DONE message has gone well, all blocks are delivered if they can be sent, all connections are gone and no timer runs |
| System.StepKeeps | server.go:102-251 | Every step of client, network or server keeps the whole invariant, and takes back neither a block in place nor an available hash |
| System.ReachableInv | server.go:85-358 | The invariant holds in every reachable state |
| System.RunKeeps | server.go:85-358 | The same along every run from any state that satisfies it, with everything gained kept |
| System.CheckStep | server.go:332-335 | The handler's test of the count reads at least one, so that it never starts the idle timer |
| Handlers.EveryHandlerStepKept | server.go:102-250 | Whatever a handler does next keeps the invariants of the shared memory and of its connection, and nothing another connection relies on is lost |
| Handlers.PayloadFits | server.go:195-205 | A payload is non-empty, fits the handler's buffer, its length survives the conversion to 32 bits, and it restores exactly the block |
| Handlers.ServedRequest | server.go:171-193 | When a plain request is served, everything sent before it on the connection is in place, and the block it names is the one the client waits for |
| Handlers.ServedData | server.go:195-205 | A data header in a handler's hands is followed by exactly the payload of the block last sent, or by nothing |
| Clients.HearKeeps | client.go:187-198 | Reading a reply takes exactly the sixteen bytes there are, acknowledges the block sent before, and an equal hash means that the block asked about is in place |
| Clients.SendBodyKeeps | client.go:253-258 | Completing a transfer keeps client and handler in lockstep, with that block as the only unacknowledged one |
| SharedMemory.CacheAgreement | checksum.go:65-79 | When the hash a wait would return is the source block's, the destination block is the source block, whether the entry is precomputed before or after the resize, past the cache's range or a handler's |
| SharedMemory.ReplyIsSixteenBytes | server.go:183-191 | For a block of the source the answer is never a three-byte marker, whatever the order of resizing and hashing |
| SharedMemory.PoolReadsOldContent | checksum.go:166-184 | The hash pool reads a block in its old content, short or extended with zeros, and never after it was rewritten |
| SharedMemory.WriteKeeps | server.go:217-229 | Writing a source block, or a whole block of zeros for a block of zeros, puts that block in place and keeps the invariant of file, cache and pool |
| SharedMemory.WriteKeepsSize | server.go:160-161 | Such a write leaves the file as long as the source or with a full last block of zeros, and only zeros past the source's length |
| SharedMemory.MarkKeeps | server.go:222-234 | Caching the hash of a block just written keeps the invariant |
| SharedMemory.TruncateKeeps | util_unix.go:29-37 | Resizing to the source's length at any time keeps the invariant and every block in place |
| SharedMemory.JobReadKeeps | checksum.go:166-177 | A pool worker's read, interleaved anywhere, keeps the invariant |
| SharedMemory.JobStoreKeeps | checksum.go:173-184 | So does its later entry, however the file has changed in between |
| Guarantees.EqualHashMeansEqualBlock | client.go:193-198 | In every reachable state after the first resize: if the server's answer is the source block's hash, the blocks are equal |
| Guarantees.ReplyAcknowledges | client.go:187-198 | Implicit acknowledgement in every reachable state: when a reply is read, the block sent before on the connection and every block ever completed there are in place |
| Guarantees.OnlyLastSentIsOpen | client.go:253-266 | A block reported as delivered is in place, or is the last one sent on the connection on which it was completed, with no reply read since |
| Guarantees.InPlaceStays | server.go:144-236 | A block once in place stays in place in every continuation, whatever arrives late or twice |
| Guarantees.EqualHashNoTransfer | client.go:193-198 | Reading the block's own hash writes nothing to any connection, and in no continuation is a zero notice, header or payload of that block sent |
| Guarantees.WrittenIsAnswered | server.go:217-237 | Once a handler has written a block and cached its hash, for the rest of every run the server answers for it with the client's own hash, or with zeros past the old destination |
| Guarantees.CanBeGivenUp | client.go:113-124 | Wherever a worker is with a block, three failed attempts in all, the ones so far included, with no other step between them, give it up |
| Guarantees.RetriesStartFresh | client.go:114-119 | Whatever makes an attempt fail, unless it is the third the worker gives its connection up and closes it, so that the next attempt begins on a new one |
| Guarantees.CutOffReturns | server.go:104-205 | A handler on a dropped connection may return at any read or write of the network, whatever is unread, and changes nothing shared |
| Guarantees.RepliesAreFramed | client.go:188-191 | On a worker's connection there is no byte to read, or exactly one sixteen-byte reply while the client waits for it |
| Guarantees.PayloadsAreSourceBlocks | client.go:223-258 | Every payload under way to a handler, on old and new connections alike, is the payload of the source block last sent there |
| Guarantees.CutStreamIsSafe | server.go:102-205 | Wherever the bytes under way to a handler are cut, it reads exactly the messages that arrived whole |
| Guarantees.WaitReturnsIff | checksum.go:65-79 | A wait for a block returns if and only if the block is past the cache's range or the pool has stored its hash; no handler makes it return earlier |
| Guarantees.WaitReturnsAfterPool | checksum.go:154-195 | Once the pool has finished: if and only if it is past the range, or the destination was non-empty and the block not skipped |
| Guarantees.ZerosPastTheEnd | checksum.go:66-70 | In every state a wait for a block past the end of the old destination, or from block 1 on when it was empty, returns sixteen zeros at once |
| Guarantees.PoolPartition | checksum.go:189-194 | The blocks the pool works on are exactly its range, and one whose hash is not stored has no entry in the cache |
| Pool.Partition | checksum.go:157-194 | In every state of every run of feeder, channel and workers, a block of the range is waiting at exactly one place, or held by exactly one worker, or stored, and no other block is anywhere |
| Pool.MaximalRunsStoreAll | checksum.go:157-194 | A run that can go no further has stored exactly the blocks of the range if there is a worker, and nothing if there is none |
| Pool.StepIsJobAction | checksum.go:166-185 | Every step of the pool is, on shared memory, nothing or one of the two job steps of the upload model |
| Pool.SameJobs | main.go:206-209 | The pool and the upload model start with the same jobs |
| Pool.NoDeadlock | checksum.go:157-194 | As long as a pool worker has not ended, some step is possible |
| Pool.StepMakesProgress | checksum.go:157-194 | Every step of the pool leaves strictly less work |
| Guarantees.PoolStoresFirst | checksum.go:183-184 | When the pool stores a hash there is no entry to replace and the block still has its old content |
| Guarantees.SizeAlways | server.go:131-166 | After the first resize the size is FileSize or a full last block, and all bytes past FileSize are zero; the larger only when the last block is a partial one of zeros that is asked for, over an old block that was not all zeros |
| Guarantees.SizeAtExit | server.go:131-166 | At the timer exit the destination is exactly FileSize long, unless the last block is such a block |
| Guarantees.UnsendableInPlaceIff | client.go:223-237 | A block for which there is nothing to send is in place if and only if the old content at the source's size was already right |
| Guarantees.UnsendableGivenUp | client.go:235-237 | At the timer exit such a block that was not right has been given up; in every run that leads there it has failed exactly three times |
| Guarantees.SizeChanges | server.go:131-166 | From then on only a truncating handler makes the file shorter and only one writing a whole block of zeros makes it longer |
| Guarantees.SizingIsExact | util_unix.go:29-37 | A handler that has just sized the file leaves it exactly FileSize long |
| Guarantees.ExactAfterLastZeroWrite | client.go:137-146 | A file of the exact size keeps it for the rest of the run when no further block of zeros is written, so sizing by the DONE handler after the last one is final |
| Guarantees.ShutdownState | server.go:312-356 | The count is the number of spawned, unfinished handlers; the shutdown timer runs only after DONE, the idle timer never; at an exit no handler is left |
| Guarantees.OwnTestReadsAtLeastOne | server.go:318-335 | In every reachable state in which a handler tests the count it reads at least one, and the test changes nothing |
| Guarantees.ShutdownNeedsBlockZero | server.go:171-192 | DONE is accepted, or the server exits, only if the old destination was non-empty, the server skips no block and has a hash worker |
| Guarantees.NoWorkersNothingTransferred | client.go:105-160 | With no workers a reachable state has DONE on its way although no block has been delivered or given up and the destination is as before |
| Guarantees.EmptyDestinationBlocksForEver | main.go:210-213 | With an empty destination block 0 is never answered, the server never exits, and block 0 gets in place only if it is zeros |
| Progress.NeverStuck | server.go:253-358 | With a pool that hashes every block of a non-empty old destination, in every reachable state the server has exited, or some goroutine can take a step without any fault, or everything is over with no timer running |
| Progress.StuckIffHanging | server.go:272-356 | A running server is stuck if and only if the client has finished, every handler is gone and no timer is running |
| Progress.HangsForEver | server.go:310-357 | From such a state no run leads anywhere else, faults included |
| Progress.OpenMeansOwned | client.go:107-127 | Every open connection but the DONE connection belongs to a transfer worker |
| Pipeline.Conserved | client.go:94-131 | No step of reader, hash workers or transfer workers loses, duplicates or invents a block |
| Pipeline.StepKeepsInv | checksum.go:95-148 | Every block from the skipped ones on is at exactly one station, bounds and closings hold, and nothing is sent on a closed channel |
| Pipeline.NoDeadlock | client.go:107-131 | As long as a transfer worker has not stopped, some step is possible |
| Pipeline.StepMakesProgress | client.go:111-126 | Every step, failed attempts included, leaves strictly less work |
| Pipeline.RunsAreFinite | client.go:94-131 | No run has more steps than there was work |
| Pipeline.AtMostThreeAttempts | client.go:113-122 | In no run is a block attempted more than three times, nor one outside the range at all; and it is given up if and only if three attempts have failed |
| Pipeline.GivenUpAfterThree | client.go:113-124 | In every run the failed attempts at a block given up are exactly three, at any other block at most two |
| Pipeline.ChannelsKeepOrder | reader.go:46-60 | In every run the reader's channel holds the blocks last read in the file's order, and with one worker the same is true of all blocks from the transfer worker's hands back to the reader |
| Pipeline.FullChannelsWait | client.go:94-98 | In every run each channel holds at most two blocks for every worker, and its sender waits exactly when it is full |
| Attempts.StepIsPipelineStep | client.go:107-160 | Refinement: every step of the whole system moves the client's pipeline by exactly the pipeline step it stands for, or leaves it alone |
| Attempts.GivenUpAfterThree | client.go:113-124 | In every run of the whole system a block given up has failed exactly three times by a refused dial, a write, a read or for want of a payload, any other at most twice |
| Pipeline.StoppedMeansAllEnded | client.go:130-131 | When all transfer workers have stopped, every block of the range has ended exactly once, delivered or given up |
| Pipeline.MaximalRunsEndEverything | client.go:94-131 | A run that can go no further has ended every block exactly once |
| Pipeline.BusyIsUnique | client.go:111-126 | A block in one worker's hands is in no other's, and has not ended |
| Frames.TornStream | server.go:102-205 | For every well-framed message list and every byte prefix of its stream, what a handler reads is exactly the messages that arrived whole |
| Frames.ParseStream | msg.go:28-43 | An uncut stream is read back as the messages written |
| Wire.UnpackPack | msg.go:28-43 | Unpacking a packed message gives it back, whatever bytes follow |
| Wire.PackUnpack | msg.go:28-43 | Forty bytes survive unpacking and packing if and only if the three flag bytes are 0 or 1 |
| Wire.Layout | msg.go:11-20 | The forty bytes of a header one by one: the magic text, then the integers with their least significant byte first, then the three flags |
| Wire.MagicText | msg.go:8-9 | The magic bytes are the text "blockSync-ver0.01" |
| Connection.AutoReconnectTCP.constructor | connection.go:42-44 | There is no connection yet |
| Connection.AutoReconnectTCP.Connect | connection.go:46-60 | Dials only without a connection, and fails exactly when the network refuses; the new connection has taken and brought nothing |
| Connection.AutoReconnectTCP.Close | connection.go:97-104 | The current connection is given up; what it had taken and what was read from it stays as it was |
| Connection.AutoReconnectTCP.Write | connection.go:84-95 | Fails exactly when one of its calls does, and then the connection is gone and a prefix at most was taken; otherwise the reported bytes, as many as the network took, went onto one connection |
| Connection.AutoReconnectTCP.Read | connection.go:71-82 | Fails exactly when the network does; otherwise returns the first bytes it brings, at most as many as asked for, and records where in the outgoing bytes they came |
| Connection.AutoReconnectTCP.ReadFull | client.go:188-191 | Returns exactly the next bytes the network brings, as many as asked for, or fails exactly when one of the reads does; the outgoing bytes are untouched |
| Connection.ConnWrite | connection.go:18-35 | It fails exactly when one of its calls does or takes nothing; without an error all bytes went onto one connection in spite of partial writes, otherwise a prefix at most, and the connection is gone unless the write stalled |
| Connection.ProcessBlock | client.go:165-267 | One attempt: it succeeds only when no call failed and sixteen bytes were read on the connection in use just after the forty of the request, and then that connection took exactly the request and, if these bytes are not the block's hash, the transfer; it fails without a failing call only when they differ and there is nothing to send; every connection stays framed |
| Connection.TransferBlock | client.go:111-126 | At most three attempts, each but the first on a fresh connection, and on an error all three; for a block that can be sent every failing call costs one attempt and nothing else does; success means that the last connection ends with the whole exchange and brought the server's hash in the middle of it; every connection ever made carries a prefix of whole messages, and is between messages or gone afterwards unless the last attempt stalled, which takes a net.Conn that writes nothing without an error, as Go's TCP connections never do |
| Connection.StallOffBoundary | connection.go:30-32 | A connection that has taken only a part of its first header is not between messages |
| Connection.HandlerReadsOnlyOurs | server.go:102-118 | Off any such connection a handler reads messages of this upload and nothing else |
| Server.ServerHandleReq | server.go:85-251 | The byte loop alone, on any input at all: file, cache and bytes sent back are exactly those of the protocol's handler steps on the messages the input parses to, and it returns exactly when they do; otherwise both block, or the process ends |
| Protocol.AddressableIff | server.go:129 | The int64 product of block number and block size is the offset when that is below 2^63, and negative otherwise |
| Server.File.ReadAt | server.go:176-180 | Fails exactly at a negative offset |
| Server.File.WriteAt | server.go:217-221 | Fails exactly at a negative offset, and then changes nothing |
| Server.SizeFile | server.go:129-141 | lastBlockNum and the file's size are set by the first header with a file size only; agrees with the handler steps; the process ends exactly on a zero block size and on another size that is negative as an int64 |
| Server.ServeZero | server.go:144-169 | The zero notice: skipped when the cache says zeros or nothing, else the block is overwritten and cached as zeros, or the loop ends at a negative offset, or blocks; agrees with the handler steps |
| Server.ServeRequest | server.go:171-193 | The request: exactly the cached hash is sent back, and the loop ends when it is marked done; ends without an answer at a negative offset, or blocks; agrees with the handler steps |
| Server.ServePayload | server.go:207-237 | The payload: refused, or at a negative offset, it changes nothing and ends the loop; otherwise the restored block is written and its hash cached; agrees with the handler steps |
| Server.ServeMessage | server.go:143-248 | The choice between them, payloads too long or cut short included, agrees with the handler steps |
| Server.StepProgress | server.go:102-250 | Every handler step gets nearer to the end of its input, so a handler alone ends, blocks or panics |
| Server.TruncateIfRegularFile | util_unix.go:20-38 | The file has the size asked for: cut, or extended with zeros; it fails exactly for another size that is negative as an int64 |
| Checksum.ChecksumCache.constructor | checksum.go:47-55 | An empty cache with the given range |
| Checksum.ChecksumCache.Set | checksum.go:57-63 | One entry is replaced or added and marked ready; all others stay |
| Checksum.ChecksumCache.WaitFor | checksum.go:65-79 | Zeros past the range, the entry when it is ready, otherwise blocking |
| Checksum.HashRead | checksum.go:168-184 | The end marker for no bytes, sixteen zero bytes for zeros, FNV-128a otherwise, through a buffer with old content |
| Checksum.PrecomputeChecksums | checksum.go:164-191 | One worker taking all numbers enters exactly the blocks from the skipped ones to the last: the "ERR" mark for those that cannot be read, the hash of the others |
| Checksum.FilledAt | checksum.go:189-194 | Which entries that leaves, and with what content |
| Checksum.PrecomputeAll | main.go:204-213 | After the pool has run over a fresh cache a wait gives the block's entry for the covered blocks, zeros past the range, and nothing for the others, for empty and non-empty destinations |
| Checksum.PackBlocks | checksum.go:100-140 | One worker: every block it takes is handed on once and in order under its own number, with its hash and zero flag and the compressed form or the original, dropping the original only for a shorter form, and exactly these hashes enter the cache |
| Reader.SequentialReader.constructor | reader.go:26-36 | The last block's number modulo 2^32 |
| Reader.SequentialReader.Start | reader.go:39-62 | Pushes exactly the blocks from the skipped ones to the last, each under its own number with the bytes read at its offset, then closes; ends because the last number is below 2^32 - 1 |
| Reader.BlocksJoin | reader.go:46-60 | The blocks pushed, joined, are one read of the file: disjoint and without gaps |
| Reader.ReaderCoversIff | reader.go:27 | They are the whole rest of the file if and only if the last block's number fits in 32 bits |
| Reader.OffsetFitsInt64 | reader.go:48 | For every block of a file below 2^63 bytes the offset product fits in an int64, and the block is non-empty and at most a block long |
| Blocks.InsideIffUpToLast | client.go:78 | A block starts inside the file if and only if its number is at most (size - 1) / blockSize, and all before the last are full |
| Blocks.WriteOneBlock | server.go:217-229 | A write at a block's offset changes that block only, whatever is written past the end |
| Blocks.ResizedBlock | util_unix.go:29-37 | Resizing a file resizes each block: cut, kept or extended with zeros |
| Packing.PayloadRestoresBlock | checksum.go:107-126 | A non-empty payload, raw or compressed, is no longer than the block and restores exactly it |
| Packing.SendableUnlessDropped | client.go:223-237 | There is something to send for a non-zero block if and only if it is not the case that compression is off and the compressed form was shorter |
| Hashing.SingleByteChangeDetected | checksum.go:30-37 | Two non-zero blocks of equal length that differ in one byte have different hashes, with no assumption on collisions |
| Hashing.FoldSeparates | checksum.go:31-37 | The hash state already tells them apart, because each step is a bijection modulo 2^128 |
| Hashing.TimesInvertible | checksum.go:16 | Multiplying by the FNV prime is undone by multiplying by its inverse modulo 2^128 |
| Hashing.EmptyDigest | checksum.go:14-18 | The FNV-128a digest of no bytes |
| Hashing.DigestOfA | checksum.go:30-37 | The FNV-128a digest of "a", byte by byte |
| Hashing.DigestOfAbc | checksum.go:30-37 | The FNV-128a digest of "abc", byte by byte |
| ZeroTest.IsZeroBlock | util.go:28-54 | True if and only if every byte is zero, for every length, with every load and index in bounds |
| ZeroTest.LoadIsZero | util.go:41-45 | An eight-byte word is zero if and only if its eight bytes are |
| ZeroTest.ZeroPool.Get | util.go:15-25 | As many zeros as asked for, from a shared buffer that stays zero and is made once |
| Download.StartClientDownload | client.go:270-421 | The file is sized like the remote one and every block dealt with is the remote block, or the old one if it was taken for zeros; it breaks off exactly when the metadata or the turn it has reached fails, waits for ever exactly at its first block when the server skips it, and without failures completes if and only if no block is asked for or the server does not skip the first one |
| Download.FetchBlocks | client.go:337-418 | The loop over a sized file: which failure or skipped block stops it and where, exactly when it completes, and what the file is then; the 32-bit counter does not wrap |
| Download.ServerHandleUpload | server.go:387-563 | The byte loop of the sending server on any input: its output is the stream of the answers to the headers the input holds, up to a foreign header, a block past the end, or a wait that never returns |
| Download.Answer | server.go:428-557 | One answer: metadata, end mark, zero mark or data, from the cache the pool has filled; it waits for ever exactly for a block the server skips |
| Download.ReplyHeader | server.go:428-557 | Every reply names the block asked for and the remote length; it has the end mark exactly past the last block, and a payload exactly for a block that is there and not taken for zeros |
| Download.LengthAnnouncedIff | server.go:519-557 | The header announces the length of its payload if and only if the compressed form has a 32-bit length or is not used |
| Download.Receive | client.go:360-398 | Off the bytes of an answer the client takes exactly the remote block, or nothing for a zero mark |
| Download.FetchBlock | client.go:338-414 | One request: the block is written, or kept when it was taken for zeros; no answer exactly when the server skips it |
| Download.ReplyCarriesBlock | server.go:512-557 | A data reply is non-empty, fits the client's buffer and restores the block |
| Download.DownloadExactIff | client.go:380-414 | A complete download leaves the remote file if and only if every block it does not write was already right once the file was sized; no hash assumption |
| Download.DownloadExactIffZerosAgree | client.go:380-386 | Without skipping, and when no non-zero block hashes to zeros: if and only if the old file was zero on every zero block |
| Download.OldBytesSurvive | client.go:380-386 | A concrete download whose only possible result is not the remote file |
| Download.NewFileIsExact | client.go:330-418 | Downloading into a new file gives the remote file |

## Left out

- Delivery.ExitDelivers: assumes the hypotheses above. Differing block sizes are excluded because the cache is built once with the server's start-up block size (main.go:206-209) and answers for other blocks after a change at server.go:124-127; hash collisions between a source block and the contents it is compared with cannot be excluded by proof.
- Completion.FaultFreeRunsExit: bounds the steps of goroutines, not time, and assumes that some goroutine that can go on does. After a fault the end may be a hanging server (Termination.FaultsStopThenItEnds), when a connection is accepted late and stops the shutdown timer, or when DONE is lost; with the timer running and no connection waiting it is the exit (Termination.RunningTimerEnds).
- Witness.LongerDestinationIff: is about uploads of one block by one worker. For more blocks or workers only one half is shown (Guarantees.SizeAtExit): no longer destination without such a last block.
- Download.StartClientDownload: one block size on both ends, and one request at a time with no other client; the download server's accept loop (server.go:361-384) is not modelled.
- Server.ServerHandleReq: keeps one block size per message; that a handler's buffer keeps its old length after another handler has changed the global block size (server.go:124-127) is not modelled.
- Connection.AutoReconnectTCP.Write: deadlines and addresses are left out. Which bytes the network takes and brings is an input that can be anything; that a failing write may have taken bytes is part of it.
- startServer and startClient: the select loop, the counters and the goroutines are steps on the values of Protocol.State, not methods on objects, because their interleaving is the point; what one goroutine does on its own is a method.
- A single read or write of the file is one step; overlapping system calls on one block are not split further.
- I/O errors of the local files other than negative offsets and sizes (the "ERR" mark appears in module Checksum only), device destinations, a source that changes during the upload, and a source that is its own destination.
- Real time: deadlines, retry pauses and timer durations are arbitrary interleavings. Listener errors are not steps.
- The compressor, its pools and levels, and encryption (compress.go, crypto.go): two functions, of which only the round trip is assumed.
- SSH set-up, flags, drive listing, Windows sizing, logging and statistics (ssh.go, most of main.go, drives_*.go, util_windows.go, log.go).
- The methods Delete of ChecksumCache and Wait of SequentialReader, which nothing calls; lock and condition variable of the cache, whose critical sections are single steps.
