# Verified model of the actor runtime

A Dafny 4.11 model of a runtime of services: operating-system threads with one
Lua state each, which exchange messages through mailboxes. `dafny verify
dfyconfig.toml` checks everything; the project needs no other file.

## What is modelled

**The graph serializer** (`src/lua-seri.c`). `wire.dfy` has tags, integers,
doubles and strings as bytes; `graph.dfy` Lua tables as maps with a border and a
traversal order. `encoder.dfy` and `decoder.dfy` say what packing and unpacking
do, as functions: ancestor references by depth, references by id, tags patched
after the fact, cyclic graphs. `drift.dfy` follows, on the encoder alone, which
ancestor references the decoder will resolve to another table; `roundtrip.dfy` runs
the two in lock-step and concludes that unpacking a packed argument list gives an
isomorphic graph if there are none; `misdirection.dfy` that it does not if there are
any. `keys.dfy` says which graphs are safe in any order of traversal, `twins.dfy`
works out one whose symmetry makes good what went astray, and `named.dfy`, by counting
what the tags of a message can pay for (`weights.dfy`), for which graphs no symmetry can.
`anybytes.dfy` is about bytes that nobody packed.
`blocks.dfy` (the chain of 128-byte blocks), `directory.dfy` (the 32-slot array
that becomes two tables), `writer.dfy` and `reader.dfy` are the imperative code,
each method proved to do what the function of the same name says; `messages.dfy`
puts the two ends together.

**The mailbox** (`src/mailbox.c`). `mailbox.dfy` is the ring as a class over an
array, with the retry loop that gives up its lock to allocate and looks again;
`mailbox_runs.dfy` is any number of producers, a consumer and a closer, one
locked region a step, with every buffer accounted for.

**The service** (`src/service.c`). `service.dfy` is one service as a state
machine: its thread, its senders, stoppers, joiner and starter, one step for each
region between lock boundaries. `service_safety.dfy` has the invariant in seven
groups and one small lemma for each group and family of steps;
`service_runs.dfy` draws the whole-run results from it. What the calls promise in turn:
`starts.dfy` what service_start answers and when a service comes to run, `doors.dfy`
what is closed when, `promises.dfy` full batches, fates and stops, and `shutdown.dfy` that
a service which stops, or could not start, comes to its end in a bounded number of steps,
and every join of it to a free. `payloads.dfy` adds to the
same steps who has to free the payload of each message. `dispatch.dfy` is one wakeup of
the thread as a program over the mailbox class.

**Calls** (`lua/service.lua`). `rpc.dfy` is any number of services with their
mailboxes, coroutines, pending calls and duties to reply; `rpc_safety.dfy` and
`rpc_runs.dfy` prove one token for a pending call, one reply for a request, one
resume for a call, and `rpc_outcomes.dfy` that what a call is told is what became of its
request. They also say which of that fails where the yield of a call raises
(`lua/service.lua:324-326`), which leaves the call in the table. `agent.dfy` is the Lua state of one service as a class over its
tables, each method proved to be a step of `rpc.dfy`.

**The scheduler** (`lua/service/scheduler.lua`). `taskheap.dfy` is the binary heap
as a value, `drain.dfy` one firing of the timer, `scheduler.dfy` both as classes
over task objects that know their own position. `calendar.dfy` is the day
arithmetic against a day count by years and months, `timestamp.dfy` the date-time
strings.

## Where the code and its documentation differ

Section 8 of `doc/api.md` counts tables, cycles and sharing included, among what can
be packed, and `tests/lua/serializer_shared_ref_spec.lua` packs a table that has a
table as key. The encoder packs a key one level deeper (`src/lua-seri.c:310,511`) than
the decoder reads it (`src/lua-seri.c:658-668`), so that a cycle within what a
table-valued key holds, or through a table that has one, can come back different or not at all. The model
follows the code: `Drifting.GoesAstray` computes from the arguments whether that happens,
`Messages.RoundTripExactly` proves that it is the exact condition, and
`Messages.TableKeyIsLost` is a small case. "Rebuilds" means that the table decoded
k-th stands for the table packed k-th: `Twins.TwinsAreSwapped` is a graph that comes back
different in this sense and is a copy all the same, two of its tables having changed
places with two others. `Named.CopiesExactly` is about graphs where this cannot be: if the
tables in entries with a table as key are arguments or carry a scalar entry of their own,
the condition is exact for every pairing.

## How to read it

A `datatype` stands for a value, a `class` for an object whose fields the source
updates in place; a method of a class says in its `ensures` that it does what a
function on values does, and lemmas say what that function means. Concurrency is a
step relation: a step is what one thread does between two lock boundaries, and the
results hold for every list of steps from the initial state. What the program
takes from outside (allocation, clocks, what handlers do, what other threads do
meanwhile) is a parameter of the step or of the method.

Lemmas often begin with `hide`, which keeps definitions out of a proof that does
not need them.

## Model

| member | source | states |
|---|---|---|
| Wire.IntegerShortest | src/lua-seri.c:199-231 | of all the forms the decoder reads as an integer, the one written takes the fewest bytes |
| Wire.ExtendShortest | src/lua-seri.c:618-631 | of all the forms get_extend_integer reads as a size or an id, its cast to int included, the one written takes the fewest bytes |
| Wire.StringShortest | src/lua-seri.c:247-270 | of all the forms the decoder reads as a string, the one written takes the fewest bytes |
| Wire.IntegerRoundTrip | src/lua-seri.c:199-231 | every 64-bit integer is read back from its bytes, wherever they lie in a buffer |
| Wire.ExtendIntegerRoundTrip | src/lua-seri.c:618-631 | sizes and ids below 2^31 survive get_extend_integer and its cast to int |
| Wire.LongStringRoundTrip | src/lua-seri.c:247-270 | strings of 32 bytes and more are read back through a 2- or 4-byte length |
| Wire.ScalarRoundTrip | src/lua-seri.c:469-500 | nil, booleans, doubles, strings and pointers are read back exactly, consuming exactly their bytes |
| Wire.AsIntegerOfDouble | src/lua-seri.c:300-308 | an integer below 2^31 stored as a double passes the array-key test with its own value |
| Wire.AsIntegerSound | src/lua-seri.c:300-308 | a double that passes the test is the double of that integer and of no other |
| Graph.ArrayKey | src/lua-seri.c:296-315 | the keys wb_table_hash skips are exactly the keys wb_table_array packs |
| Encoder.RefAncestor | src/lua-seri.c:392-409 | an emitted ancestor reference names an open table, is below the depth and at most 29, so never the escape code 31 |
| Encoder.DistinctCount | src/lua-seri.c:340-346 | ids are distinct tables, so there are no more ids than tables |
| Encoder.OpeningMeets | src/lua-seri.c:377-390 | expanding a table makes the set of tables without an id strictly smaller: packing ends on cyclic graphs |
| Encoder.PackOne | src/lua-seri.c:469-520 | packing keeps the writer state consistent and only ever adds bytes or turns a TABLE tag into TABLE_MARK |
| Encoder.PackTable | src/lua-seri.c:377-390 | a table packed whole keeps the writer state consistent and changes nothing before it but the type bits of tags |
| Encoder.PackSeq | src/lua-seri.c:522-533 | values packed one after another extend the state; each step shrinks the termination measure or the list |
| RoundTrip.AgreesBack | src/lua-seri.c:411-415 | the final buffer differs from any intermediate one only in the type bits of tag bytes |
| RoundTrip.SimAncestor | src/lua-seri.c:672-688 | an ancestor reference that lands is resolved to the table that corresponds |
| RoundTrip.SimRefObject | src/lua-seri.c:455-467 | a by-id reference names a table the decoder has already recorded under that id |
| RoundTrip.SimHeader | src/lua-seri.c:633-637 | a table header is read back whichever of the two tags it ends up with |
| RoundTrip.HeaderShortest | src/lua-seri.c:274-285 | of all table headers that read back with a size, the one written takes the fewest bytes |
| RoundTrip.CreateInStep | src/lua-seri.c:637-652 | entering a table keeps depth, counter and recorded ids in step |
| RoundTrip.OpenSlots | src/lua-seri.c:650-652 | the ancestor slots and the Lua stack after a table is opened: a slot still names its table, or provably something above it |
| RoundTrip.SimArray | src/lua-seri.c:653-657 | the array part is rebuilt index by index, holes included |
| RoundTrip.SimHash | src/lua-seri.c:659-669 | the hash part is rebuilt in traversal order up to its nil |
| RoundTrip.SimTable | src/lua-seri.c:633-670 | a table is rebuilt entry for entry, with the depths the code uses |
| RoundTrip.SimOne | src/lua-seri.c:763-772 | lock-step: after any value, inside keys or not, in which no reference goes astray both sides have the same place and counter, depths apart by the keys around, and the value corresponds |
| RoundTrip.UnpackOfPack | src/lua-seri.c:794-819 | if no reference goes astray, unpack of pack succeeds, uses up exactly the bytes, gives as many values, and the decoded graph is isomorphic to the source, tables shared across arguments included |
| Drifting.TableDrifts | src/lua-seri.c:377-390 | what packing a table does to the slots of the tables around it: only the innermost can stop being found, and only by a key |
| Misdirection.ImageSize | src/lua-seri.c:659-669 | different keys are decoded to different keys, so a right table has as many entries as keys were packed |
| Misdirection.AstrayRead | src/lua-seri.c:672-688 | a reference that goes astray is refused or read as something other than its table |
| Misdirection.WeakOne | src/lua-seri.c:763-772 | after values have come out wrong the two sides still parse the same bytes the same way, unless a finished table is already wrong |
| Misdirection.LowestIsLacking | src/lua-seri.c:659-669 | of the keys whose slots are lost, the one opened first is never read back |
| Misdirection.SomeKeyLacks | src/lua-seri.c:659-669 | once a key reference goes astray some key of the table will be missing when the table ends |
| Misdirection.WrongValueSpoils | src/lua-seri.c:659-669 | a wrong value at a right key stays: the table cannot become right again |
| Misdirection.DetectHash | src/lua-seri.c:659-669 | a reference going astray anywhere in a hash part leaves that table, or one made later, different from its source |
| Misdirection.DetectOne | src/lua-seri.c:763-772 | a value in which a reference first goes astray fails, leaves a wrong table, or is itself read as the wrong thing |
| Misdirection.AstrayIsLost | src/lua-seri.c:794-819 | if a reference goes astray, unpack fails or some table differs from the one it was packed for |
| Messages.RoundTripExactly | src/lua-seri.c:794-819 | unpack of pack rebuilds the graph, table by table in the order of packing, if and only if no reference goes astray |
| Keys.LayeredIsFound | src/lua-seri.c:392-409 | no reference goes astray when no cycle leads through a table that has a table as key or is part of one |
| Keys.ScalarKeysAreFound | src/lua-seri.c:392-409 | without table-valued keys nothing goes astray, whatever the sharing and the cycles |
| Keys.AcyclicIsFound | src/lua-seri.c:392-409 | without cycles nothing goes astray, whatever the keys |
| Messages.PacksTheReachable | src/lua-seri.c:469-533 | the tables given an id are the least set that holds the arguments and is closed under entries: each reachable table is expanded exactly once |
| Messages.TableCovers | src/lua-seri.c:377-390 | packing a table meets everything it holds, keys and values, and all that the tables met on the way hold |
| Messages.FinalMarks | src/lua-seri.c:411-453 | at the end a table carries TABLE_MARK exactly if some by-id reference names it |
| Messages.PackThenUnpack | src/lua-seri.c:853-873 | the imperative writer and reader end to end: the message starts with its length and comes back isomorphic, if and only if no reference goes astray |
| Messages.TableKeyIsLost | src/lua-seri.c:296-315 | a witness: t[k] = t with a table k goes astray and comes back as t[k] = k, which no pairing of tables makes a copy of it |
| AnyBytes.NothingFromNowhere | src/lua-seri.c:794-819 | on any bytes that unpack accepts every result, key and value that is a table is one it has made, no table holds nil, and all bytes are used up |
| AnyBytes.ScalarForms | src/lua-seri.c:690-749 | on any bytes a scalar is accepted exactly in the subtypes and length widths there are, with all its bytes there |
| Twins.TwinsAreSwapped | src/lua-seri.c:296-315 | a graph whose reference goes astray although what is decoded is a copy of it, with two pairs of tables swapped: in the exact condition the order of packing matters |
| Weights.BoundOne | src/lua-seri.c:763-772 | whatever bytes are read and to whatever values, the entries they leave do not outweigh their tags |
| Weights.WeighTable | src/lua-seri.c:377-390 | a packed table weighs what its entries and those of the tables first met in it take, array holes counted off |
| Weights.PackedWeight | src/lua-seri.c:522-533 | a packed message has just the weight of the reachable entries and of the arguments |
| Named.TightOne | src/lua-seri.c:763-772 | a value that leaves nothing of its weight unused is read in step, loses and overwrites no entry, and every scalar under a scalar key in it comes out right |
| Named.CopyCovers | src/lua-seri.c:469-533 | whatever pairing makes what was decoded a copy, it has all tables that were packed |
| Named.CopyIsTight | src/lua-seri.c:794-819 | if some pairing makes what was decoded a copy, no tag of the message was wasted |
| Named.CopiesExactly | src/lua-seri.c:794-819 | if every table that is a key, or is held under one that is, is an argument or has a scalar entry no other table has: the pairings that make what is decoded a copy are the order of packing if nothing goes astray, and none otherwise |
| Named.OneCopyOnly | src/lua-seri.c:794-819 | with scalar keys only the graph comes back, and it does under one pairing of tables and no other, whatever the sharing, the cycles and the symmetry |
| Named.TellableYetLost | src/lua-seri.c:296-315 | a graph of that class which goes astray: t[k] = t with t and k as arguments, lost under every pairing |
| Blocks.BlockChain.Push | src/lua-seri.c:104-124 | any length of bytes is appended, across as many blocks as it takes |
| Blocks.BlockChain.TakeAddress | src/lua-seri.c:126-133 | the address names the position of the next byte, after all later appends too |
| Blocks.BlockChain.Patch | src/lua-seri.c:411-415 | writing through an address changes that byte of the contents and no other |
| Blocks.BlockChain.Seri | src/lua-seri.c:774-792 | the length and then exactly the contents, multiples of 128 included |
| Directory.Directory.Migrate | src/lua-seri.c:346-362 | the 33rd table moves the array into the two tables and loses nothing |
| Directory.Directory.MarkTable | src/lua-seri.c:340-375 | a table gets the next id and its tag address, in array or tables |
| Directory.Directory.Lookup | src/lua-seri.c:417-453 | the id is the position in creation order, whichever form; an address is given out once |
| Writer.WriteBlock.FindOpen | src/lua-seri.c:392-409 | the loop over the ancestor stack finds what the specification finds |
| Writer.WriteBlock.ChangeMark | src/lua-seri.c:411-415 | the assertion holds: the tag is still TABLE, and only its type bits change |
| Writer.WriteBlock.LookupRef | src/lua-seri.c:417-453 | search, mark and patch together are the specification step |
| Writer.WriteBlock.PackOne | src/lua-seri.c:469-520 | the imperative encoder packs exactly the specified bytes |
| Writer.WriteBlock.WbTableArray | src/lua-seri.c:274-294 | header and array loop as specified |
| Writer.WriteBlock.WbTableHash | src/lua-seri.c:296-315 | the traversal loop as specified, skipping array keys |
| Writer.WriteBlock.PackFrom | src/lua-seri.c:522-533 | the argument loop as specified |
| Writer.SeriPack | src/lua-seri.c:853-873 | the result is the length in four bytes followed by the packed bytes |
| Reader.ReadBlock.GetInteger | src/lua-seri.c:543-584 | the reader reads what the specification reads, errors included |
| Reader.ReadBlock.UnpackTable | src/lua-seri.c:633-670 | the imperative decoder, on the Lua stack, builds the specified tables or fails where specified, on every byte string |
| Reader.ReadBlock.UnpackRef | src/lua-seri.c:672-688 | both reference schemes as specified, with their error cases |
| Reader.SeriUnpack | src/lua-seri.c:794-819 | the loop over a whole buffer is the specified decoding |
| Mailbox.MailboxRing.GrowLocked | src/mailbox.c:78-90 | the queued items move in order into twice the space |
| Mailbox.MailboxRing.PushLocked | src/mailbox.c:92-136 | one locked region: insert, grow with a fitting spare, or ask for memory; every other buffer comes back to be freed |
| Mailbox.MailboxRing.TryPush | src/mailbox.c:92-136 | the retry loop, with other threads at every unlock, is the specified run |
| Mailbox.PushLinearizes | src/mailbox.c:92-136 | however often it unlocks, a push amounts to steps of the others followed by one append, if it answers OK, or by nothing; FULL only if an allocation failed |
| Mailbox.MailboxRing.TryPop | src/mailbox.c:138-158 | oldest message first; an empty mailbox is unscheduled and its overload threshold reset |
| Mailbox.MailboxRing.RaiseThreshold | src/mailbox.c:148-151 | the threshold doubles past the length left behind |
| Mailbox.DoublesLeast | src/mailbox.c:148-151 | the threshold becomes its least multiple by a power of two that the length left behind is not past |
| Mailbox.PopReports | src/mailbox.c:138-158 | a pop reports the length it leaves exactly if that is past the threshold, which then doubles past it; an empty mailbox starts again from the capacity at creation |
| Mailbox.MailboxRing.FinishBatchLocked | src/mailbox.c:160-170 | stays scheduled exactly if open and not empty |
| MailboxRuns.SwapKeepsOwners | src/mailbox.c:100-115 | the spare swapped in is exactly twice the capacity, and the old buffer gets an owner |
| MailboxRuns.StepKeeps | src/mailbox.c:92-197 | every locked region and allocation keeps queue, capacity and buffer ownership consistent |
| MailboxRuns.RunKeeps | src/mailbox.c:92-197 | what was popped and freed stays so, and so does the capacity it was created with; after close nothing is accepted |
| MailboxRuns.AnyRun | src/mailbox.c:92-197 | on every interleaving: popped is a prefix of accepted in lock order, the capacity is the one at creation times a power of two, no buffer is freed twice or while in use |
| MailboxRuns.FirstReport | src/mailbox.c:59-76 | on every run the first pop reports exactly if it leaves more than the capacity at creation |
| MailboxRuns.NothingLeaks | src/mailbox.c:200-213 | deletion pops the rest and leaves every buffer ever allocated freed exactly once |
| ServiceSafety.CreatedInv | src/service.c:710-774 | a new service satisfies the invariant |
| ServiceSafety.ShutKeepsPins | src/service.c:608-629 | shutdown drains, closes and exits only with no pin and none to come |
| ServiceSafety.SendKeepsPins | src/service.c:184-221 | a pin is only taken while routable and counted while held |
| ServiceSafety.PushKeepsMessages | src/service.c:851-870 | an accepted message is queued once, behind the earlier ones; a refused one nowhere |
| ServiceSafety.ShutKeepsMessages | src/service.c:447-463 | draining takes messages in order and gives each one fate |
| ServiceSafety.RoundKeepsWakes | src/service.c:13-56 | a dispatch round never leaves mail without a wakeup, the batch of exactly 256 included |
| ServiceSafety.SendKeepsWakes | src/service.c:860-884 | between push, readiness check and async send a wakeup is always owed |
| ServiceSafety.ShutKeepsSignals | src/service.c:616-670 | a requested stop keeps its signal until the loop takes it |
| ServiceSafety.StopKeepsSignals | src/service.c:807-849 | a stop of a running service always brings its signal |
| ServiceSafety.JoinKeepsJoins | src/service.c:930-975 | each step of a join keeps the record of joins: at most one pthread_join and one free, none of them twice, no EBUSY |
| ServiceSafety.StepKeeps | src/service.c:184-975 | every step of every thread keeps the whole invariant |
| ServiceRuns.RunKeeps | src/service.c:184-975 | on every run the invariant holds and state, history, closing and retirement only move forward |
| ServiceRuns.PinnedIsSafe | src/service.c:184-221 | between pin and unpin the mailbox is not deleted, the handles are not closing and the thread is not gone |
| ServiceRuns.RetiredStaysUnpinned | src/service.c:223-240 | a retired service without pins is never pinned again |
| ServiceRuns.NoLostWakeup | src/service.c:851-884 | a running service with mail has a pending or owed wakeup, a dispatcher about to look, or a stop on its way |
| ServiceRuns.NoLostStop | src/service.c:807-849 | a requested stop is pending at the loop, about to be sent, or being carried out |
| ServiceRuns.StopNeverStuck | src/service.c:608-670 | until a stopping thread is gone some step already under way is possible: shutdown and senders never wait for each other |
| ServiceRuns.EverySendOnce | src/service.c:851-886 | each send is in one place: held, refused, queued, or with one of the fates dispatched, drained, deleted; a refused one is never dispatched |
| ServiceRuns.DrainedStaysEmpty | src/service.c:608-614 | after the drain the mailbox stays empty and every accepted message has a fate |
| ServiceRuns.Lifecycle | src/service.c:776-975 | the state never goes back; start returns 0 only after RUNNING; at most one join and one free; join returns 0 only after the free; what must happen is said by StartOutcomes and Shutdown |
| ServiceRuns.LaterJoinersAgree | src/service.c:930-951 | a join after a successful one returns its result at once |
| ServiceRuns.PushIsThePush | src/service.c:860-870 | the push step of the service is the last locked region of the mailbox push |
| ServiceRuns.PopIsThePop | src/service.c:888-896 | its pop and batch-end steps are those of the mailbox |
| Doors.BarredStays | src/service.c:223-229 | where a stop is requested or past retiring the service no send is let in any more, whatever steps follow |
| Doors.StoppedIsShut | src/service.c:776-849 | once the calls that requested a stop, or failed to create the thread, have returned, the service is out of the pool and its mailbox closed |
| Doors.NotifiesOpenHandles | src/service.c:862-869 | a sender notifies the thread only while its handle is initialised and not closing |
| Doors.ExitedIsClosed | src/service.c:631-670 | a thread that is gone has closed its handles, cleared their flags, closed the mailbox and left the pool |
| StartOutcomes.StartAnswers | src/service.c:673-805 | on every run start answers EALREADY or the one start error: 0 exactly if the service came to run, which it does only if loop, handles and Lua source were all set up; otherwise ECANCELED after a stop, or the failure |
| StartOutcomes.RunsIfInitialised | src/service.c:680-696 | the thread goes to RUNNING exactly if all that was set up and no stop was requested until it decides |
| StartOutcomes.StartIsAnswered | src/service.c:796-804 | a start under way is answered after at most five steps of its own thread, whatever their outcome, and no other step holds them up |
| StartOutcomes.SecondStart | src/service.c:782-786 | a start of a service that is not NEW answers EALREADY and changes nothing |
| Promises.EachCallAnswered | src/service.c:776-975 | each call of start and of join is answered once, or is the one under way |
| Promises.BatchIsFull | src/service.c:13-56 | a batch counts as full when exactly 256 messages were handled since the callback began, and any other round ends only at an empty mailbox or a service not RUNNING |
| Promises.FateTells | src/service.c:447-928 | the fate of a message says who took it: the dispatcher of a service that came to run, the drain of one that is closed and unpinned, the deletion of one that is freed |
| Promises.StoppedIsNotLoaded | src/service.c:679-684 | a service stopped before its thread checks for it never runs its Lua source |
| Promises.OwnStopFirst | src/service.c:47-55 | a thread that stops its own service takes no other step while that call is under way |
| Promises.QuitWaits | src/service.c:47-55 | when it goes on, the stop has been requested |
| Promises.StopTakesEffect | src/service.c:817-843 | what a stop does to a service that is NEW, starting or running, or stopping already, and that it signals the loop exactly if the control handle is open |
| Shutdown.StepShrinks | src/service.c:608-708 | each step of anything under way in a service that is STOPPING or later takes something off a measure of what is left |
| Shutdown.ArrivalAdds | src/service.c:184-213 | a send that comes after a stop request and a start add nothing to what is left, a stop, a join or a send still let in no more than its own steps |
| Shutdown.ShutdownEnds | src/service.c:608-975 | from STOPPING on, by a stop or a failed start, whatever else arrives: what is under way takes a number of steps bounded by what was left and a fixed cost for each arrival; when none is possible the thread is gone, sends are turned away, and a join that was under way has freed the service, once, and answered 0 |
| Shutdown.ShutdownCompletes | src/service.c:608-975 | there always is such a run: no more steps than what is left, none of them new calls, to that same end |
| Shutdown.JoinAnswers | src/service.c:940-951 | a join is answered at once with EINVAL exactly if the service is NEW, with 0 exactly if it has been freed; any other goes on to join and free it |
| Shutdown.EinvalMeans | src/service.c:946-949 | no other step answers EINVAL to a join |
| Payloads.BranchKeeps | lua/service.lua:456-482 | each branch of the dispatch loop passes the payload on to one, by kind, session and table: request to its coroutine, reply to its caller, the command, or service.remove |
| Payloads.HandKeeps | src/lua-seri.c:828-838 | whoever the thread passed it to frees the payload once, also when unpacking raises |
| Payloads.UnpinKeeps | src/lservice.c:215-229 | a refused payload goes back to the thread that sent it, to be freed there |
| Payloads.TakeKeeps | src/service.c:447-463 | a message popped or drained is in the hands of the service thread alone |
| Payloads.DeleteKeeps | src/mailbox.c:200-213 | deletion frees what is left in the mailbox and nothing twice |
| Payloads.LedgerKept | src/service.c:184-975 | every step keeps the ledger: a payload is freed exactly when it was taken out and passed on to its end, or refused and disposed of |
| Payloads.EachPayloadOnce | src/service.c:851-886 | on every run a payload has exactly one owner until it is freed, or leaked with a reply to a stray coroutine, and none after; nothing is freed twice or after it is leaked |
| Payloads.AllAreFreed | src/service.c:898-928 | once the service is freed every payload it accepted has been freed or leaked, every other too but refused ones whose sender is about to; what is leaked came with a reply, and none is unless one was dispatched to a stray coroutine |
| Payloads.LeaksAreStray | lua/service.lua:469-476 | nothing is leaked on runs where no reply meets a coroutine that does not take it |
| Payloads.LeaksAreReplies | lua/service.lua:469-476 | only payloads of replies to calls can be leaked |
| Payloads.RunsAreRuns | src/service.c:184-975 | the service in these runs does what Service lets it do |
| Dispatch.RoundTakes | lua/service.lua:445-490 | a round takes at most 256; it ends full exactly at 256; one that ends empty leaves the mailbox unscheduled |
| Dispatch.RoundTakesThePrefix | lua/service.lua:455-461 | left alone, a round takes messages in order from the front |
| Dispatch.DispatchLoop | lua/service.lua:455-482 | the loop does what the specified round does, with other threads between its pops |
| Dispatch.AsyncRound | src/service.c:13-56 | after the callback the mailbox is scheduled only if a wakeup was sent, the round was cut short, or mail came since |
| Agent.FreeUnlessAllPending | lua/service.lua:182-194 | there is a first free session exactly if not all 2^32 - 1 are pending, and only one |
| Agent.LuaState.AllocateSession | lua/service.lua:182-194 | the loop returns the first session that is not pending, never 0, wrapping after 2^32 - 1; it fails exactly if all are pending |
| Agent.LuaState.NewSession | lua/service.lua:253-258 | a coroutine with the duty to reply, in both tables |
| Agent.LuaState.AcceptRequest | lua/service.lua:463-467 | a request starts a coroutine with its duty |
| Agent.LuaState.BeginCall | lua/service.lua:310-319 | a call sends its request under a session that is free |
| Agent.LuaState.Suspend | lua/service.lua:324-326 | after an accepted send the call is entered in the table and waits |
| Agent.LuaState.FailToSuspend | lua/service.lua:324-326 | a yield that raises leaves the call in the table and the handler running |
| Agent.LuaState.DeliverReply | lua/service.lua:469-476 | a reply takes its session out of the table and resumes the coroutine entered there, or nobody if there is none or it is over |
| Agent.LuaState.SendResponse | lua/service.lua:260-271 | one reply if a session is owed and the results pack; if they do not, nothing is sent and the duty stays |
| Agent.LuaState.FailSession | lua/service.lua:226-241 | one error reply if a session is owed, after the duty is cleared |
| Agent.LuaState.RunToEnd | lua/service.lua:219-271 | however a handler ends, exactly one reply if one is owed and none otherwise, and the duty is gone |
| Agent.LuaState.EndHandler | lua/service.lua:219-271 | on the tables of the Lua state the end of a handler is the step Rpc.End, and what it sends is what becomes outgoing there |
| Agent.LuaState.ReplyPending | lua/service.lua:435-443 | each coroutine with a session gets one error reply, no other gets any |
| RpcSafety.Frame | lua/service.lua:176-179 | a service sees of the others only what moves into or out of it |
| RpcSafety.PopNode | lua/service.lua:457-476 | taking a message moves its token to a coroutine or to the caller; a reply finds the call it answers |
| RpcSafety.EndNode | lua/service.lua:219-271 | the end of a handler turns its duty into a reply |
| RpcSafety.PassNode | lua/service.lua:435-443 | the stop pass turns each duty left into a reply, once; which reply is EachIsAnswered |
| RpcSafety.YieldRaisesNode | lua/service.lua:324-326 | when the yield of a call raises, duties, tokens and mailbox of the service stay right: only what its coroutines wait for is no longer known |
| RpcSafety.DrainNode | src/service.c:447-463 | the token of a drained request goes to a reply, that of a drained reply is lost with its stopping caller; which reply is EachIsAnswered |
| RpcSafety.PushKeepsNodes | src/service.c:851-886 | a push moves the token to the mailbox it goes to and nowhere else |
| RpcRuns.StepKeeps | lua/service.lua:176-482 | every step of every service keeps the invariant of the whole system |
| RpcRuns.TokenTellsPlace | lua/service.lua:296-340 | a message, duty or outgoing reply for a request means that the request is there |
| RpcRuns.SamePlaceSameToken | lua/service.lua:296-340 | no request has two tokens |
| RpcRuns.PendingHasOneToken | lua/service.lua:296-340 | a pending call of a service that is not stopping, and where no yield of a call has raised, has exactly one token in the whole system |
| RpcRuns.OneReply | lua/service.lua:219-271 | no request is replied to twice, and nothing else is replied to |
| RpcRuns.EveryRequestAnswered | src/service.c:631-670 | an accepted request is in the mailbox, with a coroutine, or answered; once the thread is gone it is answered |
| RpcRuns.OneResume | lua/service.lua:469-476 | a call is resumed at most once, by the reply to its own request, unless a yield of a call has raised in its service |
| RpcRuns.StrayedBy | lua/service.lua:324-326 | the services where the yield of a call has raised are exactly those with such a step in the run |
| RpcRuns.RepliesFindTheirCall | lua/service.lua:310-340 | a dispatched reply finds the coroutine that waits for it, though calls register after sending, on every run in which no yield of a call has raised in that service |
| RpcRuns.StrayReplyIsLost | lua/service.lua:469-476 | the reply to a call whose coroutine is over frees the session, resumes nobody and is lost; only a yield that raised leads there |
| RpcOutcomes.EachIsAnswered | lua/service.lua:219-443 | the step that settles a request sends its caller the message due, under its session: RESPONSE if the handler returned, ERROR if it raised, an ERROR without payload if the request is drained or its coroutine passed over by a stop |
| RpcOutcomes.RepliesCome | lua/service.lua:219-271 | on every run each reply in the system, on its way out or in a mailbox, is one that such a step of the run sent |
| RpcOutcomes.CallIsToldTheTruth | lua/service.lua:326-339 | on every run where no yield has raised: call is resumed by the reply to its own request; a RESPONSE means that its handler ran to its end and returned, an ERROR that it raised, one without payload that the target had closed with the request still queued or unfinished |
| RpcOutcomes.RequestStarts | lua/service.lua:463-467 | each request dispatched, one-way sends included, starts one new coroutine with the duty it asks for |
| TaskHeap.SiftUpOrders | lua/service/scheduler.lua:249-258 | sift_up restores the heap order and keeps the tasks |
| TaskHeap.SiftDownOrders | lua/service/scheduler.lua:260-278 | sift_down restores the heap order and keeps the tasks |
| TaskHeap.PushOrders | lua/service/scheduler.lua:280-285 | push keeps the order and adds the one task |
| TaskHeap.RestOrders | lua/service/scheduler.lua:287-303 | pop takes a task with the least deadline, and of those the one with the least number, and keeps the others in order |
| TaskHeap.WithoutOrders | lua/service/scheduler.lua:305-325 | removing any task keeps the order and the others |
| TaskHeap.PopAllSorts | lua/service/scheduler.lua:287-303 | tasks leave by deadline, equal deadlines by number, each once |
| Scheduler.TaskQueue.SwapTasks | lua/service/scheduler.lua:243-247 | positions stay right under a swap |
| Scheduler.TaskQueue.SiftUp | lua/service/scheduler.lua:249-258 | the loop does what the function does, positions kept |
| Scheduler.TaskQueue.SiftDown | lua/service/scheduler.lua:260-278 | the loop does what the function does, positions kept |
| Scheduler.TaskQueue.Push | lua/service/scheduler.lua:280-285 | heap order and heap_index of every task kept |
| Scheduler.TaskQueue.Pop | lua/service/scheduler.lua:287-303 | the least task or nil; its heap_index cleared, the others right |
| Scheduler.TaskQueue.Remove | lua/service/scheduler.lua:305-325 | true exactly if the task was queued; exactly that task leaves |
| Scheduler.TaskScheduler.ArmTimer | lua/service/scheduler.lua:386-411 | without an error the timer is armed exactly if there are tasks, with the delay to the first, at most a minute; with one, exactly what is left of it |
| Scheduler.TaskScheduler.Enqueue | lua/service/scheduler.lua:455-488 | a failed enqueue leaves the tasks as they were, and the timer as it was or, exactly in the cases stated, stopped |
| Scheduler.TaskScheduler.OnTimer | lua/service/scheduler.lua:420-453 | a firing within a drain changes nothing; any other drains as specified, and afterwards the timer is armed exactly if tasks are left and arming worked |
| Scheduler.Delay | lua/service/scheduler.lua:393-400 | never before the task is due, at most a minute, rounded up by less than a millisecond, and at once for a task that is due already |
| TaskDrain.DrainRunsInOrder | lua/service/scheduler.lua:430-442 | every task run was due at the reading before it, and none in the queue at that moment, re-entrant additions included, had an earlier deadline or the same and a lower number; at most 256 run |
| TaskDrain.DrainEnds | lua/service/scheduler.lua:430-442 | the drain ends with none due at the last reading, or 256 run and one due, or at a call that raised |
| TaskDrain.DrainConserves | lua/service/scheduler.lua:432-439 | tasks are conserved: run once if at, queued again if daily, lost only if the next deadline raised |
| TaskDrain.EachTaskOnce | lua/service/scheduler.lua:432-439 | without an error each at task runs at most once and leaves exactly then, each daily task stays |
| TaskDrain.AddAllNumbers | lua/service/scheduler.lua:464-478 | each task added gets the next number and is put into the queue once |
| TaskDrain.RunsByRegistration | lua/service/scheduler.lua:430-442 | tasks with one deadline run in the order of their numbers, those added by actions and daily ones queued again included |
| Calendar.CivilCountsDays | lua/service/scheduler.lua:69-79 | days_from_civil is the day count by year and month lengths, for every year |
| Calendar.ConsecutiveDays | lua/service/scheduler.lua:69-79 | consecutive dates have consecutive numbers, over month and year ends and leap days |
| Calendar.DatesGrow | lua/service/scheduler.lua:69-79 | dates compare as their numbers do, and different dates have different numbers |
| Timestamp.PrintParses | lua/service/scheduler.lua:81-125 | every valid stamp is accepted and read back as itself |
| Timestamp.ParsePrints | lua/service/scheduler.lua:81-125 | nothing else is accepted: an accepted string is the string of the stamp it gives, which is valid |
| Timestamp.RefusalsTell | lua/service/scheduler.lua:81-125 | what is refused as a timestamp does not start with a valid time, what is refused for its fraction has a point without one to three digits, all else that is refused is refused for its zone |
| Timestamp.SameInstantSameDeadline | lua/service/scheduler.lua:127-159 | stamps with a zone have one deadline exactly if they are one moment in Greenwich |
| Timestamp.DeadlineByParts | lua/service/scheduler.lua:96-130 | the deadline is the day count, the time of day, the fraction digit by digit, less the offset of a zone east of Greenwich, plus that of one west |
| Timestamp.DeadlineIsExact | lua/service/scheduler.lua:155-159 | deadlines of the years 1 to 9999 fit a double exactly |

## Left out

- NaN as a key in a corrupt stream: lua_rawset raises an error there, the model stores it. A packed stream has none.
- When another pairing of packed and decoded tables exists although a reference went astray, for graphs outside the class of `Named.CopiesExactly`: `Isomorphic` pairs tables in the order they are packed and made, and `Twins` shows one graph that has another.
- luaL_checkstack (`src/lua-seri.c:379,640`) and the C stack, which bound how deep tables can be nested: the round trip is stated for any depth, and where they raise there is no message or no result.
- Payloads of configurations (`_new` takes one) and messages composed by hand with a wrong argument, which raise before service_send is called.
- Tables with a `__pairs` metamethod and C functions: their meaning is the Lua machine's.
- Packing errors (a function, a coroutine, userdata): packing is modelled on the values it accepts; `RpcRuns` and `Agent` take a failing pack as an outcome of the handler.
- Allocation failure in blk_alloc and seri, which the source does not check. In the mailbox it is a step that answers FULL.
- Sizes of 2^31 and more: strings, array parts and numbers of tables stay below, as the casts to `int` in the source need.
- Integers of 2^52 and more in a corrupt stream: lua_pushinteger goes through a double there; the model clamps them. A packed stream has none.
- libuv, threads, locks and the Lua machine: an async handle is a pending bit, a locked region one step, a coroutine one of five states. uv_async_send at the start of the loop always succeeds, as it does once the handle is open.
- A service_stop, or a failing service_start, that overtakes a join-and-free: it uses the mailbox after releasing its lock and without a pin. The join step that frees waits for it, as deleting the pool does.
- pthread_join failing, and EDEADLK for a thread that joins itself.
- Services stopped before their thread exists: their queued requests are disposed of without a reply. In `Service` they are the fate Deleted; `Rpc` has no step that deletes them, so that its results on replies are about services whose thread runs to its end.
- Raw handlers not built by service.dispatch, resuming a coroutine from inside a handler, code that goes around the API, SYSTEM messages other than the bootstrap command (which starts a coroutine that owes nothing).
- service.call to itself by name, lookup, names and ids of the pool: bookkeeping that would add easy members.
- The class form of service.c: its regions touch state under three different locks, so they are steps of a state machine and not methods of one object.
- mailbox_overload, idle hooks, logging, the exit error, bootstrap and root.
- Local time: a stamp without a zone, os.time and os.date, and the next daily deadline are outside; a daily task's next deadline is any number, or a call that raises.
- Rounding of deadlines given as numbers: deadlines are reals.
- Which coroutine is resumed by which reply once the yield of a call has raised in a service: the step `Wakes` may resume any of its coroutines there.
