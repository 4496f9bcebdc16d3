# The runtime, the wire codec and the session bridge, verified

A contract runtime hands signed instances to hosts: pledges are fulfilled on a pool of
workers, outcomes are latched and judged by a requirements policy, writes made inside a
transactional subcontract commit together or not at all, values cross the network and the
disk in one canonical encoding, and a gRPC bridge parks a session's instance when its stream
ends and stands it up again on whichever replica claims its row first. This project models
those mechanisms in Dafny and proves what they promise.

- `Words`, `Values`, `Wire`, `WireTheorems`, `WireCodec`: the canonical value codec. The
  encoding, the sizing pass and the decoder are functions; `WireCodec` is the array and cursor
  code, proved equal to them. Round trip, canonicity, self delimiting and the bound on what
  decoding may allocate hold for every value and every byte string. Char validity is the
  Unicode scalar value of definition D76, section 3.9 of the Unicode Standard.
- `Maps`, `Equality`: the insertion ordered map in its growing block, the deep copy and value
  equality. Both establish the unique keys the round trip needs; what equality means is stated on
  the values alone.
- `Goldens`: the repository's reference encodings, byte for byte.
- `Requirements`, `PolicyRuns`: the postfix evaluator on its fixed stack, the structural
  defaults, the policy's priority and arming rule, and what runs of outcomes can and cannot do
  to a contract's state.
- `Episodes`, `EpisodeTheorems`, `EpisodeEnds`, `Payloads`, `Contract`: fulfilments that write, nest
  and fail over a store connection with at most one transaction; the class holds the runtime's fields and arrays and
  does to them what the episode functions say.
- `Park`, `ParkCodec`, `Store`: the parked row, its blobs, and the cells, queries and tables
  under it.
- `Futures`, `FuturesInv`, `FuturesSafety`, `FuturesHonest`, `FuturesRun`, `PoolQueue`: fulfil, worker, wait, synchronous
  release, explicit break and shutdown as one step system over instances, futures, queue and
  threads. Each step is what one thread does in one critical section. `PoolQueue` is the linked
  queue, the linked list and the future's fields, updated in place.
- `Bridge`, `BridgeSafety`, `InstanceTable`: replicas, streams, crashes and the shared park store.
- `Inames`, `InameTable`: the sorted name registry and its rollback.
- `GroupedSql`, `SqlPrinter`: the grouped WHERE printers and the buffers sized for them.
- `Fnv`: FNV-1a 64 (section 2 of draft-eastlake-fnv) in signed two's complement.

Where the code and its documentation disagree the model follows the code:

- The language's own description of the lifecycle says contract state never regresses. It can: a `partial: !A` line holds
  while A is pending and lets go once A is kept. `PolicyRuns.NeverFallsExactly` says exactly
  which descriptors keep the promise, `PolicyRuns.SteadyBySweep` decides it for any one of them,
  and lines without negation always do.
- A broken instance refuses every further call, but a call whose own outcome breaks its instance
  by policy, or inside which a nested one does, still settles its episode and may commit it.
  `EpisodeEnds.UnexposedNeverCommitsBroken` says which descriptors rule that out, the structural
  defaults among them, and `PolicyRuns.ExposedBySweep` decides it.
- A loose write made while an episode is open rides that transaction, and a second
  transactional subcontract is refused by the backend until the first resolves.
- `docs/database.md:90` has an episode commit the moment its last pledge latches Ok. The latch comes
  first, and two things part them: a commit the backend refuses, and a call of the subcontract that
  failed under the open transaction, which ends the episode although its pledge may be kept
  already or be kept yet by an enclosing call. `EpisodeEnds.CommitsExactly` says that nothing else
  does.
- `docs/database.md:116` has an automatically broken instance park. One that broke with an episode
  open takes no more calls, so the episode stays open and the instance never parks.
- A deep copy clears the variant tag of a string, so a tagged string the codec refuses is one it
  accepts once copied.
- The guard that keeps an explicitly broken instance from being parked looks at the pledge
  count first, so a broken contract with neither pledges nor vows still parks.
- The encoder accepts a map with duplicate keys and the decoder refuses it, so unique keys is
  the exact condition of the round trip and of park and resume.
- Reading a parked row and deleting it are two steps. Between them another replica can claim,
  run and park the same session again; the claim then carries the older state.

## Model

| member | source | states |
|---|---|---|
| `Words.CastsInverse` | `runtime/src/store.c:58-88` | the uint64 and int64 casts undo one another, so a signed cell carries any 64 bits |
| `Words.ValLE` | `runtime/src/wire.c:27-46` | reading the little endian bytes of a number that fits their width gives the number back |
| `Words.LEVal` | `runtime/src/wire.c:39-46` | any bytes are the little endian spelling of the number they read as |
| `Words.LESplit` | `runtime/src/wire.c:34-37` | a 64 bit number is spelled as its low half followed by its high half |
| `Words.LEBytes` | `runtime/src/wire.c:27-32` | the four shifted bytes put_u32 stores are the little endian spelling |
| `Wire.EncAllAtLeast` | `runtime/src/wire.c:296-301` | n encoded values take at least 8n bytes, the fact every count check relies on |
| `Wire.SizeExact` | `runtime/src/wire.c:105-192` | the sizing pass answers exactly the number of bytes the value encodes to, refuses as ErrType exactly a value that may not cross or nests past 64 levels, and as ErrOom only when the total would pass SIZE_MAX |
| `Wire.SizeAllExact` | `runtime/src/wire.c:140-192` | the same of the element loop, element tag checks included |
| `WireTheorems.ParseFixed` | `runtime/src/wire.c:198-240` | the fixed part of every encodable value parses back to that value without its kids, and to its own length |
| `WireTheorems.ParseSpells` | `runtime/src/wire.c:303-420` | whatever fixed part the decoder accepts is the one the encoder writes for the value it read |
| `WireTheorems.RoundTrip` | `runtime/src/wire.c:198-276` | for every encodable value and every tail, decoding its bytes gives the value back and consumes exactly its bytes if all its maps have unique keys, and is refused otherwise |
| `WireTheorems.RoundTripKids` | `runtime/src/wire.c:410-463` | the same of the element loop, with the keys already read |
| `WireTheorems.Canonical` | `runtime/src/wire.c:303-464` | whenever any bytes decode to a value, writing that value gives those very bytes, and it is encodable with unique keys throughout |
| `WireTheorems.CanonicalKids` | `runtime/src/wire.c:410-463` | the same of the element loop: what was read is what was there, tag checked and with keys apart |
| `WireTheorems.DecodeThenEncode` | `runtime/src/wire.c:111-276` | sizing a decoded value answers exactly the bytes consumed, and writing it reproduces them |
| `WireTheorems.PrefixRefused` | `runtime/src/wire.c:288-294` | no strict prefix of an encoding decodes to anything |
| `WireTheorems.SplitsUniquely` | `runtime/src/runtime.c:2962-2992` | back to back encodings can be split into values in one way only |
| `WireTheorems.AskBound` | `runtime/src/wire.c:296-463` | at any depth, whether the input is accepted or refused, decoding asks for a number of value slots bounded by the levels left times an eighth of the input, and at most its length in string bytes |
| `WireTheorems.AskAtTop` | `runtime/src/wire.c:466-479` | from the top that is at most 64 slots per 8 input bytes |
| `Goldens.IntGolden` | `tests/runtime/test_wire.c:93-96` | the reference encoding of -42, byte for byte |
| `Goldens.UIntGolden` | `tests/runtime/test_wire.c:98-103` | the reference encoding of 0xDEADBEEFCAFEBABE |
| `Goldens.CharGolden` | `tests/runtime/test_wire.c:124-129` | the reference encoding of a scalar value past the first plane |
| `Goldens.ListGolden` | `tests/runtime/test_wire.c:139-155` | the reference encoding of [[1, 2], [3]] |
| `Goldens.TupleGolden` | `tests/runtime/test_wire.c:157-166` | the reference encoding of ("alpha", 10, true) |
| `Goldens.SumGolden` | `tests/runtime/test_wire.c:180-190` | the reference encoding of a variant with a payload |
| `Goldens.ErrGolden` | `tests/runtime/test_wire.c:213-223` | the reference encoding of Err(Some("deep")) |
| `Goldens.MapGolden` | `tests/runtime/test_wire.c:226-236` | the reference encoding of {"ada": 37, "bob": 40}, pairs in insertion order |
| `Goldens.FrameGolden` | `tests/runtime/test_wire.c:297-308` | the header of a FULFILL frame: magic, kind, request id and payload length at their offsets, low byte first |
| `Equality.ValueEqExactly` | `runtime/src/runtime.c:3592-3638` | two values are equal exactly when nothing inside is a NaN, a pledge reference or a stray tag and they are one value once scalar variant tags, the sign of a zero and declared element tags are cleared |
| `Equality.NaNFields` | `runtime/src/runtime.c:3596-3638` | the float bits equal to nothing: an exponent of all ones over a fraction that is not zero |
| `Equality.KeyEqExactly` | `runtime/src/runtime.c:3602-3611` | keys are equal exactly when they are one value but for their variant tags, and keys that may cross the wire exactly when they are the same |
| `Equality.KeyBytesApart` | `runtime/src/wire.c:431-440` | and exactly when their encodings are the same bytes |
| `Equality.UniqueIsDistinct` | `runtime/src/wire.c:431-440` | the decoder's uniqueness condition on an encodable value is that no key in any map of it occurs twice |
| `Equality.RoundTripDistinct` | `runtime/src/wire.c:198-276` | the round trip stated so: an encodable value's bytes, followed by anything, are read back as that value if and only if no key in any map of it occurs twice |
| `Equality.KidOkDistinct` | `runtime/src/wire.c:421-440` | the decoder refuses a map's next key exactly when its tag is not the map's or that very key is already there |
| `WireCodec.EncodeSize` | `runtime/src/wire.c:111-192` | the running total, accumulated in place, is the sizing function's answer |
| `WireCodec.PutU32` | `runtime/src/wire.c:27-32` | four bytes at the position become the number's spelling and no other byte changes |
| `WireCodec.PutU64` | `runtime/src/wire.c:34-37` | eight bytes at the position become the number's spelling and no other byte changes |
| `WireCodec.WritePayload` | `runtime/src/wire.c:203-262` | each arm's payload bytes land at the write pointer and nothing else moves |
| `WireCodec.EncodeWrite` | `runtime/src/wire.c:198-263` | the write pass puts exactly the value's encoding at the pointer, advances by its length and changes nothing around it |
| `WireCodec.EncodeValue` | `runtime/src/wire.c:265-276` | the size protocol: OK exactly when the value is encodable and the buffer holds it; the needed size is told exactly for an encodable value; a refusal writes nothing |
| `WireCodec.WireCur.Take` | `runtime/src/wire.c:288-294` | the one gate of the cursor: succeeds exactly when enough bytes remain and moves over exactly those |
| `WireCodec.ReadShell` | `runtime/src/wire.c:303-400` | reading a header and payload through the cursor is the parse function, and asks the owner for string bytes only after the length was checked |
| `WireCodec.CheckKid` | `runtime/src/wire.c:421-441` | the check on a decoded element: its tag, and for a key that no earlier key equals it |
| `WireCodec.DecodeRecAt` | `runtime/src/wire.c:303-464` | the recursive cursor decoder is the decode function, in value, bytes consumed and what it asked for |
| `WireCodec.DecodeKidsAt` | `runtime/src/wire.c:410-463` | its element loop is the decode function's |
| `WireCodec.DecodeValue` | `runtime/src/wire.c:466-479` | decoding answers the value and the bytes consumed, or ErrType with a zeroed value; what it accepts re-encodes to the bytes read, and its requests stay within 64 slots per 8 bytes either way |
| `WireCodec.FrameWrite` | `runtime/src/wire.c:50-61` | an unknown kind is ErrType, an oversized payload ErrOom, in that order, and then nothing is written; otherwise the 20 header bytes |
| `WireCodec.FrameRoundTrip` | `runtime/src/wire.c:50-75` | a header reads back as a frame exactly when it is that frame's bytes and the frame is sendable |
| `Maps.DeepCopy` | `runtime/src/runtime.c:3659-3721` | a deep copy succeeds exactly on values with no stray tag inside, and is then the value with the variant tag of every string in it cleared |
| `Maps.CopyableIff` | `runtime/src/runtime.c:3659-3721` | what a copy refuses is exactly a stray tag somewhere inside |
| `Maps.CopiedKeepsEq` | `runtime/src/runtime.c:3596-3638` | equality cannot tell a copy from its original, on either side |
| `Maps.CopiedKeepsUnique` | `runtime/src/runtime.c:3659-3721` | a copy has unique keys throughout exactly when the original has |
| `Maps.CopiedSameIff` | `runtime/src/runtime.c:3428-3437` | a copy is the very same value exactly when no string inside carries a variant tag |
| `Maps.LegalCopies` | `runtime/src/wire.c:111-192` | a value the encoder accepts is copied unchanged |
| `Maps.KeyEqEquivalence` | `runtime/src/runtime.c:3596-3638` | on keyable values equality is reflexive, symmetric and transitive |
| `Maps.SetThenLookup` | `runtime/src/runtime.c:3539-3590` | what was set is found, and every other key's lookup is as before |
| `Equality.SetFindsKey` | `runtime/src/runtime.c:3547-3590` | what was set is found under the same key, whatever its variant tag, and under every other key nothing changed |
| `Equality.LookupFindsKey` | `runtime/src/runtime.c:3539-3590` | a lookup answers the value beside that very key |
| `Equality.LookupMisses` | `runtime/src/runtime.c:3539-3590` | and misses when no key is that one |
| `Maps.SetKeepsOrder` | `runtime/src/runtime.c:3547-3580` | an update leaves the keys in place, a new key joins at the end, and the keys stay apart |
| `Maps.SetKeepsUnique` | `runtime/src/runtime.c:3547-3580` | setting keeps unique keys through the whole value |
| `Maps.BuiltIsUnique` | `runtime/src/runtime.c:3518-3580` | every map built by setting has the unique keys the codec needs |
| `Maps.GeasMap.Find` | `runtime/src/runtime.c:3539-3545` | the scan answers the first pair whose key equals k, or -1 |
| `Maps.GeasMap.Get` | `runtime/src/runtime.c:3582-3590` | a lookup under the map's key tag, a miss under any other |
| `Maps.GeasMap.Set` | `runtime/src/runtime.c:3547-3580` | a key of the wrong tag or a part that will not copy changes nothing; otherwise the slots are the ordered map's with the copies of key and value set |
| `Maps.GeasMap.Append` | `runtime/src/runtime.c:3563-3579` | a new pair goes after every old one, whatever the capacity |
| `Maps.GeasMap.Grow` | `runtime/src/runtime.c:3563-3573` | doubling, from nothing to 8, keeps the slots and always leaves room for a pair |
| `Requirements.SubAllLoop` | `runtime/src/runtime.c:2436-2447` | a subcontract has a latch state exactly when it has a pledge and all its pledges have it |
| `Requirements.AtomTruth` | `runtime/src/runtime.c:2453-2462` | an atom is its subcontract's state, or else its pledge's latch |
| `Requirements.Exec` | `runtime/src/runtime.c:2474-2497` | one op on the fixed stack is one step of the stack machine, and an op that would leave the stack is refused |
| `Requirements.EvalLine` | `runtime/src/runtime.c:2470-2500` | evaluating any op list at all over a 128 slot stack stays inside it and answers the line's value |
| `Requirements.StepsOfTree` | `runtime/src/runtime.c:2470-2500` | from any stack, a tree's postfix program pushes the tree's truth if the stack has room for it and its atoms exist, and is refused otherwise |
| `Requirements.LineOfTree` | `runtime/src/runtime.c:2464-2500` | a line in postfix form holds exactly when its atoms exist, its stack need is at most 128 and its tree is true of the latches |
| `Requirements.DefaultLineLoop` | `runtime/src/runtime.c:2509-2523` | the structural default holds exactly when there is an item and every item's atom holds |
| `Requirements.DefaultPartialLoop` | `runtime/src/runtime.c:2525-2530` | the default partial line holds exactly when some subcontract is fulfilled |
| `Requirements.DefaultIsLine` | `runtime/src/runtime.c:2502-2523` | the structural default and the conjunction a compiler would synthesize for it agree on all latches |
| `Requirements.DefaultMeans` | `runtime/src/runtime.c:2509-2523` | on the latches alone: the default fulfill (break) line holds exactly when there is a pledge, no subcontract is empty and every pledge is kept (failed) |
| `Requirements.PartialMeans` | `runtime/src/runtime.c:2525-2530` | the default partial line holds exactly when some subcontract has a pledge and all its pledges are kept |
| `Requirements.EvalPolicy` | `runtime/src/runtime.c:2548-2576` | break if armed, then fulfill, then partial, else Signed; Broken stays |
| `Requirements.DefaultBreakIsArmed` | `runtime/src/runtime.c:2535-2543` | arming never changes the default break line: it already needs a failed pledge |
| `PolicyRuns.BrokenStays` | `runtime/src/runtime.c:2548-2550` | Broken is terminal over every run |
| `PolicyRuns.TearBreaks` | `runtime/src/runtime.c:2125-2155` | an explicit break breaks any signed contract and leaves its latches |
| `PolicyRuns.LatchesStand` | `runtime/src/runtime.c:2578-2592` | over every run latches only fill in, and none that is set changes |
| `PolicyRuns.NoBreakUnarmed` | `runtime/src/runtime.c:2535-2543` | without an explicit break no run is Broken before some pledge has failed |
| `PolicyRuns.StepsGrow` | `runtime/src/runtime.c:2470-2500` | a negation free program is monotone in the latches, slot by slot of the stack |
| `PolicyRuns.LineGrows` | `runtime/src/runtime.c:2470-2500` | a negation free line that holds keeps holding as latches fill in |
| `PolicyRuns.DefaultGrows` | `runtime/src/runtime.c:2509-2530` | so do the structural defaults |
| `PolicyRuns.RunIsAt` | `runtime/src/runtime.c:2548-2576` | in every run the instance is Broken, or where its latches say, on latches attainable without breaking |
| `PolicyRuns.SomeRunTo` | `runtime/src/runtime.c:2548-2592` | every attainable filling of the latches is where some run gets |
| `PolicyRuns.NeverFallsExactly` | `runtime/src/runtime.c:2532-2576` | the state never falls in any run exactly when one more latch, wherever the contract can get to unbroken after its first outcome, lets go of no line that held: fulfill holds on, and partial holds on or gives way to fulfill, unless the break line fires |
| `PolicyRuns.SteadyBySweep` | `runtime/src/runtime.c:2532-2576` | decides that condition, and so whether the state can fall in any run, from the descriptor alone by a sweep of the attainable fillings |
| `PolicyRuns.NoNegationNeverFalls` | `runtime/src/runtime.c:2532-2576` | with no negation in the fulfill and partial lines the state never falls except to Broken |
| `PolicyRuns.NegatedPartialFalls` | `runtime/src/runtime.c:2532-2576` | the promise fails with negation: under `partial: !A`, keeping B and then A goes from Partial back to Signed |
| `PolicyRuns.NegatedPartialUnsteady` | `runtime/src/runtime.c:2532-2576` | that descriptor fails the condition too |
| `PolicyRuns.FulfilledStays` | `runtime/src/runtime.c:2571-2575` | Fulfilled is for good when the fulfill line has no negation and never holds together with the break line |
| `PolicyRuns.FulfilledLastsExactly` | `runtime/src/runtime.c:2548-2576` | in every run nothing but an explicit break ends Fulfilled, exactly when no latch filled in where the contract gets to with its fulfill line holding makes that line let go or the break line fire |
| `PolicyRuns.FulfilledBySweep` | `runtime/src/runtime.c:2548-2576` | decides that from the descriptor alone |
| `PolicyRuns.ExposedBySweep` | `runtime/src/runtime.c:2548-2576` | decides whether some attainable filling breaks the contract by one more latch while a subcontract has a pledge pending and none failed |
| `PolicyRuns.GuardedUnexposed` | `runtime/src/runtime.c:2548-2576` | no subcontract is exposed if every filling that fires the armed break line has a failed pledge in it |
| `PolicyRuns.DefaultGuards` | `runtime/src/runtime.c:2509-2523` | under the structural default no subcontract is exposed |
| `PolicyRuns.DefaultsDisjoint` | `runtime/src/runtime.c:2509-2523` | the structural default fulfill and break lines never hold together |
| `PolicyRuns.PartialScan` | `runtime/src/runtime.c:2181-2198` | the count and the want-th name of the items in a state, subcontracts first, then loose pledges, in descriptor order |
| `PolicyRuns.ItemsAre` | `runtime/src/runtime.c:2157-2198` | a list holds the names of exactly the items in its state: named subcontracts as all their pledges' latches agree, and loose pledges by their own |
| `PolicyRuns.PartialCountsAll` | `runtime/src/runtime.c:2157-2198` | every named subcontract and every loose pledge is in exactly one of the three lists |
| `EpisodeTheorems.TxnBeforeKeeps` | `runtime/src/runtime.c:2617-2627` | opening an episode keeps the connection and the fates in step |
| `EpisodeTheorems.RollbackKeeps` | `runtime/src/runtime.c:2647-2655` | a rolled back episode leaves no write of its own durable |
| `EpisodeTheorems.CommitKeeps` | `runtime/src/runtime.c:2656-2659` | a commit makes durable every write since its BEGIN in one piece |
| `EpisodeTheorems.FulfilKeeps` | `runtime/src/runtime.c:2673-2696` | the episode invariant holds after every fulfilment, however it nests and ends |
| `EpisodeTheorems.BodyKeeps` | `runtime/src/runtime.c:2798-2853` | and at every point inside a body |
| `EpisodeTheorems.FulfilLater` | `runtime/src/runtime.c:2640-2665` | a fulfilment only adds to the durable log and the commits, keeps done episodes done and latches set, and commits only episodes not done before |
| `EpisodeTheorems.InsideKeeps` | `runtime/src/runtime.c:2673-2696` | at every moment of a call, in its body or a nested one at any depth or latched and judged but not yet committed, the episode invariant holds and nothing durable, done or latched has been lost |
| `EpisodeTheorems.OccursInv` | `runtime/src/runtime.c:2610-2665` | the invariant holds at every such moment of every run of an instance signed or resumed |
| `EpisodeTheorems.AllOrNothing` | `runtime/src/runtime.c:2610-2665` | at every moment of every run of a signed or resumed instance, opening and nested bodies included, the durable log is exactly the writes made with no episode open and the whole of each committed episode, in order |
| `EpisodeTheorems.EpisodeWhole` | `runtime/src/runtime.c:2630-2665` | at every such moment a write made in an episode is durable exactly when the episode has committed |
| `EpisodeTheorems.InTransactionIff` | `runtime/src/runtime.c:2610-2627` | at every such moment with the store open the connection is in a transaction exactly when one episode is open, and never are two |
| `EpisodeTheorems.CommitsOnceComplete` | `runtime/src/runtime.c:2656-2663` | at every such moment each episode has committed at most once, and only with every pledge of it kept |
| `EpisodeTheorems.DoneStaysDone` | `runtime/src/runtime.c:2620` | a done episode stays done over every run and inside every call, never commits again, and with the store open refuses its pledges as ErrState |
| `EpisodeTheorems.SecondEpisodeRefused` | `runtime/src/store.c:476-478` | a corollary: at every such moment with one episode open, another transactional subcontract's first pledge is refused as ErrStore, changes nothing and stays unopened |
| `EpisodeTheorems.LooseWriteRides` | `runtime/src/store.c:470-486` | a write made while an episode is open, whatever pledge made it, is at every later moment durable exactly when that episode has committed |
| `EpisodeTheorems.RefusedCommit` | `runtime/src/runtime.c:2687-2691` | one way a complete subcontract stays uncommitted: a refused commit comes after latch and policy, so the pledge stays kept, the episode is done, the answer is ErrStore and none of its writes is durable; CommitsExactly has every way |
| `EpisodeEnds.EndSettles` | `runtime/src/runtime.c:2640-2665` | at the end of any call, nested or not, that ran under its open episode: a commit makes the buffer durable, a fault drops it, either way the episode is over, and otherwise nothing changes |
| `EpisodeEnds.FulfilTidy` | `runtime/src/runtime.c:2640-2665` | between calls with the store open, a transactional subcontract with every pledge kept has its episode done |
| `EpisodeEnds.RunFate` | `runtime/src/runtime.c:2640-2665` | over every run an episode is done exactly when it committed or a fault ended it, and never both |
| `EpisodeEnds.CommitsExactly` | `runtime/src/runtime.c:2640-2665` | over every run: a complete transactional subcontract's episode is over, and it committed exactly when no call of it that ran while it was open failed by status or Err and its commit was not refused |
| `EpisodeEnds.KeptWithoutCommit` | `runtime/src/runtime.c:2640-2665` | a concrete run with no commit refused and OK answered: a nested call fails, the outer one keeps the pledge, the contract is Fulfilled and nothing was committed |
| `EpisodeTheorems.BrokenWritesNothing` | `runtime/src/runtime.c:2676-2678` | once Broken, by policy or explicit break, no later call makes anything durable or commits |
| `EpisodeTheorems.BrokenCallCommits` | `runtime/src/runtime.c:2687-2691` | the limit of that: a call whose own Ok breaks the instance by policy, or inside which a nested call does, still commits its complete episode, writes made since included, and the instance stays Broken |
| `EpisodeTheorems.BrokenYetCommits` | `runtime/src/runtime.c:2673-2696` | a concrete descriptor and nested call that get there |
| `EpisodeEnds.SelfBreakCommits` | `runtime/src/runtime.c:2687-2691` | and one with no nesting, under `break: A && !B` with B failed first |
| `EpisodeEnds.UnexposedNeverCommitsBroken` | `runtime/src/runtime.c:2673-2696` | over every run of an instance signed or resumed, however calls nest, a subcontract the descriptor does not expose never commits into an instance its policy has already broken |
| `EpisodeEnds.CommitsBrokenExactly` | `runtime/src/runtime.c:2673-2696` | and where it is the only transactional subcontract some run does so exactly when the descriptor exposes it |
| `Payloads.RunTells` | `runtime/src/runtime.c:2583-2592` | over every run without an explicit break, nested calls included, a pledge's latch and payload are what the first outcome it had makes of those it started with |
| `Payloads.SignedTells` | `runtime/src/runtime.c:2583-2592` | so a signed instance's failed pledge reports the value its first outcome boxed, and every other the zero value |
| `Payloads.TornTells` | `runtime/src/runtime.c:2138-2155` | an explicit break zeroes every payload for good and leaves the latches |
| `Payloads.AnswerIs` | `runtime/src/runtime.c:2673-2696` | a call that did not run changed nothing and says why; one that ran answers its body's status, or ErrStore when the commit it completed was refused |
| `Payloads.RunRecords` | `runtime/src/runtime.c:2798-2853` | every write granted to a body that ran is on record once and in order, so AllOrNothing accounts for each |
| `EpisodeTheorems.BreakKeeps` | `runtime/src/runtime.c:2141-2150` | an explicit break drops what an open episode had buffered |
| `Contracts.Contract.constructor` | `runtime/src/runtime.c:2009-2091` | sign leaves every latch pending, every payload zero, every episode unopened |
| `Contracts.Contract.PledgeTxnSub` | `runtime/src/runtime.c:2601-2608` | a pledge's transactional subcontract, or none for a loose pledge, a sub outside the table or one without the flag |
| `Contracts.Contract.TxnBefore` | `runtime/src/runtime.c:2617-2627` | done is ErrState, a refused begin ErrStore with nothing changed, and otherwise the first pledge opens the transaction |
| `Contracts.Contract.LatchPledge` | `runtime/src/runtime.c:2583-2592` | the first outcome latches in place, an Err keeping its payload; later ones change nothing |
| `Contracts.Contract.Judge` | `runtime/src/runtime.c:2548-2576` | the state becomes what the policy says of the latches |
| `Contracts.Contract.TxnAfter` | `runtime/src/runtime.c:2640-2665` | failure or Err rolls back, completion commits, a refused commit is ErrStore with the episode rolled back |
| `Contracts.Contract.RunTask` | `runtime/src/runtime.c:2673-2696` | a whole fulfilment on the object is the episode function, nested calls and all |
| `Contracts.Contract.RunBody` | `runtime/src/runtime.c:2798-2853` | a body's writes and inline calls, in order |
| `Contracts.Contract.Break` | `runtime/src/runtime.c:2125-2155` | an explicit break zeroes the payloads, rolls back, closes the connection and leaves latches and fates readable |
| `Park.ParkExactly` | `runtime/src/runtime.c:3045-3112` | a row is written from exactly the states between walks (signed, heap there, every future waited, no episode open) whose values can be encoded, any other state is ErrState, and the row's cells are the state |
| `Park.ResumeExactly` | `runtime/src/runtime.c:3136-3335` | a row is accepted exactly when its state is a signed one, it describes a contract registered here and the hash the caller pinned, every pledge is bound, its blobs hold what the contract declares, and the store opens and fits; the wrong name and the wrong shape are ErrName and ErrVersion |
| `Park.ResumeAfterPark` | `runtime/src/runtime.c:3045-3335` | an instance parked and resumed has the same state, signing time, vows, latches, payloads and fates exactly when no map in its vows or payloads has a duplicate key; otherwise the row is refused as ErrType |
| `Park.VowsBack` | `runtime/src/runtime.c:3241-3258` | the vow blob decodes to the vows exactly when their keys are unique |
| `Park.ErrsBack` | `runtime/src/runtime.c:2994-3026` | the payload blob, presence bytes and all, decodes to the payloads exactly when their keys are unique |
| `Park.ParkAfterResume` | `runtime/src/runtime.c:3045-3335` | every instance resumed from a row parks again, and to the same row byte for byte exactly when the row was spelled as park spells rows |
| `Park.ErrsForth` | `runtime/src/runtime.c:3273-3288` | re-encoding decoded payloads gives the same blob exactly when no presence byte marks the all zero payload |
| `Park.VowsForth` | `runtime/src/runtime.c:3238-3261` | a vow blob the resume accepts holds exactly one value of each declared type and re-encodes to itself |
| `Park.ParkedAgain` | `runtime/src/runtime.c:3045-3335` | park, resume, park writes the same row again |
| `Park.TornParks` | `runtime/src/runtime.c:3053` | after an explicit break a contract with pledges does not park (ErrState), one with vows alone does not either (ErrType), and one with neither parks as Broken |
| `Park.BrokenParksIff` | `runtime/src/runtime.c:3045-3075` | an automatically broken instance gets past the guard exactly when it broke with no episode open |
| `Park.BrokenOpenNeverParks` | `runtime/src/runtime.c:3065-3072` | one that broke with an episode open parks in no state it ever reaches |
| `Park.ResumedStarts` | `runtime/src/runtime.c:3290-3304` | a resumed instance starts as a signed one does, nothing open and nothing yet written, so the theorems over every run of an instance cover it |
| `Park.ResumedSound` | `runtime/src/runtime.c:3290-3304` | a row carries over what policy, latches and fates agree on, so the commit theorems over runs hold on from a resume |
| `Park.DoneAcrossRows` | `runtime/src/runtime.c:3065-3072` | an episode done when parked is done, refused and never committed in every state of every instance resumed from the row, and in every row parked from those |
| `ParkCodec.EncodeValues` | `runtime/src/runtime.c:2965-2992` | sizing then writing gives the values' encodings back to back, or the refusal |
| `ParkCodec.EncodeErrs` | `runtime/src/runtime.c:2996-3026` | sizing then writing gives each payload's presence byte and encoding, or the refusal |
| `ParkCodec.ReadVows` | `runtime/src/runtime.c:3241-3261` | the cursor loop over the vow blob is the decode function, to the last byte |
| `ParkCodec.ReadErrs` | `runtime/src/runtime.c:3273-3288` | the cursor loop over the payload blob is the decode function, to the last byte |
| `Stores.CellRoundTrip` | `runtime/src/store.c:58-168` | a scalar bound and read back under its type is the same value exactly unless it is a Bool that is neither 0 nor 1 or carries a stray tag |
| `Stores.CellRestored` | `runtime/src/store.c:111-150` | a cell read as Int, UInt, Float or String binds back to the same cell |
| `Stores.CellNarrows` | `runtime/src/store.c:126-157` | a cell wider than its column is cut to the low bits of its two's complement, and a Bool is whether it is zero |
| `Stores.BindParams` | `runtime/src/store.c:92-100` | a frame of the wrong length is ErrStore, one with a composite ErrType, otherwise every cell in order |
| `Stores.ReadRow` | `runtime/src/store.c:111-168` | a record of one field per column in order, each the cell read under its column's type |
| `Stores.Query` | `runtime/src/store.c:388-468` | given the rows each walk meets as inputs: the first walk only counts, the backbone has that many slots, the second fills them in order, never past the end, and leaves zero slots if it comes up short |
| `Stores.ValidateTable` | `runtime/src/store.c:298-328` | OK exactly when the live columns match the schema in number, name and storage type |
| `Stores.Database.CreateTable` | `runtime/src/store.c:265-289` | creates exactly the schema's columns when every type and name is allowed, else nothing |
| `Stores.Database.Reconcile` | `runtime/src/store.c:330-348` | success means the table there is the schema's; a table already there is only checked; no other table changes; each refusal has its status, an empty schema and a kind no table holds ErrType, a bad name or the backend ErrStore |
| `Stores.SharedTableIff` | `runtime/src/store.c:298-328` | one schema accepts the table another created exactly when they agree column for column on name and storage type |
| `Stores.DeclaredAsStored` | `runtime/src/store.c:208-232` | a column is declared INTEGER, REAL or TEXT exactly as its cells are stored |
| `Stores.IdentIs` | `runtime/src/store.c:236-250` | a column name is a letter or underscore, then letters, digits and underscores |
| `FuturesInv.OthersKeepPlace` | `runtime/src/runtime.c:40-62` | no step of one thread takes away what another thread's place in the protocol relies on |
| `FuturesInv.StepKeeps` | `runtime/src/runtime.c:40-62` | a step that keeps its own thread, future and instances in order and what it owes the rest keeps the whole invariant |
| `FuturesInv.EachStep` | `runtime/src/runtime.c:2667-2875` | every step of fulfil, worker, wait, release and break meets that |
| `FuturesInv.FreeAllKeeps` | `runtime/src/runtime.c:566-575` | so does the shutdown walk that frees what is still linked |
| `FuturesInv.NextKeeps` | `runtime/src/runtime.c:225-375` | every step of the system keeps the invariant |
| `FuturesInv.ReachableKeeps` | `runtime/src/runtime.c:225-375` | the invariant holds in every state of every interleaving |
| `FuturesSafety.NoUseAfterReclaim` | `runtime/src/runtime.c:300-319` | no step reads or writes a frame, ref or slot of an instance whose heap is gone, a body's nested calls at any depth included |
| `FuturesSafety.ReclaimedUnreachable` | `runtime/src/runtime.c:2118-2155` | once a heap is reclaimed no future of it is being written back, no body runs on it and no undelivered future points into it |
| `FuturesSafety.NoUseAfterFree` | `runtime/src/runtime.c:272-347` | no step touches a future that has been freed: not its own, not one on a list it walks, not an end of the queue it links to |
| `FuturesSafety.RefcountExact` | `runtime/src/runtime.c:272-284` | the count is exactly the receipt's hold plus the pool's, a future is freed exactly when it reaches zero and never twice, and the holds are where they are said to be |
| `FuturesSafety.AllFreedOnce` | `runtime/src/runtime.c:556-575` | when the runtime is gone every future it made has been freed exactly once |
| `FuturesHonest.AnswersExactly` | `runtime/src/runtime.c:2767-2789` | over every interleaving an answer that took its outcome is exactly what its future published, or the type refusal where that was OK and a slot has the wrong type, or ErrState only under an explicit break of the instance; every other answer is ErrState with one before it that took; and at most one took |
| `FuturesHonest.ReturnPublishes` | `runtime/src/runtime.c:2684-2693` | a body's return is what its future publishes |
| `FuturesHonest.TasksHaveFrames` | `runtime/src/runtime.c:300-319` | a task the pool holds, until a break decides it, has its frame in a heap that is there |
| `FuturesHonest.PublishedByStep` | `runtime/src/runtime.c:286-298` | over every run what a future publishes is what its body returned or the refusal it met, at the very step that did so |
| `FuturesRun.Life` | `runtime/src/runtime.c:2667-2875` | a whole run that takes every kind of call: delivery with its write back, the second wait refused, a nested call, a break, a refused synchronous call, and a shutdown that leaves both futures freed once |
| `FuturesSafety.PublishedOnce` | `runtime/src/runtime.c:286-298` | the first completion of a future is its only one over the rest of every run |
| `FuturesSafety.Drained` | `runtime/src/runtime.c:352-375` | when the workers have left, the queue is empty, every issued future is decided and the pool holds none |
| `FuturesSafety.BlockedHoldsNothing` | `runtime/src/runtime.c:40-62` | a thread waiting for an instance lock, an outcome or work holds no lock |
| `FuturesSafety.NeverStuck` | `runtime/src/runtime.c:40-62` | no reachable state is deadlocked: while anything is under way or queued some thread can carry on |
| `FuturesSafety.OnwardFalls` | `runtime/src/runtime.c:352-375` | each step that carries on brings the system strictly nearer to rest |
| `FuturesSafety.Settles` | `runtime/src/runtime.c:352-375` | without new calls the system comes to rest with every wait answered and every issued future decided |
| `FuturesSafety.EveryCallEnds` | `runtime/src/runtime.c:2767-2875` | from every reachable state what is under way can be carried to its end |
| `PoolQueue.GeasFuture.constructor` | `runtime/src/runtime.c:251-270` | a fresh future has one hold and no outcome |
| `PoolQueue.GeasFuture.Finish` | `runtime/src/runtime.c:288-298` | publishes once; a second completion changes nothing |
| `PoolQueue.GeasFuture.Forfeit` | `runtime/src/runtime.c:306-319` | an undelivered future becomes ErrState and loses its heap pointers; a delivered one is left alone |
| `PoolQueue.GeasFuture.Deliver` | `runtime/src/runtime.c:2767-2789` | the first wait takes the outcome, or the write back's refusal; later ones are ErrState |
| `PoolQueue.GeasFuture.Unref` | `runtime/src/runtime.c:279-284` | one hold less, and the last one frees |
| `PoolQueue.GeasFuture.Free` | `runtime/src/runtime.c:243-247` | freed whatever its count |
| `PoolQueue.Pool.Enqueue` | `runtime/src/runtime.c:339-347` | the linked queue gains the future at its tail |
| `PoolQueue.Pool.Dequeue` | `runtime/src/runtime.c:361-371` | the linked queue loses its head, first in first out, or answers none when empty |
| `PoolQueue.FutureList.Link` | `runtime/src/runtime.c:264-268` | the instance's list gains the future at its head |
| `PoolQueue.FutureList.Unlink` | `runtime/src/runtime.c:325-333` | the list loses exactly that future wherever it is, and nothing if it is not there |
| `PoolQueue.FutureList.ForfeitAll` | `runtime/src/runtime.c:2132-2134` | break's walk forfeits every future on the list |
| `PoolQueue.FutureList.FreeAll` | `runtime/src/runtime.c:568-575` | shutdown's walk frees every future on the list once |
| `PoolQueue.WithoutAt` | `runtime/src/runtime.c:325-333` | taking a node out of a list of distinct nodes joins what was before it to what was after |
| `Bridge.ExclusiveStep` | `interop/grpc/bridge_server.py:216-343` | every step of every server keeps a token's one holder: live session, session popped and not yet parked, claim, or row |
| `Bridge.ParkMoves` | `interop/grpc/bridge_server.py:229-243` | a park moves the token from the ending session to its row, or drops it when the park is refused |
| `Bridge.DeleteMoves` | `interop/grpc/bridge_server.py:312-330` | the DELETE moves the token from its row to the one claim |
| `BridgeSafety.OneHolder` | `interop/grpc/bridge_server.py:120-158` | over any replicas, interleavings and crashes the live sessions, unparked endings, claims and rows of one token total at most one |
| `BridgeSafety.EndsOnce` | `interop/grpc/bridge_server.py:216-247` | each session is tried for parking at most once and broken at most once, and one that was broken was either tried or drained by a shutdown |
| `BridgeSafety.EndsExactlyOnce` | `interop/grpc/bridge_server.py:216-247` | after any steps of any servers in which its own does not crash, a session is in the table or on its way out, or it was broken exactly once and tried for parking exactly once unless a shutdown drained it |
| `BridgeSafety.EndingRun` | `interop/grpc/bridge_server.py:216-247` | and it can always be ended: from wherever it is, at most three steps of its own server leave it broken once and tried once or drained |
| `BridgeSafety.WorkWorks` | `interop/grpc/bridge_server.py:206-215` | a pledge call lands on the session it finds, live or on its way out, unless it is broken, and moves its state |
| `BridgeSafety.BreakCallBreaks` | `interop/grpc/bridge_server.py:379-399` | a Break call breaks the session it finds and keeps its token |
| `BridgeSafety.BrokenNeverParks` | `interop/grpc/bridge_server.py:229-243` | a session broken by a call never writes a row, over any steps of any servers in which its own does not crash |
| `BridgeSafety.WholeParks` | `interop/grpc/bridge_server.py:229-243` | one that is not broken does if the store lets it, and the row holds its state |
| `BridgeSafety.PoppedOnce` | `interop/grpc/bridge_server.py:146-148` | after an id is popped no later caller on that server finds it |
| `BridgeSafety.HistoryKeeps` | `interop/grpc/bridge_server.py:216-247` | every step keeps each session's history right for where it is |
| `BridgeSafety.RowsKeep` | `interop/grpc/bridge_server.py:301-343` | every row, and every copy read from one, is what its token's parks say |
| `BridgeSafety.ClaimCurrentIff` | `interop/grpc/bridge_server.py:301-330` | a claim carries the last parked state exactly when its token was not parked again between the read and the DELETE |
| `BridgeSafety.SoloResumesLast` | `interop/grpc/bridge_server.py:312-330` | on a single server a resume always stands up the last state parked, and the row it read is there to delete |
| `BridgeSafety.StaleClaim` | `interop/grpc/bridge_server.py:312-330` | with two servers the DELETE can take a newer row for an older copy: a concrete interleaving |
| `InstanceTables.InstanceTable.Insert` | `interop/grpc/bridge_server.py:132-140` | ids are issued in order and never reused |
| `InstanceTables.InstanceTable.Remove` | `interop/grpc/bridge_server.py:146-148` | the entry, to its first caller only, as the protocol's pop |
| `InstanceTables.InstanceTable.Drain` | `interop/grpc/bridge_server.py:154-158` | every entry exactly once, and an empty table |
| `Inames.StrCmpFlips` | `runtime/src/runtime.c:381-396` | the string order is zero only on equal names and flips with its arguments |
| `Inames.LessTrans` | `runtime/src/runtime.c:381-396` | the string order is transitive |
| `Inames.LessIs` | `runtime/src/runtime.c:381-396` | the order is the lexicographic one on bytes |
| `Inames.InsertedSorted` | `runtime/src/runtime.c:400-415` | inserting at the split point keeps the table strictly sorted |
| `Inames.WithoutInserted` | `runtime/src/runtime.c:434-445` | removing a contract's entries undoes inserting one of them |
| `Inames.WithoutSameIff` | `runtime/src/runtime.c:434-445` | a removal changes nothing exactly when the contract has no entry |
| `Inames.WithoutSorted` | `runtime/src/runtime.c:434-445` | a removal keeps the table sorted |
| `Inames.RollbackRestoresIff` | `runtime/src/runtime.c:447-486` | rolling a registration back restores the table exactly when no entry of that contract was there before: what the name uniqueness check is for |
| `Inames.RegistersAll` | `runtime/src/runtime.c:451-486` | a registration adds the contract's entry and one for each pledge with a mangled name, each with the contract's hash and version, and nothing else |
| `InameTables.Registry.Compare` | `runtime/src/runtime.c:387` | byte by byte comparison is the order |
| `InameTables.Registry.Find` | `runtime/src/runtime.c:381-396` | binary search finds a name exactly when it is there, and otherwise its insertion point |
| `InameTables.Registry.Grow` | `runtime/src/runtime.c:403-409` | the array doubles from 16 and keeps its entries |
| `InameTables.Registry.ShiftIn` | `runtime/src/runtime.c:410-413` | the tail moves up one slot and the entry takes the gap |
| `InameTables.Registry.Insert` | `runtime/src/runtime.c:400-415` | a taken name is ErrName, failed growth ErrOom, both changing nothing; otherwise the sorted insertion |
| `InameTables.Registry.RemoveContract` | `runtime/src/runtime.c:434-445` | compaction in place leaves exactly the other contracts' entries, in order |
| `InameTables.Registry.RegisterNames` | `runtime/src/runtime.c:451-486` | all of a contract's entries or none; with memory to grow it succeeds exactly when every name is new |
| `InameTables.Registry.Register` | `runtime/src/runtime.c:633-661` | a registration that fails for any reason leaves names and descriptors exactly as before; one that succeeds adds all of it, keeps the table sorted and every entry owned by one contract |
| `GroupedSql.DecUndec` | `runtime/src/runtime.c:1120-1122` | a placeholder's decimal spelling reads back to its number |
| `GroupedSql.LexSplits` | `runtime/src/runtime.c:1108-1127` | texts that meet at a delimiter have the tokens of both, in order |
| `GroupedSql.LexWhere` | `runtime/src/runtime.c:1108-1127` | the printed WHERE text has exactly the tokens of its groups |
| `GroupedSql.OrGroups` | `runtime/src/runtime.c:1108-1127` | those tokens parse, under AND binding tighter than OR, to the groups' condition |
| `GroupedSql.WhereReadsBack` | `runtime/src/runtime.c:1108-1127` | the text reads back as one condition that holds exactly when every term of some group holds, placeholder k standing for term k |
| `GroupedSql.OpsMean` | `runtime/src/runtime.c:1096-1127` | each comparison's spelling means that comparison |
| `GroupedSql.WhereSelects` | `runtime/src/runtime.c:1108-1127` | a row is selected exactly when in some group every term's column compares, as the term asked, with the value bound to its placeholder |
| `SqlPrinter.WhereSpan` | `runtime/src/runtime.c:1096-1106` | the computed share of the WHERE clause |
| `SqlPrinter.WhereFits` | `runtime/src/runtime.c:1096-1127` | the printed WHERE never exceeds the computed share |
| `SqlPrinter.Snprintf` | `runtime/src/runtime.c:1108-1127` | a print that fits is whole and terminated; one that does not is cut and terminated |
| `SqlPrinter.EmitWhere` | `runtime/src/runtime.c:1108-1127` | into a buffer of the computed size the WHERE text is printed whole |
| `SqlPrinter.SelectAny` | `runtime/src/runtime.c:1130-1158` | the computed buffer strictly exceeds the query, which is printed whole with the limit's placeholder after every term's |
| `SqlPrinter.DirMeans` | `runtime/src/runtime.c:1130-1158` | rows come in ascending order unless descending was asked for |
| `SqlPrinter.OrderReads` | `runtime/src/runtime.c:1130-1158` | the order's text reads as an order by the column and in the direction asked for |
| `SqlPrinter.LimitReads` | `runtime/src/runtime.c:1130-1158` | the limit's text reads as a limit of the parameter after every term's |
| `SqlPrinter.CountAny` | `runtime/src/runtime.c:1161-1174` | the same of the count query |
| `SqlPrinter.SumAny` | `runtime/src/runtime.c:1177-1193` | the same of the sum query |
| `SqlPrinter.ZeroMeans` | `runtime/src/runtime.c:1177-1193` | the sum over no rows is a real literal for a column of floats and an integer one for any other |
| `SqlPrinter.ExtremeAny` | `runtime/src/runtime.c:1196-1216` | the same of the extreme query |
| `SqlPrinter.AvgAny` | `runtime/src/runtime.c:1219-1236` | the same of the average query |
| `SqlPrinter.BindFrame` | `runtime/src/runtime.c:1525-1526` | the bound frame is the terms' values in order, then the limit |
| `SqlPrinter.Select` | `runtime/src/runtime.c:1485-1541` | accepts exactly well formed groups, orders and limits, and then the text and the frame that belong together |
| `Fnv.XorIs` | `compiler/hash.dusk:32` | each bit of the result is one exactly when the two bits differ |
| `Fnv.Published` | `compiler/hash.dusk:26-37` | the published hashes of the empty string and of "a" |
| `Fnv.SignedStep` | `compiler/hash.dusk:26-37` | one byte's xor and wrapping multiply in int64 have the bit pattern of the unsigned step |
| `Fnv.Fnv1a64` | `compiler/hash.dusk:26-37` | the int64 loop computes unsigned FNV-1a 64 |
| `Fnv.StepBijects` | `compiler/hash.dusk:26-37` | each byte's step is a bijection on the hash states |
| `Fnv.OneByteApart` | `compiler/hash.dusk:26-37` | spellings that differ in exactly one byte never share a hash |
| `Fnv.SignedDigit` | `compiler/hash.dusk:41-57` | shifting and masking the signed state picks the unsigned one's digit |
| `Fnv.HashHex16` | `compiler/hash.dusk:41-57` | sixteen lowercase hex digits that read back to the hash |

## Left out

- Allocation failure inside decode, deep copy and map growth: a refused allocation there ends
  the call with an out of memory status; the registry's growth and the encoder's sizes are modelled.
- NULL pointers and misuse of the C calling convention: absent arguments are not values here.
- SQLite itself: conversions between storage classes, its handling of NaN, blobs past 2 GiB,
  statement caching and automatic rollback on some errors; a begin, write or commit is granted
  or refused by the environment, and a rollback always ends the transaction.
- A park blob whose total size would wrap a 64 bit size: such a buffer is taken to be refused.
- Bodies: what a body computes is an input. In the future protocol a body makes nested calls
  only on instances its own thread signed, does not break an instance it is inside of and does
  not block in `geas_future_wait`; a cycle between bodies handed each other's instances, which
  `runtime/src/runtime.c:57-62` documents as possible, is outside the model.
- Shutdown is called with no fulfilment half way through and, by the time of its last walk, with
  no host call in flight, as the runtime asks of its host.
- Host callbacks on write back, and the host memory a ref points to: a write back is a type check
  and then one write per slot.
- Host allocations on an instance already torn down, which would make its heap look present to
  the park guard.
- Nested calls on other instances inside an episode: each instance has its own connection and its
  own episodes, and the model follows one.
- The capacity limits of the instance, module and binding tables, and `dlopen`.
- A bridge server without a park store: it gives every session the same empty token and parks
  none, so one holder per token and one park per session are said of servers that have a store.
- EpisodeEnds.CommitsBrokenExactly: with several transactional subcontracts only one direction is
  proved, since an episode left open by one keeps the others from beginning.
- Store error paths of the bridge outside the runtime's own statuses, and the transport: a stream
  ends, a process dies, or neither.
- Case insensitive table names and a `PRAGMA` text longer than its buffer in reconcile.
- The remaining query wrappers, from `geas_store_find` to `geas_store_agg_any`: argument checks
  around one query call.
- Column names that are SQL keywords other than AND and OR: the grammar here reads them as names.
- The head of a SQL text, its column list and aggregates, is printed whole and bounded but not
  parsed back; the WHERE clause, the order and the limit are.
- `geas_value_render`, `geas_iname_dump`, the compiler beyond `compiler/hash.dusk`, the Python
  binding and the demos: easy members or the same calls again.
- Floating point arithmetic: a Float is its 64 bits.
- Wall clock time, signals and the crash harnesses.
