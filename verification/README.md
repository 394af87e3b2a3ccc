# waybeam-link core, modelled and proved in Dafny

A model of the dependency-free `core/` layer of waybeam-link: the parts of a one-way video link that are
deterministic state machines or arithmetic kernels. Time is an argument everywhere, as in the original.

- **Erasure code** (`Gf256`, `GfTables`, `Cauchy`, `GaussJordan`, `Rlc`): GF(256) tables, systematic Cauchy
  rows, Gauss-Jordan decoding in place. Any k distinct symbols determine and give back the block.
- **Frames** (`FrameBlock`, `FrameFramer`, `ReassemblerSpec`, `ReassemblerRuns`, `FrameReassembler`,
  `FrameDelivery`, `ManyFrames`): from a frame to its symbols, through loss, reordering and duplication, to the
  same frame, once, for any number of frames at a time; `BlockEndings` says from the packets alone when a block is
  over, `BlockBooks` what becomes of every block. `SalvageOrder` and `SalvageExact`: exactly which salvage hooks
  keep frames in order and credited.
- **HEVC concealment** (`Bits`, `NalUnit`, `Cabac`, `CodingTree`, `CodingUnits`, `SlicePlan`, `SlicePayload`,
  `SliceSyntax`, `SliceParser`, `SliceWriter`, `SliceHeader`, `SliceDecoder`, `ConcealSlice`,
  `ConcealCases`): bit strings, emulation prevention, the arithmetic coder, the all-skip coding tree, WPP
  substreams, slice headers and the complete unit, each against a decoder's reading of it, up to a decoder that
  has only the unit's bytes. `CabacLaws`: what the coder's tables mean, and a string bit by bit; `ConcealGolden`:
  the unit the repository pins, byte by byte.
- **Receive engine** (`RxSpec`, `RxRuns`, `RxEngine`): cursor, held packets, gaps, deadlines. `RxDeadlines` and
  `RxAccounts`: how long it waits for what is missing, told from the packets it took, and when it starts over.
- **Two-party protocols** (`Csa`, `CsaProtocol`, `CsaInstant`, `CsaEnding`, `CsaTogether`, `CsaMove`,
  `CsaProgress`, `VehicleCmd`, `CommandProtocol`, `CommandEnding`, `CommandAnswered`, `CommandPacing`): both ends
  composed with a channel that loses, duplicates, reorders and delays, under an ideal MAC; when the craft retunes,
  when campaigns end, when both ends arrive, and when a command is answered.
- **Rate selector** (`SelectorSpec`, `SelectorRuns`, `SelectorConflict`, `SelectorBitrate`, `SelectorMoves`,
  `Selector`), **probe window** (`McsProbe`), **cache repair** (`CacheStore`, `CacheController`, `CachePair`) and
  **wire codec** (`Wire`, `WireLayout`).

Objects that the source updates in place are classes whose methods are proved against specification
functions; the results about runs are lemmas about those functions. The fields of `RxEngine`, the selector, the
channel-switch ends and the cache ends are grouped in one record field each. Times are natural numbers;
where the source's unsigned 64-bit subtraction may wrap, it is written out (`Bytes.Since`).

What the proofs showed about the code itself:

- A salvage hook that emits a frame and then reports no repair, or emits more than once, leaves frames out of the
  delivery order. `SalvageExact.DisownedFramesReorder` is a run of two packets and two ticks in which block 5 is
  taken before block 3; `SalvageExact.OrderedExactly` and `SalvageExact.CreditedExactly` say for which hooks no run
  does such a thing. Order and counters hold of every credited frame whatever the hook does.
- The verify window of a channel switch can last longer than twice the verify time: an armed frame noted when the
  window should have closed, with no tick in between, moves the deadline (`CsaEnding.LateLandingOutlasts`). The
  bound holds exactly when the landing is noted within one verify time of the opening (`CsaEnding.TwiceExactly`).
- A retry cap or copy count of 0 in the command issuer counts as 256: `CommandEnding.ZeroCopiesSends256`,
  `CommandEnding.ZeroRetriesSends256`.
- The announce encoder accepts reserved flags the decoder refuses, the DATA encoder payloads above the
  decoder's 4096, and the selector-state encoder values whose flag is clear: `Wire.DoesNotSurvive`,
  `Wire.StrayFieldLost`.
- Calibration probe padding is dropped by the decoder: `Wire.PaddingForgotten`, `Wire.ProbeReencodesZeroed`.
- A concealment slice made from a B-slice donor under a PPS with weighted P prediction is accepted by the
  writer, and its own parser refuses it: `ConcealCases.WeightedUnitRefused`.
- The writer copies a collocated index that a B-slice donor gave into its list 1 as one into list 0, which may be
  shorter: `ConcealSlice.CollocatedWithin`, `ConcealCases.CollocatedOutside`.
- The writer's 32-bit sum of address and count can wrap past its check: `ConcealSlice.PastPicture`,
  `ConcealCases.WrappedUnit`.
- A switch copy looked at after its own window is taken as just aired, so the craft switches late by the time from
  airing to hearing: `CsaInstant.AcceptedInstants`, and a run five seconds late, `CsaInstant.LateLookMissesSwitch`.
- A re-pin clears no strike, and with a rung latched at or below the new bottom every lockout is ignored: climbs enter
  latched rungs and loss demotes without bound (`SelectorConflict.RepinUnbounded`). The bound on loss demotions holds
  exactly without such a conflict (`SelectorConflict.BoundedExactly`).
- Spacing command campaigns by the minimum plus the copy interval does not always clear the craft's limit for a fresh
  campaign's first copy, as PROTOCOL.md:4527-4529 says: `CommandPacing.FreshCopyIgnored`. It does exactly when the
  earlier command was taken within a copy interval of its start (`CommandPacing.FirstCopyClears`).
- Neither side of a channel switch ever goes back to the old channel, although README.md:135-136, README.md:282
  and comments in `core/src/csa.cpp` speak of reverting; the model follows the code.

## Model

| member | source | states |
|---|---|---|
| `Gf256.MulAssoc` | core/src/gf256.cpp:22-53 | Multiplication modulo 0x11D is associative; with the next rows, the field laws the tables rest on |
| `Gf256.MulComm` | core/src/gf256.cpp:22-53 | Multiplication is commutative |
| `Gf256.MulAddRight` | core/src/gf256.cpp:22-53 | Multiplication distributes over exclusive or |
| `Gf256.MulCancel` | core/src/gf256.cpp:22-53 | There are no zero divisors: a nonzero factor cancels |
| `Gf256.PowerPrimitive` | core/src/gf256.cpp:22-37 | The generator 2 has order exactly 255: no smaller positive power is 1 |
| `Gf256.PowerOnto` | core/src/gf256.cpp:22-37 | Every nonzero element is a power of the generator, so the logarithm table is filled completely |
| `GfTables.TableProduct` | core/src/gf256.cpp:63-69 | The exponent at the sum of two logarithms is the field product |
| `GfTables.Tables.FillPowers` | core/src/gf256.cpp:22-42 | The doubling loop fills exponents (two periods) and logarithms with exactly the powers and discrete logarithms |
| `GfTables.Tables.Product` | core/src/gf256.cpp:63-69 | The table product equals shift-and-reduce multiplication for all operands, zeros included |
| `GfTables.Tables.Reciprocal` | core/src/gf256.cpp:115-121 | The table reciprocal times its argument is 1 |
| `GfTables.NibbleSplit` | core/src/gf256.cpp:71-113 | A product is the sum of the products with the two nibbles, the identity behind the vector form |
| `GfTables.Tables.NibbleProduct` | core/src/gf256.cpp:71-113 | One lookup per nibble gives the same product as the scalar loop |
| `GfTables.Tables.MulXor` | core/src/gf256.cpp:71-113 | Every output byte becomes itself plus c times the input byte, on the shortcuts for 0 and 1 too; nothing else changes |
| `Cauchy.CauchyKernel` | core/src/rlc.cpp:13-21 | As many Cauchy rows 1/(x^y) as unknown columns leave only the zero vector |
| `Rlc.Mds` | core/src/rlc.cpp:13-21 | MDS: the coefficient rows of any k distinct symbols with k + index below 256 form a non-singular matrix |
| `Rlc.SymbolsDetermineBlock` | core/src/rlc.cpp:13-36 | Two blocks that agree on any k distinct symbols are equal |
| `Rlc.RepairRow` | core/src/rlc.cpp:13-21 | The row written is 1 / ((k + j) xor i) for every source i |
| `Rlc.RowInverts` | core/src/rlc.cpp:13-21 | Coefficient i of repair j times (k + j) xor i is 1 |
| `Rlc.EncodeRepair` | core/src/rlc.cpp:23-36 | The payload written is the dot product of the repair row with the source columns |
| `GaussJordan.PivotExists` | core/src/rlc.cpp:67-104 | A non-singular system reduced up to a column has a pivot for it: the singular return is dead |
| `GaussJordan.SwapKeeps` | core/src/rlc.cpp:67-140 | Swapping rows keeps solutions and kernel |
| `GaussJordan.ScaleKeeps` | core/src/rlc.cpp:67-140 | Scaling a row by a nonzero factor keeps solutions and kernel |
| `GaussJordan.AddKeeps` | core/src/rlc.cpp:67-140 | Adding a multiple of the pivot row keeps solutions and kernel |
| `GaussJordan.ReducedSolution` | core/src/rlc.cpp:67-140 | Once the left side is the identity the right side is the one solution |
| `Rlc.ClearColumn` | core/src/rlc.cpp:104-128 | Clearing a column in place leaves an equivalent system with that column a unit column |
| `Rlc.Eliminate` | core/src/rlc.cpp:67-140 | The whole elimination, in place: from a non-singular system it ends in the identity with the same solutions, and its failure return is unreachable |
| `Rlc.RlcDecoder.AddSource` | core/src/rlc.cpp:44-54 | A source is collected exactly when in range, new and below k symbols; otherwise nothing changes |
| `Rlc.RlcDecoder.AddRepair` | core/src/rlc.cpp:56-65 | A repair, its point below 256 as callers must see to, is collected exactly when new and fewer than k symbols are held |
| `Rlc.RlcDecoder.Decode` | core/src/rlc.cpp:67-140 | It succeeds if and only if k symbols are held, and then the output is the one block that explains them |
| `FrameFramer.PlannedFits` | core/src/frame_framer.cpp:39-137 | Whatever rate, override or guard asks for, k plus repairs stays within 256 or there are none; the jumbo guard only adds repairs |
| `FrameFramer.LeastRepairs` | core/src/frame_framer.cpp:46-52 | The repair count is the least r with 1000 r at least k times the rate |
| `FrameFramer.RepairsFor` | core/src/frame_framer.cpp:25-66 | Without override and guard a frame gets the least count that makes the rate its flags ask for and the floor; none without the code or a rate, or where it would not fit the field |
| `FrameFramer.BlockInOrder` | core/src/frame_framer.cpp:140-227 | A block's packets are numbered in a row from its base, sources before repairs, and exactly the last is marked end of block |
| `FrameFramer.FrameFramer.SymbolSize` | core/src/frame_framer.cpp:15-23 | With both headers a symbol fills the packet budget exactly; it is a single byte where the budget has no room |
| `FrameFramer.FrameFramer.OnFrame` | core/src/frame_framer.cpp:68-227 | Accepts exactly frames of at least 8 bytes and at most 65535 symbols; emits the k chunks and the planned repairs with consecutive wrapped sequence numbers, the last marked end of block, but for those the DATA buffer cannot hold, whose numbers are skipped; the override is consumed in every case |
| `FrameFramer.BlockCarried` | core/src/frame_framer.cpp:147-226 | With symbols of at most 4096 - 11 bytes none is skipped |
| `FrameBlock.TrimRecovers` | core/src/frame_framer.cpp:185-192 | The padded sources in a row, cut to the frame length, are the frame |
| `FrameBlock.SourcePayloadFields` | core/src/frame_framer.cpp:147-157 | The source subheader fields read back as written |
| `FrameBlock.RepairPayloadFields` | core/src/frame_framer.cpp:194-202 | The repair subheader fields read back as written |
| `FrameReassembler.DecodeBlock` | core/src/frame_reassembler.cpp:185-245 | On k or more symbols that are not all sources decoding never fails and gives the one frame the block explains |
| `FrameReassembler.FrameReassembler.Push` | core/src/frame_reassembler.cpp:22-160 | One symbol moves the reassembler exactly as the specification says: refusals, geometry checks, supersession, completion; the result says whether a frame was attempted |
| `FrameReassembler.FrameReassembler.Tick` | core/src/frame_reassembler.cpp:272-293 | Exactly the blocks past their deadline are retired, in ascending order |
| `FrameReassembler.FrameReassembler.TryComplete` | core/src/frame_reassembler.cpp:162-245 | A block with all sources or k symbols is emitted and closed, any other is left |
| `FrameReassembler.FrameReassembler.TrySalvage` | core/src/frame_reassembler.cpp:295-329 | The hook may emit several frames; only the answer to the last decides: rejected, credited if the hook reports the repair, else unavailable; never behind a credited block |
| `FrameReassembler.FrameReassembler.Supersede` | core/src/frame_reassembler.cpp:247-270 | Exactly the blocks more than the allowed distance behind the newest are given up |
| `ReassemblerRuns.AcceptedInOrder` | core/src/frame_reassembler.cpp:137-160 | Over every run, with any egress and any hook: credited frames strictly increase in serial order within a half-range window, none twice, and delivered = fast + FEC + salvaged with each counter exact |
| `SalvageExact.TruthfulRuns` | core/src/frame_reassembler.cpp:295-329 | With any hook that, on every view some row of symbols can show it and at every attempt, emits at most one frame and then reports the repair: every frame the egress takes is credited, and none goes back |
| `SalvageExact.OrderlyRuns` | core/src/frame_reassembler.cpp:272-329 | With any hook that emits for no showable view of an older block while one of a newer block may be emitted and disowned, no frame of an older block is taken after one of a newer block |
| `SalvageExact.CreditedExactly` | core/src/frame_reassembler.cpp:295-329 | For a hook that does not look at the attempt number: every frame the egress takes is credited, in every run and whatever the egress takes, if and only if the hook is truthful on every view some row of symbols can show it |
| `SalvageExact.OrderedExactly` | core/src/frame_reassembler.cpp:272-329 | For such a hook and a positive deadline: no frame of an older block is taken after one of a newer block, in every run and whatever the egress takes, if and only if no showable view of an older block makes the hook emit while one of a newer block makes it emit and disown |
| `SalvageExact.DisownedFramesReorder` | core/src/frame_reassembler.cpp:272-329 | Two packets and two ticks after which an egress that takes everything has taken block 5 before block 3, for every hook that emits once and denies it |
| `FrameDelivery.HeldCompletes` | core/src/frame_reassembler.cpp:162-245 | A block of genuine symbols completes exactly when k are held, and then with the original frame |
| `FrameDelivery.OnlySentFrames` | core/src/frame_reassembler.cpp:22-245 | For any number of frames, any order, loss, duplication and interleaving, any egress and hook: every frame emitted outside salvage is the frame sent under its id, and k of its distinct packets had arrived |
| `FrameDelivery.FrameDeliveredOnce` | core/src/frame_reassembler.cpp:22-245 | One frame, packets in any order with duplicates: below k distinct ones nothing is emitted; from the k-th on the original bytes have been handed out exactly once |
| `ManyFrames.EachFrameOnce` | core/src/frame_reassembler.cpp:22-293 | Any number of frames at once, any loss, order, duplication and interleaving, any egress and hook: a block is handed to the egress outside salvage if and only if its k-th distinct packet arrives while neither it nor a block after it has been handed on or given up; and then exactly once, with the bytes sent |
| `BlockEndings.ClosedExactly` | core/src/frame_reassembler.cpp:22-293 | Over every honest run, told from the arrivals alone: the receiver refuses a block's packets if and only if some arrival ended it or a later block, with the k-th distinct packet, at a tick at or past the first packet plus the deadline, or with a packet newer than all before and more than the allowed distance ahead |
| `BlockEndings.HandedOutExactly` | core/src/frame_reassembler.cpp:22-293 | So a block is handed out, once and as sent, if and only if its k-th distinct packet comes before any arrival has ended it or a later block in one of those ways |
| `BlockEndings.NextBlockWaits` | core/src/frame_reassembler.cpp:247-270 | A packet of the next block in between costs a block nothing: of two blocks one apart the first is still handed out |
| `BlockBooks.BlocksAccounted` | core/src/frame_reassembler.cpp:22-338 | Conservation over every run, whatever is pushed: each block opened is open still or counted exactly once, as delivered, rejected, superseded or past its deadline, but for at most what was counted malformed |
| `BlockBooks.CausesApart` | core/src/frame_reassembler.cpp:247-293 | Only ticks count blocks past their deadline, only packets count blocks superseded |
| `FrameDelivery.LargeSymbolsDeliverable` | core/src/frame_reassembler.cpp:38-136 | Symbols of at least 21 bytes meet every bound the receiver checks, so every frame the framer accepts within the size limits is deliverable |
| `Bits.UeRoundTrip` | core/src/hevc_conceal.cpp:36-48 | Every value below 2^32 - 1 written as ue(v) is read back, ending where the code ends |
| `Bits.SeRoundTrip` | core/src/hevc_conceal.cpp:50-54 | Every value of magnitude below 2^30 written as se(v) is read back |
| `Bits.URoundTrip` | core/src/hevc_conceal.cpp:23-34 | A fixed-width field is read back |
| `Bits.BitReader.Ue` | core/src/hevc_conceal.cpp:36-48 | Reads the code at the position; overruns and more than 31 zeros set the sticky failure |
| `Bits.BitWriter.Ue` | core/src/hevc_conceal.cpp:197-205 | Appends exactly the Exp-Golomb code |
| `Bits.BitWriter.CopyBits` | core/src/hevc_conceal.cpp:210-215 | Appends exactly the bits of the given span |
| `Bits.UnpackPacked` | core/src/hevc_conceal.cpp:414-423 | Unpacking inverts packing |
| `NalUnit.Unescape` | core/src/hevc_conceal.cpp:64-77 | Drops every 3 after two zeros, up to the cap |
| `NalUnit.EscapeAppend` | core/src/hevc_conceal.cpp:395-412 | Appends start code, header and the escaped RBSP |
| `NalUnit.NalRoundTrip` | core/src/hevc_conceal.cpp:64-77 | With a nonzero second header byte unescaping inverts escaping up to the cap, and header and payload hold no 00 00 followed by 00, 01 or 02 |
| `NalUnit.EscapeSplits` | core/src/hevc_conceal.cpp:1050-1073 | Escaping a concatenation splits where the first part ends in a nonzero byte |
| `Cabac.FirstBitIsZero` | core/src/hevc_conceal.cpp:359-369 | The bit the encoder suppresses is always 0 |
| `Cabac.RenormReady` | core/src/hevc_conceal.cpp:371-387 | After renormalisation the range is in [256, 510] and low + range at most 1024 |
| `Cabac.WithBitValue` | core/src/hevc_conceal.cpp:359-369 | Putting a bit resolves the outstanding ones: the number spelled grows by exactly the bit |
| `Cabac.RoundTrip` | core/src/hevc_conceal.cpp:314-392 | For every context set and bin sequence ending in the terminating 1, the arithmetic decoder of section 9.3.4.3 of ITU-T H.265 reads the same bins from the emitted bits and consumes them up to the final 1 |
| `Cabac.CabacEnc.EncodeBin` | core/src/hevc_conceal.cpp:326-340 | Registers, emitted bits and context after one bin are those of the interval specification |
| `Cabac.CabacEnc.EncodeTerminate` | core/src/hevc_conceal.cpp:343-356 | A terminating bin continues, or flushes with the stop bit as the last bit |
| `CabacLaws.SharesRise` | core/src/hevc_conceal.cpp:237-259 | For a fixed state the less probable bin's share does not shrink as the range grows over [256, 510] |
| `CabacLaws.SharesProportional` | core/src/hevc_conceal.cpp:237-259 | It goes with the range: in the proportion of the quarters' middles, within two units, for states 3 to 62 |
| `CabacLaws.StateMoves` | core/src/hevc_conceal.cpp:261-338 | A more probable bin raises the state by one up to 62, a less probable one never raises it, and the more probable value turns over exactly at state 0 |
| `CabacLaws.ShareDecays` | core/src/hevc_conceal.cpp:237-265 | After a more probable bin the less probable one's share is 0.949 of what it was, within one unit, for states 3 to 61 |
| `CabacLaws.ShareRecovers` | core/src/hevc_conceal.cpp:237-271 | After a less probable bin its share has moved a twentieth of the way to the whole range, within seven units, for states 3 to 62 |
| `CabacLaws.WrittenRun` | core/src/hevc_conceal.cpp:314-392 | Nine literal bins through all four range quarters, less and more probable, with a terminating 0, and the fifteen bits they and the flush are written as |
| `CodingTree.TreeDecodes` | core/src/hevc_conceal.cpp:895-963 | From any square of the current CTU on, a decoder that derives split and skip contexts from the units it has decoded meets the writer's context at every bin and adds exactly the square's blocks inside the picture, all as skips |
| `CodingTree.NeighbourAgrees` | core/src/hevc_conceal.cpp:895-909 | Address arithmetic and depth grid give a neighbour the contribution that decoded units give it |
| `CodingUnits.Emitter.MarkDepth` | core/src/hevc_conceal.cpp:911-921 | The square's depths are set, all others kept |
| `CodingUnits.Emitter.EmitCu` | core/src/hevc_conceal.cpp:924-963 | The recursion codes exactly the specified bins, with the depth grid the specification has |
| `SlicePlan.CtuDecodes` | core/src/hevc_conceal.cpp:1012-1022 | One CTU adds exactly its blocks to those of the CTUs before it |
| `SlicePlan.SliceDecodes` | core/src/hevc_conceal.cpp:1012-1047 | The substreams of a slice decode to exactly count CTUs, every block of them in the picture in a skipped unit |
| `SlicePayload.RowSync` | core/src/hevc_conceal.cpp:1027-1046 | The one snapshot kept holds what section 9.3.1 of ITU-T H.265 synchronises from: the contexts after the CTU above right, when picture and slice have it, else fresh ones |
| `SlicePayload.BuildPayload` | core/src/hevc_conceal.cpp:999-1048 | The CTU loop writes exactly the planned substreams, each flushed and byte-aligned, and records where each starts |
| `SliceParser.ParseSliceHeader` | core/src/hevc_conceal.cpp:595-776 | The sticky-fail parser returns what the syntax says of the unit and refuses exactly what the syntax, its overruns and its guards refuse |
| `SliceParser.ParseShortTermSet` | core/src/hevc_conceal.cpp:81-132 | A reference picture set, predicted or explicit, with its 16-bit counts and 32-bit sum |
| `SliceSyntax.MovedReferences` | core/src/hevc_conceal.cpp:641-709 | The reference block parses to the same count wherever its own bits stand |
| `SliceSyntax.KeptHeader` | core/src/hevc_conceal.cpp:595-776 | A header that parses from a prefix parses the same from any longer string |
| `SliceHeader.WriteConcealHeader` | core/src/hevc_conceal.cpp:784-881 | The writer emits exactly the specified header bits, aligned |
| `SliceHeader.TailReads` | core/src/hevc_conceal.cpp:843-881 | A decoder reads the entry points back from what follows the QP delta and ends where the writer did |
| `SliceWriter.ParsedDonates` | core/src/hevc_conceal.cpp:595-776 | Every parsed slice that is not IDR is a usable donor |
| `SliceWriter.SynthesizedHeader` | core/src/hevc_conceal.cpp:784-881 | Parsing the synthesized header succeeds if and only if the PPS has no weighted prediction, its default list 1 has at most 16 entries and the parsed part fits 256 unescaped bytes; then address, POC, used references, TMVP flag, list 0 length, collocated index and QP delta are the wanted ones and the reference bits are the donor's |
| `ConcealSlice.EntryPoints` | core/src/hevc_conceal.cpp:1054-1073 | The entry points are the escaped lengths of all substreams but the last |
| `ConcealSlice.MakeConcealSlice` | core/src/hevc_conceal.cpp:967-1087 | For CTUs that end within 32 bits, and for one CTU that lies below the picture in 32 bits: refuses exactly the listed shapes and leaves the output alone; otherwise appends start code, header and the escaped header and substreams |
| `ConcealSlice.PastPicture` | core/src/hevc_conceal.cpp:987-988 | CTUs past the picture are refused exactly when the 32-bit sum of address and count does not wrap, or wraps past the picture again |
| `ConcealSlice.AppendsExactly` | core/src/hevc_conceal.cpp:971-997 | For all 32-bit addresses and counts: nothing is refused if and only if none of the other objections holds and the CTUs end in the picture, or at most the picture's size past 2^32 |
| `ConcealCases.NothingCoded` | core/src/hevc_conceal.cpp:924-930 | The slice data of one CTU below the picture is the bare flush, FE 80 |
| `ConcealCases.WrappedUnit` | core/src/hevc_conceal.cpp:967-1087 | One CTU at address 2^32 - 1 is not refused, and the twelve bytes appended for it |
| `ConcealCases.InitialContexts` | core/src/hevc_conceal.cpp:275-310 | The six initial contexts at QP 0, 26, 30 and 51 |
| `ConcealCases.WholeUnitBytes` | core/src/hevc_conceal.cpp:967-1087 | The twelve bytes of an accepted unit that codes a split and a skip bin |
| `ConcealGolden.TinyUnit` | tests/hevc_conceal_vector.h:300-303 | The repository's golden unit: the slice of three CTUs, with later contexts chosen by skipped neighbours, comes out as exactly its fourteen bytes |
| `ConcealGolden.TinyDonorParses` | core/src/hevc_conceal.cpp:595-776 | The golden unit's donor: whatever follows its first five bytes, the parser reads the header the writer is given |
| `ConcealSlice.SubstreamsFound` | core/src/hevc_conceal.cpp:1050-1086 | A decoder reads the entry points from the header; cutting the escaped unit after the header and at them and unescaping each cut alone gives each substream |
| `ConcealSlice.SegmentDecodes` | core/src/hevc_conceal.cpp:343-392 | The arithmetic decoder started on a substream's bytes, padding included, reads its bins |
| `ConcealSlice.UnitParses` | core/src/hevc_conceal.cpp:967-1087 | The parser on the complete unit of any accepted call with a parsed donor: success exactly under the conditions above, with the wanted and the donor's fields; no start code inside |
| `ConcealCases.WeightedUnitRefused` | core/src/hevc_conceal.cpp:992-997 | A donor given byte by byte, a B slice under weighted P prediction, that parses and is accepted, and whose unit the parser refuses |
| `ConcealSlice.CollocatedWithin` | core/src/hevc_conceal.cpp:758-764 | The unit's collocated index lies in its list 0 exactly when none was copied or the donor's index is below the donor's list 0 length; an index into list 1 is copied all the same |
| `ConcealCases.CollocatedOutside` | core/src/hevc_conceal.cpp:836-845 | A B donor with lists of two and three pictures and index 2 into list 1: the unit parses with index 2 into a list 0 of two |
| `SliceDecoder.TreeRead` | core/src/hevc_conceal.cpp:924-963 | On bits that carry the coded bins, a quadtree decoder with its own contexts does what it does on the bins |
| `SliceDecoder.SliceReads` | core/src/hevc_conceal.cpp:999-1048 | A decoder that has only the substreams' bits, with its own contexts, synchronisation and neighbours, reads exactly count CTUs, every block of them in the picture in a skipped unit |
| `ConcealSlice.ConcealmentDecodes` | core/src/hevc_conceal.cpp:967-1087 | End to end: for every accepted call with a parsed donor, outside the shapes whose header does not parse, a decoder that has only the unit's bytes and the parameter sets decodes exactly the CTUs asked for, all skipped |
| `RxRuns.HeldOrMissing` | core/src/rx.cpp:367-390 | In every reachable state each sequence number from cursor to newest is exactly one of held and missing, and the window stays within the clamp |
| `RxRuns.HandedOutOnce` | core/src/rx.cpp:214-318 | Since the last floor no sequence number was handed out twice, early or by cursor, and cursor deliveries strictly increase |
| `RxRuns.AdvanceAccounted` | core/src/rx.cpp:488-556 | Since the last floor the cursor's advance equals consumed packets plus the three drop counters plus FEC-satisfied skips, and accepted packets are consumed or held |
| `RxRuns.HeldWithinDeadline` | core/src/rx.cpp:488-570 | After any tick of a stream that is not best-effort, every held packet waits behind one of the newest block whose deadline is still ahead |
| `RxDeadlines.DeadlineOnFile` | core/src/rx.cpp:286-292 | In every reachable state of a stream that is not best-effort the newest block has a deadline exactly when a packet of it was taken since the last floor, and it is the time of the first of them plus the budget at the latest |
| `RxDeadlines.HeldInTime` | core/src/rx.cpp:488-570 | After any tick of such a stream packets are held only while that time has not come |
| `RxDeadlines.GapWaits` | core/src/rx.cpp:514-551 | In every run of such a stream a gap the cursor passes was satisfied, lay below a packet of a block older than the newest, or the newest block's first packet was taken its budget ago |
| `RxDeadlines.GapWaitsUnreported` | core/src/rx.cpp:419-434 | Without any frame reported complete the first of these never happens |
| `RxDeadlines.FilledHandedOut` | core/src/rx.cpp:254-317 | A packet within the clamps that fills a gap is taken, and has been handed out whenever the cursor is past it |
| `RxDeadlines.ThreePackets` | core/src/rx.cpp:286-556 | Packets 0, 2 and 1 of one block at time 10 with budget 50 go out in order; without 1 nothing moves before 60, and 2 goes out from 60 on |
| `RxAccounts.PacketsCounted` | core/src/rx.cpp:214-256 | Between floors every packet is counted once, as new, duplicate or turned away |
| `RxAccounts.StartsOver` | core/src/rx.cpp:220-252 | In every run a packet outside the clamps starts the stream over exactly when packets have been turned away, with none let in, for the resync time |
| `RxAccounts.BestEffortWaits` | core/src/rx.cpp:436-556 | In every run of a best-effort stream a gap passed was satisfied, lay below a packet of an older block, or had seen its dwell run out or every live adapter get past it |
| `RxEngine.RxEngine.OnData` | core/src/rx.cpp:174-318 | One packet moves the stream exactly as specified: clamps, duplicates, filing, gaps, early consumer |
| `RxEngine.RxEngine.NoteGaps` | core/src/rx.cpp:367-390 | Exactly what is missing between cursor and newest becomes a gap |
| `RxEngine.RxEngine.MarkFrameComplete` | core/src/rx.cpp:419-434 | Exactly the gaps of the completed block become satisfied |
| `RxEngine.RxEngine.EvaluateGaps` | core/src/rx.cpp:436-474 | Every gap is judged for supersession and loss, and the losses are counted |
| `RxEngine.RxEngine.AdvanceCursor` | core/src/rx.cpp:488-556 | The cursor consumes and gives up exactly as specified, re-flooring at the wrap |
| `RxEngine.RxEngine.Tick` | core/src/rx.cpp:558-580 | A tick judges gaps and advances the cursor |
| `CsaInstant.AcceptedInstants` | core/src/csa.cpp:116-141 | Over every run under monotone time with an honest TSF or none: of whichever original or re-stamped copy a campaign was accepted, the instant less the delay from its stamp to its airing lies in the last millisecond up to the switch time; without a TSF, or looked at after its own window, the same with its hearing for its airing, so it is late by exactly that difference |
| `CsaInstant.LateLookMissesSwitch` | core/src/csa.cpp:116-141 | A run of a start, a copy and its arrival a microsecond past its window: the switch is at 5 s and the craft plans it for 10.000001 s |
| `CsaInstant.HopsOnTime` | core/src/csa.cpp:155-184 | Over the same runs a retune goes to the accepted campaign's channel, at the first tick since the acceptance that lies at or past that instant |
| `CsaInstant.ArmedHops` | core/src/csa.cpp:155-184 | In every such run an armed craft retunes at a tick exactly when the instant has come |
| `CsaInstant.CopiesOnRecord` | core/src/csa.cpp:314-353 | Every packet on the air that is not a beacon is a copy with a stamp on record, so these runs leave no delivery out |
| `CsaInstant.WorldReached` | core/src/csa.cpp:41-538 | The record only watches: its world runs by the very steps of the protocol, so what is said of reachable worlds holds of it |
| `CsaInstant.TickStamps` | core/src/csa.cpp:398-470 | A copy sent carries the time left to its campaign's switch from its own stamp and is sent short of the cutoff |
| `CsaInstant.ReleaseStamps` | core/src/csa.cpp:325-353 | So does every copy re-stamped, of whatever campaign it was |
| `CsaProtocol.EveryCopyCounted` | core/src/csa.cpp:41-142 | Over every run the eight counters add up to the copies delivered, and the accepted ones to the campaigns accepted |
| `CsaProtocol.FollowerDecides` | core/src/csa.cpp:186-226 | Over any steps from its first tick in the new channel on, with a tick the policy's verify time later and no newer campaign, the craft ends committed, whatever window the packet asks for |
| `CsaProtocol.CommitMeansSameChannel` | core/src/csa.cpp:398-538 | Over a lossy, duplicating, delaying channel with an ideal MAC: once the issuer has committed the craft follows that very campaign and its radio is on, or next goes to, the issuer's channel |
| `CsaProtocol.NeitherGoesBack` | core/src/csa.cpp:186-226 | After that neither side leaves the channel until a new campaign starts |
| `CsaProtocol.AcceptedOnce` | core/src/csa.cpp:41-88 | Each campaign is accepted at most once and never after a newer one |
| `CsaEnding.ThreeTicksDecide` | core/src/csa.cpp:398-490 | From every start, three ticks at or past the switch leave the campaign given up or in its opened verify window, whatever was sent or heard |
| `CsaEnding.FlagDecides` | core/src/csa.cpp:440-490 | A campaign whose flag is heard before any tick past the switch is never given up |
| `CsaEnding.NoFlagNoCommit` | core/src/csa.cpp:440-490 | One whose flag is never heard never commits |
| `CsaEnding.ClosesExactly` | core/src/csa.cpp:355-387 | In every campaign a tick in the verify window ends it exactly when it comes a verify time after the landing, or after the opening (first tick there or the switch) if no landing was noted |
| `CsaEnding.QuietAfter` | core/src/csa.cpp:355-387 | Over every campaign: quiet after any tick at or past a verify time from the opening and from the landing, whatever frames come in between |
| `CsaEnding.TwiceExactly` | core/src/csa.cpp:366-372 | A tick at or past twice the verify time from the opening ends the campaign if and only if no landing was noted or a verify time has passed since; always when the landing was noted within one verify time of the opening, and at the end of the two exactly then |
| `CsaEnding.LateLandingOutlasts` | core/src/csa.cpp:366-372 | A campaign from its start with 100 ms to verify: opened at 5 s, landing noted at 5.19 s with no tick since 5 s, still verifying at 5.2 s |
| `CsaEnding.CampaignOver` | core/src/csa.cpp:398-538 | From start to quiet: once the third tick past the switch has come, a tick a verify time later, and past a verify time from the landing, ends every campaign |
| `CsaTogether.BothArrive` | core/src/csa.cpp:398-538 | A campaign succeeds: its flag heard before the issuer ticks past the switch, then two such ticks and one of the craft at or past its instant, whatever else comes in between, leave the issuer committed and both radios on its channel |
| `CsaTogether.BothArriveOnTime` | core/src/csa.cpp:155-184 | The same from the beginning of every recorded run, with the instant recorded for the accepted copy |
| `CsaMove.BothMove` | core/src/csa.cpp:266-306 | In every run: a retune of the craft, a commit and an unconfirmed close of the issuer all name the channel, width, class and power of the campaign's start |
| `CsaProgress.CopySent` | core/src/csa.cpp:398-438 | A due tick of an announcing issuer short of the cutoff puts a sealed copy on the air with the whole milliseconds left to the switch |
| `CsaProgress.CopyArms` | core/src/csa.cpp:41-142 | A copy of the campaign in flight that the craft has not taken, to an allowed channel and past the minimum interval, is accepted and arms it, and its flag may then be raised and heard |
| `CsaProgress.BeaconCommits` | core/src/csa.cpp:41-142 | While both verify, a due tick sends a beacon, and its delivery commits the craft |
| `Csa.CsaFollower.OnCsa` | core/src/csa.cpp:41-142 | True exactly for a copy accepted; state and counters as specified |
| `Csa.CsaFollower.Tick` | core/src/csa.cpp:155-226 | Arming, retune and verification as specified |
| `Csa.CsaIssuer.Start` | core/src/csa.cpp:266-306 | Starts exactly when allowed, with the next nonce |
| `Csa.CsaIssuer.NoteCraftVideo` | core/src/csa.cpp:355-387 | An armed frame moves the deadline once, a cleared one ends the campaign |
| `Csa.CsaIssuer.Tick` | core/src/csa.cpp:398-538 | Copies, commit, abort and the verify end as specified |
| `CommandProtocol.ConsumedOnce` | core/src/vehicle_cmd.cpp:30-79 | Over a lossy, duplicating, reordering channel with an ideal MAC the craft consumes each nonce at most once, in increasing order, and only commands an issuer started |
| `CommandProtocol.CommandsDistinct` | core/src/vehicle_cmd.cpp:135-163 | Before the nonces run out no two campaigns share one |
| `CommandProtocol.TerminalTruth` | core/src/vehicle_cmd.cpp:165-184 | ACKED only if this very id and argument was applied, REJECTED only if it was refused, by the craft addressed, and by no other outcome of that nonce |
| `CommandEnding.CopiesBounded` | core/src/vehicle_cmd.cpp:186-228 | A campaign sends at most copies times retry cap copies, a configured zero counting 256 by the 8-bit wrap |
| `CommandEnding.UnansweredSpendsAll` | core/src/vehicle_cmd.cpp:186-228 | The bound is met: a campaign nobody answers sends exactly that many and times out |
| `CommandEnding.ZeroCopiesSends256` | core/src/vehicle_cmd.cpp:186-228 | With no copies configured and one try, 256 copies go out |
| `CommandEnding.ZeroRetriesSends256` | core/src/vehicle_cmd.cpp:186-228 | With one copy a try and a retry cap of 0, 256 copies go out |
| `CommandEnding.CampaignEnds` | core/src/vehicle_cmd.cpp:186-228 | Under monotone time, with any extra ticks and echoes in between, a campaign is over once retry cap times copies-plus-one ticks lay pairwise the longer timer apart, answered or not |
| `CommandAnswered.ConsumedEchoes` | core/src/vehicle_cmd.cpp:76-121 | After a command is consumed, at whatever times the craft is ticked, it sends sealed echoes of that outcome to the issuer, counting down from echoCopies, one a copy interval, and none after the last |
| `CommandAnswered.CopyConsumed` | core/src/vehicle_cmd.cpp:30-79 | A copy of the campaign in flight not answered yet, from the bound issuer and past the minimum interval, is consumed |
| `CommandAnswered.AnsweredEnds` | core/src/vehicle_cmd.cpp:30-184 | A command of the campaign in flight delivered and consumed, anything, a due craft tick, anything: if the campaign is active still, an echo of that outcome is on the air, and whichever is delivered ends it ACKED, or REJECTED if the command was refused |
| `CommandPacing.StartsSpaced` | core/src/vehicle_cmd.cpp:135-152 | Two starts in a row lie at least the minimum plus the copy interval apart |
| `CommandPacing.FirstCopyClears` | core/src/vehicle_cmd.cpp:65-71 | A fresh command is consumed exactly when the craft's last acceptance is the minimum interval old; with starts as close as allowed and no delay, exactly when the earlier command was taken within a copy interval of its start |
| `CommandPacing.FreshCopyIgnored` | PROTOCOL.md:4527-4529 | A run in which two copies of a command are lost and the next command's first copy, delivered at once, falls to the craft's limit |
| `VehicleCmd.VcmdCraft.OnCmd` | core/src/vehicle_cmd.cpp:30-79 | True exactly when a new command was applied; echoes and remembered outcome as specified |
| `VehicleCmd.VcmdCraft.QueueEcho` | core/src/vehicle_cmd.cpp:81-103 | One burst of echoes per nonce and minimum interval |
| `VehicleCmd.VcmdCraft.Tick` | core/src/vehicle_cmd.cpp:105-121 | One pending echo per due tick |
| `VehicleCmd.VcmdIssuer.Start` | core/src/vehicle_cmd.cpp:135-163 | Starts exactly when idle, keyed, addressed, past the minimum interval and with the argument in range |
| `VehicleCmd.VcmdIssuer.OnEcho` | core/src/vehicle_cmd.cpp:165-184 | Ends the campaign exactly on its authenticated echo |
| `VehicleCmd.VcmdIssuer.Tick` | core/src/vehicle_cmd.cpp:186-228 | Copies, waits and retries with 8-bit countdowns |
| `SelectorRuns.BitrateWithinRung` | core/src/selector.cpp:442-592 | On a climbing ladder, in every reachable state (boot, lead, grace, pins, fail-safe) the commanded bitrate is at most the clamped derived bitrate of the rung in force |
| `SelectorRuns.RiseNeedsFeedback` | core/src/selector.cpp:493-691 | Whenever in a run the rung rises it is on a tick in the steady phase, outside an announced switch; unless the envelope is pinned to one rung a report was heard, it or the end of a switch after it lies within the report timeout, and the rise is to the envelope's bottom or by one rung past no fresh saturation verdict or probe veto |
| `SelectorRuns.LossDemotesBounded` | core/src/selector.cpp:397-417 | From any state a run with whatever pins, reporters and radio environments reaches, with no rung locked at or below the envelope's bottom, and with monotone time until the next reset or re-pin: loss demotes at most as often as the rungs above the safe floor have strikes left, at most (those rungs) times the latch count, plus once for each of them that is locked already at or below the rung in force |
| `SelectorRuns.NoLockedRungBelow` | core/src/selector.cpp:122-148 | Over every such stretch, outside the bitrate lead, a locked rung at or below the rung in force was one when the stretch began; so there is none when there was none |
| `SelectorConflict.BoundedExactly` | core/src/selector.cpp:122-148 | From any such state whose locks at or below the bottom are latched: the bound holds until the next reset or re-pin if and only if there is no conflict, or the envelope is one rung or has nothing above the safe floor |
| `SelectorConflict.NoBound` | core/src/selector.cpp:130-143 | In conflict by a latched rung, with room above the safe floor: any number of loss demotions without a reset or a re-pin, as far as the reporter's 32-bit epochs go |
| `SelectorConflict.RepinUnbounded` | core/src/selector.cpp:130-143 | A run from the beginning: rung 1 of three is latched, then the operator raises the bottom to it; after that n loss demotions for every n, where the strikes left pay for one |
| `SelectorConflict.RepinUnderLocked` | core/src/selector.cpp:130-143 | After the same re-pin the link comes to rest with a latched rung at or below the rung in force, where none was |
| `SelectorRuns.ChargeCosts` | core/src/selector.cpp:397-417 | Charging a rung in force above the safe floor costs exactly one strike if it is not locked and nothing if it is, and touches no other rung |
| `SelectorRuns.ClimbStaysBelow` | core/src/selector.cpp:130-148 | Without conflict, that is with no rung locked at or below the envelope's bottom, a climb ends below every locked rung of the envelope; in conflict its ceiling is the envelope's top |
| `SelectorSpec.SafeFloor` | core/src/selector.cpp:95-120 | The safe floor lies inside the pinned envelope |
| `SelectorBitrate.AirRate` | core/src/selector.cpp:12-14 | The rate table is 52 carriers times bits a carrier times code rate over the symbol time, for both guard intervals |
| `SelectorBitrate.WithinBudget` | core/src/selector.cpp:45-63 | Derived rate plus reserves never exceed that rate times airtime less the FEC share, unless the minimum applies, and fall short of it by less than three kbps |
| `SelectorBitrate.MinimumApplies` | core/src/selector.cpp:45-63 | Where the budget leaves no more than the minimum, and beyond MCS 7, the minimum is derived |
| `SelectorBitrate.MoreIsMore` | core/src/selector.cpp:45-63 | The derived rate does not fall with more airtime, a faster scheme or the short guard, nor rise with more FEC or reserves |
| `SelectorBitrate.SomeRungs` | tests/selector_test.cpp:99-114 | The repository's golden rates and a few more, for both guard intervals |
| `SelectorMoves.AcuteLossDrops` | core/src/selector.cpp:599-615 | One report of acute loss, and a tick before it is stale: the floor's bitrate at once, its rung at the first tick a lead later |
| `SelectorMoves.LastingLossDrops` | core/src/selector.cpp:599-622 | As many lossy reports in a row as the policy asks for take an open rung down by one, once the last demotion has cooled |
| `SelectorMoves.ClearChannelClimbs` | core/src/selector.cpp:660-691 | On a clear channel a dwell after the last change takes the rung up by one at once, and its bitrate follows a grace later |
| `Selector.Selector.ChargeLockout` | core/src/selector.cpp:397-417 | One strike on the rung, and at the latch count a lock until the hold has passed |
| `Selector.Selector.StartDemote` | core/src/selector.cpp:442-472 | Down: the bitrate first, the rung after the lead |
| `Selector.Selector.StartPromote` | core/src/selector.cpp:474-491 | Up: the rung first, the bitrate after the grace |
| `Selector.Selector.Evaluate` | core/src/selector.cpp:493-702 | The rules for a tick in order, first match wins |
| `Selector.Selector.Tick` | core/src/selector.cpp:704-748 | One tick makes exactly the specified move and at most one commit and one bitrate command |
| `Selector.Selector.OnReport` | core/src/selector.cpp:260-344 | False exactly for a replayed or reordered epoch; scores as specified |
| `McsProbe.ScoredAtMostOnce` | core/src/mcs_probe.cpp:77-170 | Over every run, within a context no sequence number is both credited and charged, and only arrivals are credited |
| `McsProbe.FramedFair` | core/src/mcs_probe.cpp:95-170 | The success and failure counts grow by exactly the numbers newly credited and charged |
| `McsProbe.FrameCredits` | core/src/mcs_probe.cpp:143-169 | The first copy of a classifiable frame is credited exactly when it lies in a probe slot and flew at the candidate rate; outside the slots it confirms or denies the commanded rate |
| `McsProbe.HeadCharges` | core/src/mcs_probe.cpp:77-93 | A new head charges exactly the probe slots up to the horizon behind it that never arrived, while the commanded rate is confirmed and there is a candidate |
| `McsProbe.UnknownPinFree` | core/src/mcs_probe.cpp:10-39 | A max id the ladder does not have never clamps |
| `McsProbe.ProbeUpCandidate` | core/src/mcs_probe.cpp:10-39 | The rate of the next higher profile, unless there is none, it is the same or the pin forbids it |
| `McsProbe.McsProbeWindow.Seen` | core/src/mcs_probe.cpp:41-44 | For every sequence number between walk and head the ring bit says whether it arrived |
| `McsProbe.RingApart` | core/src/mcs_probe.cpp:41-49 | Sequence numbers less than a ring apart never share a bit |
| `McsProbe.McsProbeWindow.AdvanceGapWalk` | core/src/mcs_probe.cpp:77-93 | Settles everything further behind the head than the horizon, charging what never arrived |
| `McsProbe.McsProbeWindow.OnData` | core/src/mcs_probe.cpp:95-170 | The ring form does exactly what the arrival-set form does, across blackouts and bit recycling |
| `McsProbe.McsProbeWindow.OnCrcFrames` | core/src/mcs_probe.cpp:172-191 | Corrupt frames at the candidate rate count as failures without moving the walk |
| `McsProbe.McsProbeWindow.ProbePer` | core/src/mcs_probe.cpp:193-211 | The failure rate once it rests on enough direct evidence |
| `McsProbe.ReportedRate` | core/src/mcs_probe.cpp:193-211 | The reported rate is the failures' share in permille rounded down: 0 without failures, 1000 without successes |
| `McsProbe.RateRises` | core/src/mcs_probe.cpp:193-211 | More failures against the same successes never report less |
| `CacheController.RepairBounded` | core/src/cache_controller.cpp:160-291 | Over every run in which a block keeps its size while it is tracked: its accepted symbols never exceed min(ceil(k * fraction / 1000), limit), and no cache is asked twice |
| `CacheController.RunStanding` | core/src/cache_controller.cpp:119-378 | Whatever comes after, a request is out exactly until its block is done or a tick more than the prune time after it, and no more is taken on it than was heard from its cache |
| `CacheController.CapCovers` | core/src/cache_controller.cpp:176-181 | For every block of at most 256 symbols the budget is the least number covering its share of k, or the absolute limit when that is smaller |
| `CacheController.FirstRequest` | core/src/cache_controller.cpp:104-291 | A block considered for the first time is asked for exactly when local collection is over, what it lacks is within its budget, asking is allowed and some cache offers it; and then for what it lacks or what one reply may bring |
| `CacheController.CacheController.FindBest` | core/src/cache_controller.cpp:202-240 | The untried eligible cache of best health, then freshness, then configuration order |
| `CacheController.CacheController.Tick` | core/src/cache_controller.cpp:119-293 | Prunes, then treats each candidate exactly as specified |
| `CacheController.CacheController.OnReply` | core/src/cache_controller.cpp:307-364 | Accepts a wrapped symbol exactly when it matches the outstanding request and allowance is left |
| `CacheController.CacheController.NoteCompleted` | core/src/cache_controller.cpp:366-378 | The block and exactly its requests are gone; every other block and request and the books are kept |
| `CachePair.RequestTravels` | core/src/wire.cpp:262-292 | A request with its bitmaps survives encoding, trimming and decoding unchanged |
| `CachePair.AnswersAccepted` | core/src/cache_store.cpp:133-207 | A request whose 32-bit id no older outstanding request still bears is on file after its tick; and after any run of ticks, statuses, completions and replies that follows, every symbol a cache answers to it passes the controller's checks while that very request is out and fewer replies to its id were heard from that cache than it answered |
| `CacheStore.NotedSound` | core/src/cache_store.cpp:32-112 | Hearing a symbol keeps every stream filed under its own keys and its window bounded |
| `CacheStore.ChosenLowest` | core/src/cache_store.cpp:180-205 | The symbols chosen are those of the lowest wanted indices held, in order: all of them, or as many as the allowance |
| `CacheStore.HeardAnswered` | core/src/cache_store.cpp:32-207 | A symbol heard from its stream's sender is held, and a new request for its block within the rate gets the one held at its index if wanted and within the allowance |
| `CacheStore.ChosenWanted` | core/src/cache_store.cpp:181-203 | Every answered symbol is held and asked for |
| `CacheStore.TrimKeepsBits` | core/src/cache_store.cpp:13-16 | Trimming trailing zero bytes of a bitmap clears no bit |
| `CacheStore.CacheStore.NoteData` | core/src/cache_store.cpp:32-112 | A heard symbol is retained exactly when its stream is tracked and its sender owns it, the oldest blocks going first |
| `CacheStore.CacheStore.Answer` | core/src/cache_store.cpp:133-207 | A repeated request id is dropped, a requester beyond its rate refused, else the wanted symbols up to the cap are returned in index order |
| `Wire.DecodeEncode` | core/src/wire.cpp:461-509 | For every packet an encoder accepts, decoding what was encoded gives the packet if and only if it is within the decoder's limits |
| `Wire.DoesNotSurvive` | core/src/wire.cpp:313-328 | Concrete packets outside those limits: an announce with a reserved flag, a DATA payload of 4097 bytes |
| `Wire.StrayFieldLost` | core/src/wire.cpp:568-607 | A selector state with an optional field set whose flag is clear does not come back whole |
| `Wire.EncodeDecode` | core/src/wire.cpp:461-509 | Every accepted byte string of a type with an encoder re-encodes to itself, but for calibration probes exactly when their padding is zero |
| `Wire.PaddingForgotten` | core/src/wire.cpp:359-375 | A calibration probe decodes alike whatever its padding, and its frame re-encodes to itself exactly with zero padding |
| `Wire.ProbeReencodesZeroed` | core/src/wire.cpp:359-375 | A probe frame of 23 bytes ending in 1 decodes and does not encode back to itself |
| `Wire.ParsePrint` | core/src/wire.cpp:13-57 | Fields printed in wire order are read back |
| `Wire.SelectorDecodes` | core/src/wire.cpp:128-180 | The three selector-state lengths, told apart by flags, both ways |
| `Wire.EncodeInto` | core/src/wire.cpp:511-820 | Writes the encoding from the start of the buffer and nothing after it, or returns 0 and writes nothing when refused or too small |
| `WireLayout.PrefixLaid` | core/src/wire.cpp:13-23 | Magic 57 42, version and type, then originator, destination and session, most significant byte first |
| `WireLayout.FieldLaid` | core/src/wire.cpp:511-820 | Every field of an encoded packet lies behind those before it, most significant byte first, and the tail comes last |
| `WireLayout.Tables` | core/include/wblink/types.h:107-139 | The type codes and the offsets of every field and tail of the sixteen packet types |

## Left out

- `io/`, `app/`, `tools/`, `examples/`: sockets, devices, HTTP, shared memory and scripts.
- MAC computation: a packet is `sealed` exactly when the key holder made it; there is no cryptography in the model.
- The vector instructions of gf256.cpp: only their nibble-table identity.
- Flat k by k and k by s buffers of the decoder, and the depth grid of the concealment writer, are two-dimensional arrays.
- std::map iteration is modelled by ascending key order (`Keys.Ascending`).
- Statistics gauges, timing series, JSCC shadow predictions and feedback, and the radio adapters' own accounting.
- core/src/spatial_repair.cpp: an arbitrary salvage hook, and an arbitrary egress, both functions of the attempt number.
- SalvageExact.OrderedExactly: for hooks that do not look at the attempt number, a positive deadline, and block ids in a half circle; that an orderly hook is enough is SalvageExact.OrderlyRuns, for every hook.
- SalvageExact.CreditedExactly: for hooks that do not look at the attempt number; that a truthful hook is enough is SalvageExact.TruthfulRuns, for every hook.
- SPS and PPS parsing: parsed values are inputs, with picture sides that are multiples of the minimum coding block and the derived sizes the parser computes (`ConcealSlice.Shaped`).
- Coding tree coordinates are in minimum coding blocks instead of luma samples, which loses nothing for such pictures.
- Slice parsing of fields the parser does not keep: they are skipped, as in the source.
- Cabac.RoundTrip: the decoder's contexts are those of the coded bins; a decoder that chooses its own is in SliceDecoder.SliceReads.
- ConcealSlice.MakeConcealSlice: which calls append a unit is ConcealSlice.AppendsExactly, for all; of those whose address + count reaches 2^32 the unit itself is given only for one CTU below the picture; what the writer makes of several CTUs whose addresses wrap is not modelled.
- ConcealSlice.ConcealmentDecodes: the decoder reads the header with the syntax of the source's parser, so not for a PPS with weighted P prediction or a default list 1 above 16, and with address 0 when the first-slice flag is asked for.
- ConcealSlice.SubstreamsFound: for substreams of at most 2^31 bytes, the offsets a header can carry; the writer's 32-bit shift beyond that is not modelled.
- ConcealSlice.UnitParses: for QP deltas of magnitude below 2^30, beyond which the writer's 32-bit doubling overflows, and NAL headers with a nonzero second byte.
- Rlc.RlcDecoder.AddRepair: for k + index at most 255, which `core/include/wblink/rlc.h` demands of callers and the reassembler checks.
- FrameDelivery.FrameDeliveredOnce: one frame at a time, before its deadline; several frames at once are ManyFrames.EachFrameOnce.
- ManyFrames.EachFrameOnce: block ids lie in a half circle, and a block counts as closed by the receiver's own watermark; when that is so is BlockEndings.ClosedExactly.
- BlockEndings.HandedOutExactly: block ids lie in a half circle.
- BlockBooks.BlocksAccounted: malformed symbols and malformed frames share one counter, as in the source, so with any of them the count is a bound; without, it is exact.
- ReassemblerRuns.AcceptedInOrder: block ids pushed lie in a half circle, beyond which serial order means nothing.
- Reassembler resets and repair-candidate listing.
- Receive engine: latch recovery, admission, originator selection and adapter liveness are inputs (`live`, block budget, table mismatch, the early consumer's answer); a run starts at the latching packet.
- RxRuns.HeldWithinDeadline: proved without assuming that block ids do not decrease with the sequence number.
- RxDeadlines.DeadlineOnFile: of the newest block, the only one a gap can be waiting for once gaps are judged; records of older blocks may be dropped when a later block is consumed.
- RxDeadlines.FilledHandedOut: between floors; a new floor drops what is held, as in the source.
- Selector: RSSI and slope averages are unconstrained inputs to the guards (`Rf`); reason strings and display accessors are left out.
- SelectorRuns.LossDemotesBounded: for stretches without conflict; what a conflict does is SelectorConflict.BoundedExactly, and a conflict by a timed lock is over when that lock expires.
- SelectorConflict.BoundedExactly: for states with no timed lock at or below the envelope's bottom, and a reporter with more epochs left than the bound.
- Csa: actuator failures (`note_commit_failed`, a refused retune), key changes during a campaign and the wrap of the 32-bit nonce are excluded.
- CsaInstant.AcceptedInstants: the craft looks at a copy within 2^32 microseconds of its airing, beyond which the TSF difference wraps; both ends' times are read on one clock.
- CsaProtocol.CommitMeansSameChannel: an ARMED flag heard was raised for the campaign in flight.
- CommandProtocol.CommandsDistinct: before the 32-bit nonces run out.
- CommandAnswered.AnsweredEnds: before the 32-bit nonces run out, for a craft that sends at least one echo copy.
- SelectorMoves.AcuteLossDrops: inside an envelope of more than one rung and outside an announced switch, where the pin and the freeze decide; so are the other two of that module.
- Probe window: the bitmap words are an array of booleans; sequence numbers do not wrap within a context.
- CacheController.RepairBounded: for the requests issued while the block stays a candidate; a block that leaves and returns starts a new budget, and may come with another size.
- CacheStore: status reports and the assignment gate.
- Wire: fields are printed in wire order, which fixes every offset; the retired NACK and unknown extended types have no encoder; `link_report_stamp_epoch` is left out.
- Reporter, RTP framer, profile table serialization, adapter election, calibration and loss model.
