# Garbled circuits and Orchard key derivation, modelled and proved

A Dafny model of a three-party garbled-circuit stack: parties 0 and 1 garble, party 2 evaluates.
It covers, from the bottom up:

- the label stream and the expansion of the garblers' shared key (`LabelPrfs`, `Setup`), and
  which of its bytes become what (`StreamUse`);
- circuits, their plain evaluation, half-gates garbling and evaluation (`Circuits`, `Garbling`,
  `CircuitBatch`);
- the circuit compiler: the builder with inlining, prefix adder, comparator, modular adder and the
  share-checking import circuit (`Builder`, `Gadgets`, `PrefixAdder`, `Arithmetic`, `ModularAdder`,
  `ImportCircuit`);
- the Bristol Fashion parsers and the compact circuit format (`Bristol`, `Compact`, `Codec`), and
  a printer of such text (`Printer`);
- share conversions: Shamir, replicated, Yao and binary (`PrimeField`, `Shamir`, `Inputs`,
  `BinaryShares`, `YaoToRss`, `KeyPairs`) and the lockstep of the two garblers (`Lockstep`);
- the Orchard derivation session: its replay loop and phases (`Replay`, `Phases`, `PhaseRules`,
  `PhaseChecks`, `Sessions`), the same protocol without data (`Control`, `Schedule`, `Delivery`), the
  values of an honest run (`Ideal`), the proof that three real sessions under an arbitrary scheduler follow
  them (`Refinement`, `Agreement`), and a session that meets all conditions (`Example`).

How the session results fit together: `PhaseRules` and `PhaseChecks` say for every phase, every state
and every message, honest or not, what keeps a session waiting and what takes it on. For honest runs,
`Control` says for every phase which messages are used, kept or refused; `Schedule` and `Delivery`
prove on it, for every scheduler, that messages are conserved, that none is stranded, and exactly which
deliveries make a run fail. `Ideal` gives every value of an honest run as a function of seeds, shares
and pad, using the theorems about the lower layers. `Refinement` proves that the real phase handlers do
on those values what `Control` says, and `Agreement` lifts this through the replay loop and the network
to whole runs, in which a session that has returned an error may be called again.

Hash functions, AES, the ChaCha8 block function, commitments and the decoding of output bits into
Orchard keys are function parameters; properties that need it assume, for the values at hand, that
two commitments or hashes do not collide. Curve points are their discrete logarithms. Randomness of
the operating system is an input. Completion of the derivation does not hold for every delivery
order; the exact condition is `Agreement.RunFinishesIff`, and `Agreement.OutOfOrderFails` gives two
runs that fail. `Codec.CodecAgreement` likewise gives the exact condition, one gate per wire, under
which the decoder accepts.

Check everything with `dafny verify dfyconfig.toml`.

## Model

| member | source | states |
|---|---|---|
| Agreement.DoneHoldsTheKeys | crates/zcash/src/derivation_session.rs:149-211 | In every run, for every order of deliveries and even if sessions are called again after errors, a session that is done holds the keys of the shared secret computed in the clear; so any two agree, whatever the seeds, labels and pad |
| Agreement.AllDeliveredAllDone | crates/zcash/src/derivation_session.rs:149-211 | In a run without errors, once nothing is in flight all three sessions are done |
| Agreement.RunFinishesIff | crates/zcash/src/derivation_session.rs:149-211 | Barring equal ring keys, colliding commitments and bits that do not decode, the run finishes at all parties exactly when no padded share is handed to a session in its setup phase, the evaluator is handed both first input messages before any second one, and everything is delivered |
| Agreement.InOrderCanFinish | crates/zcash/src/derivation_session.rs:149-211 | A run that has kept the two conditions so far can be continued within them until all parties are done: they never lead to a deadlock |
| Agreement.OutOfOrderFails | crates/zcash/src/derivation_session/phases/setup_yao.rs:113-117 | Each of the two conditions is needed: two delivery orders of honest sessions in which the evaluator returns an error |
| Agreement.KeepsOrderIs | crates/zcash/src/derivation_session/phases/batch_input_yao.rs:633-656 | The two conditions, read off the messages and phases of the real sessions, are those of the control machine |
| Agreement.InOrderNoError | crates/zcash/src/derivation_session/phases/setup_yao.rs:47-136 | Under the two conditions no session ever returns an error |
| Agreement.WorldRefines | crates/zcash/src/derivation_session.rs:149-211 | Every reachable state of the three real sessions and the network is the ideal one that the control state names |
| Agreement.DriveRefines | crates/zcash/src/derivation_session.rs:177-205 | One call of `handle_messages` on ideal values is one call of the control machine, with the same messages sent and kept |
| Agreement.HandlerRefines | crates/zcash/src/derivation_session/phase.rs:58-101 | Every phase handler, on every message that may still come, does what the control machine says |
| Example.HonestSession | crates/zcash/src/derivation_session.rs:122-146 | For any prime field, secret and line, and any embedded circuits with 1536 outputs, there is an honest session in which no keys or commitments collide |
| Example.FinishingRun | crates/zcash/src/derivation_session.rs:149-211 | A concrete honest session with a delivery order in which all three parties finish |
| Delivery.NoStrandedMessage | crates/zcash/src/derivation_session.rs:149-211 | Without failures, an empty network means that all parties have finished, whatever the flags |
| Delivery.CompletesIff | crates/zcash/src/derivation_session.rs:149-211 | All parties finish without error if and only if every delivery was in order and everything was delivered |
| Delivery.InOrderIff | crates/zcash/src/derivation_session/phases/setup_yao.rs:70-117 | There is no error and no misplaced message if and only if no padded share reaches a session in setup and the evaluator gets both first input messages before any second one |
| Delivery.BadStep | crates/zcash/src/derivation_session/phases/batch_input_yao.rs:633-656 | A single delivery out of order already makes it impossible for the run to finish |
| Delivery.GoodStep | crates/zcash/src/derivation_session/phases/batch_input_yao.rs:81-219 | A delivery in order causes no error, neither by itself nor by the replay of what was kept |
| Delivery.DoomedStays | crates/zcash/src/derivation_session/phases/batch_input_yao.rs:633-656 | A second input message in a slot for the first ones stays there: nothing later repairs the run |
| Delivery.EarlyShareFails | crates/zcash/src/derivation_session/phases/setup_yao.rs:113-117 | A concrete delivery order that fails: a padded share overtakes the garble key |
| Delivery.EarlySecondFails | crates/zcash/src/derivation_session/phases/batch_input_yao.rs:633-656 | A concrete delivery order that fails: a second input message overtakes the first one |
| Delivery.DeliveredIff | crates/zcash/src/derivation_session.rs:149-211 | A message has been sent and is no longer in flight exactly when the scheduler has handed it over at some step |
| Delivery.CanFinish | crates/zcash/src/derivation_session.rs:149-211 | Every order that has kept the two conditions can be completed within them |
| Schedule.RunInv | crates/zcash/src/derivation_session.rs:173-211 | In every reachable system each message that was sent is at most once in flight, kept or used, and exactly once unless its receiver has returned an error; what is kept may still be used |
| Schedule.DriveAccounts | crates/zcash/src/derivation_session.rs:177-205 | One call keeps account of every message to and from the party, through all replays |
| Control.ReactFacts | crates/zcash/src/derivation_session/phase.rs:58-101 | Using a message marks that message and no other as used, and sends exactly what the new stage adds |
| Control.ReactFails | crates/zcash/src/derivation_session/phase.rs:58-101 | An error uses up no other message, and what was sent before it is accounted for by the state it leaves |
| Delivery.SafeReaction | crates/zcash/src/derivation_session/phases/setup_yao.rs:47-136 | A message that was really sent and comes in order is used or kept, never refused: the chains of causes of the protocol rule every other state out |
| Sessions.Session.HandleMessages | crates/zcash/src/derivation_session.rs:149-211 | The queue-and-replay loop terminates and has exactly the specified effect on phase, context, pending list, result and outgoing messages |
| Sessions.Session.NewWithSeed | crates/zcash/src/derivation_session.rs:122-146 | A session for parties 0 to 2 only, with its first outgoing messages |
| Sessions.PendingNotReady | crates/zcash/src/derivation_session.rs:173-211 | After a successful call only messages that the phase asks to keep are pending, and none when the session is done or aborted |
| Sessions.BatchingImmaterial | crates/zcash/src/derivation_session.rs:149-211 | Handling `a ++ b` at once is handling `a` and then `b`: same phase, context, pending list and outgoing messages, or the same error if `a` fails |
| Sessions.FirstOddMessageDecides | crates/zcash/src/derivation_session.rs:149-172 | The first message of a batch that is an abort or for somebody else decides: an abort ends the session, a foreign message is refused and changes nothing |
| Sessions.EndIsFinal | crates/zcash/src/derivation_session.rs:149-172 | A session that is done or aborted stays so and sends nothing |
| Replay.DriveAppend | crates/zcash/src/derivation_session.rs:177-205 | For any handler, messages queued behind others wait until those have settled |
| Replay.SettledNotReady | crates/zcash/src/derivation_session.rs:177-205 | For any handler, the loop stops only when no pending message is ready |
| PhaseRules.NotReadyIff | crates/zcash/src/derivation_session/phases/setup_yao.rs:60-117 | A message is kept for later exactly when a table of phase, sender and kind says so, for all phases |
| PhaseRules.EarlyRingKeyRefused | crates/zcash/src/derivation_session/phases/setup_yao.rs:60-88 | The entry for party 0 in the list of early messages is never reached: a waiting party 0 refuses a ring key from party 2 |
| PhaseRules.SecondMessageRefused | crates/zcash/src/derivation_session/phases/shamir_to_rss.rs:142-167 | A second message of the collected kind from one party is an inconsistency error in every collecting phase |
| PhaseRules.LabelsCarryIff | crates/zcash/src/derivation_session/phases/output_yao.rs:428-455 | The garblers read exactly the bits whose labels they are shown |
| PhaseRules.GarblerFinishes | crates/zcash/src/derivation_session/phases/output_yao.rs:221-262 | A garbler that is shown labels of its own output wires finishes exactly when their bits make keys, and holds those keys |
| PhaseRules.FinishedWasShown | crates/zcash/src/derivation_session/phases/output_yao.rs:221-262 | Whatever the evaluator sends, a garbler that finishes was shown, for every output wire, the label of some bit, and holds the keys of those bits |
| PhaseChecks.SetupAdvancesIff | crates/zcash/src/derivation_session/phases/setup_yao.rs:47-171 | For every message: the setup moves on exactly for the one it waits for, from the right party and with the right reference string, and the garblers' keys come from the disjoint parts of the seed's stream |
| PhaseChecks.RingKeyAcceptedIff | crates/zcash/src/derivation_session/phases/common_randomness.rs:46-86 | For every message: a ring key is accepted exactly from the party before and if it differs from the own one |
| PhaseChecks.CollinearAcceptedIff | crates/zcash/src/derivation_session/phases/shamir_to_rss.rs:85-138 | Whatever the values received, the evaluator leaves the phase exactly when the three lie on one line; otherwise it fails with a verification error |
| PhaseChecks.GarblerCollinearIff | crates/zcash/src/derivation_session/phases/shamir_to_rss.rs:85-138 | The same for a garbler |
| PhaseChecks.PaddedShareStored | crates/zcash/src/derivation_session/phases/shamir_to_rss.rs:142-184 | A first value is stored in its sender's slot; nothing else fills one |
| PhaseChecks.EvalBitsAcceptedIff | crates/zcash/src/derivation_session/phases/batch_input_yao.rs:107-145 | For every message: a garbler answers exactly packed bits of the right length from the evaluator |
| PhaseChecks.FirstInputsAcceptedIff | crates/zcash/src/derivation_session/phases/batch_input_yao.rs:147-181 | For every message: when the evaluator takes both first messages, when it waits, and what it then holds |
| PhaseChecks.FirstInputsOneHonest | crates/zcash/src/derivation_session/phases/batch_input_yao.rs:147-181 | With one honest garbler and no collision, an evaluator that goes on holds the labels of the honest input, whatever the other garbler sent |
| PhaseChecks.SecondInputsAcceptedIff | crates/zcash/src/derivation_session/phases/batch_input_yao.rs:182-217 | For every message: when the evaluator goes on to the circuit, when it waits, and on which labels it evaluates |
| PhaseChecks.SecondInputsOneHonest | crates/zcash/src/derivation_session/phases/batch_input_yao.rs:182-217 | With one honest garbler and no collision, it evaluates on the labels of its own input, whatever the other garbler sent |
| PhaseChecks.TablesAcceptedIff | crates/zcash/src/derivation_session/phases/circuit_eval.rs:53-98 | For every message: tables are evaluated exactly when party 0's hash is theirs and they are long enough |
| PhaseChecks.EvaluatorShows | crates/zcash/src/derivation_session/phases/circuit_eval.rs:53-98 | What the evaluator then shows and keeps are the labels of the circuit's outputs under these tables |
| PhaseChecks.TrueBitShownIff | crates/zcash/src/derivation_session/phases/output_yao.rs:114-184 | For every message: a garbler goes on exactly when the evaluator shows it the label of a true verification bit; the label of a false bit is answered with false and then stops it with a verification error |
| PhaseChecks.BothBitsTrueIff | crates/zcash/src/derivation_session/phases/output_yao.rs:114-184 | For every message: the evaluator shows its output labels exactly when both garblers have answered true |
| PhaseChecks.MismatchStops | crates/zcash/src/derivation_session/phases/output_yao.rs:114-184 | Shown the label that evaluating the import circuit gives for output 0, a garbler goes on exactly when the three sharings match cyclically |
| PhaseChecks.EvaluatorFinishesIff | crates/zcash/src/derivation_session/phases/output_yao.rs:221-262 | For every message: the evaluator finishes exactly when both garblers sent the same bytes and these hold bits that make keys |
| Ideal.Reconstructs | crates/zcash/src/derivation_session/phases/shamir_to_rss.rs:85-138 | Every party reconstructs the masked secret, and the replicated shares it then holds are cyclically consistent and add up to the secret |
| Ideal.FirstMessages | crates/zcash/src/derivation_session/phases/batch_input_yao.rs:464-499 | The garblers' first messages are accepted exactly when no wire's two commitments collide |
| Ideal.SecondMessages | crates/zcash/src/derivation_session/phases/batch_input_yao.rs:547-591 | The second messages are always accepted and give the labels of the evaluator's input |
| Ideal.Evaluates | crates/zcash/src/derivation_session/phases/circuit_eval.rs:53-98 | Evaluating the garblers' table on the input labels gives the labels of the plain evaluation |
| Ideal.ClearOutputs | crates/zcash/src/zcash.rs:32-67 | On the parties' own shares the verification bit is true and the other outputs are the PRFs of the secret |
| Refinement.ReconstructStep | crates/zcash/src/derivation_session/phases/shamir_to_rss.rs:85-138 | With both padded shares in, every party enters the input phase with its share of the secret |
| Refinement.SecondSent | crates/zcash/src/derivation_session/phases/batch_input_yao.rs:107-145 | A garbler that gets the evaluator's bits sends its second message and hash or tables, and waits for the verification label |
| Refinement.FirstArrived | crates/zcash/src/derivation_session/phases/batch_input_yao.rs:147-181 | With both first messages in, the evaluator holds the garblers' input labels, or refuses colliding commitments |
| Refinement.SecondArrived | crates/zcash/src/derivation_session/phases/batch_input_yao.rs:182-217 | With both second messages in, the evaluator has the labels of all six input words |
| Refinement.TablesArrived | crates/zcash/src/derivation_session/phases/circuit_eval.rs:53-98 | With hash and tables in, the evaluator evaluates and sends the verification label to both garblers |
| Refinement.LabelsArrive | crates/zcash/src/derivation_session/phases/output_yao.rs:221-252 | A garbler turns the labels into the output bits, sends them and decodes the keys of the secret |
| Refinement.PackIs | crates/zcash/src/derivation_session/phases/batch_input_yao.rs:664-686 | The packed form of bits is unique and unpacks to them |
| Garbling.Garble | src/functionality/garble.rs:18-131 | The garbler's loop computes the specified table, output labels and generator state |
| Garbling.EvaluateGarbled | src/functionality/evaluate.rs:18-131 | The evaluator's loop computes the specified result, with `InvalidLength` in the specified cases |
| Garbling.GarbleThenEvaluate | src/functionality/evaluate.rs:31-115 | For every circuit with in-range wires, every input, hash and odd offset: evaluating the garbled table gives each output the label of the plain evaluator's bit |
| Garbling.EvalOkIff | src/functionality/evaluate.rs:31-124 | Evaluation succeeds exactly when all wires and inputs are in range and the table has at least 2 blocks per AND and one per constant |
| Garbling.WireLabels | src/functionality/garble.rs:33-112 | After every gate both loops agree on every wire: label = false label xor (value ? offset : 0), from the all-zero start |
| Garbling.AndGateCorrect | src/functionality/garble.rs:59-103 | One AND gate: the evaluator's label encodes the conjunction, for all labels, point-and-permute bits and hashes |
| Garbling.TablePrefix | src/functionality/garble.rs:33-112 | The table grows by 2 blocks per AND and one per constant and written blocks stay |
| CircuitBatch.BatchCorrect | src/functionality/circuit_eval.rs:228-395 | Circuits garbled into one table are cut at the right places: each evaluates to the labels of its own plain evaluation |
| CircuitBatch.GarbleJobs | src/functionality/circuit_eval.rs:360-395 | Garbling circuit after circuit concatenates their tables, threads one generator and returns the false labels of every circuit's outputs |
| CircuitBatch.EvaluateJobs | src/functionality/circuit_eval.rs:249-266 | The evaluator's cursor over the common table computes the specified results |
| CircuitBatch.SliceIsTableLength | src/functionality/circuit_eval.rs:254-255 | For builder-made circuits 2 * AND gates + constants is the number of table blocks |
| CircuitBatch.EvaluateChunks | src/functionality/circuit_eval.rs:159-187 | One circuit for many inputs: the evaluator's pairing of inputs and chunks of the table computes the specified results |
| CircuitBatch.AllChunksIff | src/functionality/circuit_eval.rs:174-186 | It panics exactly for a circuit without table blocks; otherwise inputs of the circuit's shape never fail, and all of them are evaluated exactly when the table has a full chunk for each |
| CircuitBatch.ChunksCorrect | src/functionality/circuit_eval.rs:159-187 | On the garblers' table every input evaluates to the labels of its own plain evaluation |
| Circuits.Evaluate | src/circuit.rs:645-673 | The plain evaluator computes the value table gate by gate |
| Circuits.EvalIsVals | src/circuit.rs:645-673 | On circuits in which gate k drives wire k it agrees with the recursive value of a wire |
| Builder.CircuitBuilder.AddCircuit | src/circuit.rs:847-905 | Inlining a define-before-use circuit returns wires that carry what it computes from the given wires, changes no earlier gate, and adds at most one wire per inlined gate |
| Builder.CircuitBuilder.NewInputs | src/circuit.rs:770-790 | A new input group on consecutive wires, keeping the builder invariant |
| Builder.CircuitBuilder.NewInput | src/circuit.rs:749-765 | A new group of one wire, keeping the builder invariant |
| Builder.CircuitBuilder.Xor | src/circuit.rs:793-797 | Appends the gate on the next wire, keeping the builder invariant |
| Builder.CircuitBuilder.Negate | src/circuit.rs:800-804 | Appends the gate on the next wire, keeping the builder invariant |
| Builder.CircuitBuilder.And | src/circuit.rs:807-812 | Appends the gate with the next AND id, keeping the builder invariant |
| Builder.CircuitBuilder.Const | src/circuit.rs:816-831 | At most one Constant gate per value |
| Builder.CircuitBuilder.Finish | src/circuit.rs:714-725 | The finished circuit: gate k drives wire k, operands come first, AND ids are 0..n-1 in order, constants are counted right |
| Builder.BuilderFormInlines | src/circuit.rs:847-905 | What the builder makes can itself be inlined |
| Builder.OutputIsEval | src/circuit.rs:645-673 | The semantic output of a built circuit is what the plain evaluator returns |
| Builder.TracksStep | src/circuit.rs:863-898 | One copied gate keeps the renaming map right for all inputs |
| PrefixAdder.BuildPpaCircuit | src/arithmetic.rs:128-201 | For every size that fits 16 bits the size+1 outputs are exactly x + y, on fewer than 2^24 wires |
| PrefixAdder.PrefixStep | src/arithmetic.rs:150-182 | After a step every g, p is the carry-generate and propagate of twice as many positions |
| Arithmetic.BuildCompareGeRecCircuit | src/arithmetic.rs:220-263 | For every lo <= hi < size the outputs are x[lo..hi] >= y[lo..hi] and x[lo..hi] != y[lo..hi] as little-endian numbers |
| Arithmetic.BuildCompareGeCircuit | src/arithmetic.rs:205-217 | The output is x >= y |
| Arithmetic.BuildCompareEqCircuit | src/arithmetic.rs:59-83 | The output is x == y, for any width from 1 |
| Arithmetic.BuildIfThenElseCircuit | src/arithmetic.rs:267-290 | Bitwise selection |
| ModularAdder.BuildSubtractOrderCircuit | src/arithmetic.rs:89-124 | Subtraction of a constant modulo 2^size, by two's complement |
| ModularAdder.BuildModAddCircuit | src/arithmetic.rs:20-57 | What the circuit computes for all inputs and moduli: one conditional subtraction |
| ModularAdder.ModAddReduced | src/arithmetic.rs:16-57 | For reduced operands and a modulus up to 2^size that is (x + y) mod p |
| ModularAdder.BytesToBitsLe | src/arithmetic.rs:6-14 | The bits are those of the little-endian number |
| ImportCircuit.BuildZcashImportFunction | crates/zcash/src/zcash.rs:32-67 | Output 0 is cyclic consistency of the three sharings; the rest is the embedded PRFs of the modular sum of the next shares |
| ImportCircuit.BuildZcashBlake2bCircuit | crates/zcash/src/zcash.rs:14-30 | The embedded circuits side by side on one scalar |
| ImportCircuit.BuildVerifySharingsCircuit | crates/hd-migration/src/circuits.rs:397-422 | The output is true exactly for cyclically consistent sharings |
| ImportCircuit.BuildScalarRssToYVerificationCircuit | crates/hd-migration/src/circuits.rs:341-370 | Consistency bit and modular sum |
| ImportCircuit.ShareSumReduced | crates/zcash/src/zcash.rs:54-60 | For reduced shares the two modular additions give (x1 + x2 + x3) mod q |
| Codec.CodecAgreement | build.rs:67-240 | For every text the library's parser accepts, the build script reads the same circuit, no wire assertion fails, and decoding its bytes gives the library's circuit exactly when there is one gate per wire |
| Codec.DecodeEncode | src/circuit.rs:370-544 | Decoding an encoded circuit succeeds exactly when it is consistent, and gives it back with input positions and AND ids numbered in gate order |
| Codec.DecodedIsSound | src/circuit.rs:370-544 | Whatever the bytes, a decoded circuit has one gate per wire, everything in range, inputs listed, ANDs numbered and constants recorded |
| Codec.DecodesWholeFile | src/circuit.rs:370-544 | Only bytes with the magic and the version are decoded, and all of them are used |
| Codec.GateLayout | build.rs:184-247 | The bytes of every kind of gate |
| Codec.HeaderLayout | build.rs:184-247 | The bytes of the header |
| Bristol.Parse | src/circuit.rs:184-354 | The library's parser as loops; what it accepts and reads is fixed by the `Printer` rows below |
| Printer.ParsesPrinted | src/circuit.rs:184-354 | It reads every circuit within its limits back from the printed text, with either line ending |
| Printer.AcceptedIffPrintable | src/circuit.rs:184-354 | The circuits of accepted texts are exactly those: inputs first, gates in range, AND ids in order, outputs last, within all limits |
| Printer.ReadsGateLineIff | src/circuit.rs:287-343 | A gate line is read exactly as the grammar describes it |
| Printer.ReadsHeaderIff | src/circuit.rs:187-198 | So is the header line |
| Printer.ReadsInputsIff | src/circuit.rs:204-225 | So is the input line |
| Printer.ReadsOutputsIff | src/circuit.rs:232-243 | So is the output line |
| Printer.ReadsItsTexts | src/circuit.rs:188-203 | A number is read exactly from its decimal texts below the limit of its type |
| Printer.FirstBadLine | src/circuit.rs:287-343 | The error of the gate section names the first line that is no gate in range |
| Printer.ErrorKinds | src/circuit.rs:184-354 | Which texts are too large and which are unreadable |
| Bristol.ParseBristol | build.rs:67-182 | The build script's parser as loops; what it reads is fixed by the `Printer` rows |
| Printer.BuildParsesPrinted | build.rs:67-182 | It reads the same circuit from the printed text, up to what its format leaves out |
| Printer.BuildErrorKinds | build.rs:67-182 | It names the first section it cannot read |
| Printer.FirstBadBuildLine | build.rs:67-182 | It names the first gate line it cannot read, counting the lines of the file from one |
| Bristol.WordsOfSpaced | src/circuit.rs:188-196 | Splitting into words undoes joining |
| Bristol.LinesOfTerminated | src/circuit.rs:185-187 | Splitting into lines undoes both line endings |
| Compact.EncodeCompact | build.rs:184-247 | The bytes of the compact format; fails exactly at a wire above 24 bits |
| Compact.FromCompactBytes | src/circuit.rs:370-544 | The decoder's loops compute the specified circuit or fail |
| Compact.CompactReader.Read | src/circuit.rs:124-157 | A little-endian read moves the position, or fails at the end of the bytes |
| Compact.LeRoundTrip | build.rs:249-259 | Little-endian bytes give the number back |
| LabelPrfs.LabelPrf.Generate | src/utilities/label_prf.rs:69-112 | The chunked loop over a 32-bit counter yields byte 4 * word position + j of one stream with a 64-bit counter |
| LabelPrfs.LabelPrf.FillBytes | src/utilities/label_prf.rs:163-166 | The bytes, and the position moved on by whole words |
| LabelPrfs.LabelPrf.FromState | src/utilities/label_prf.rs:33-43 | Restoring a saved state changes nothing |
| LabelPrfs.ChunkIsStream | src/utilities/label_prf.rs:73-107 | A chunk that stops before the counter wraps is a stretch of the one stream |
| LabelPrfs.DrawsAreOneStream | src/utilities/label_prf.rs:69-118 | However a run is cut into draws, the bytes are consecutive and the final position depends on the total alone |
| LabelPrfs.KeystreamPeriodic | src/utilities/label_prf.rs:16-67 | Masking the word position to 68 bits loses nothing |
| LabelPrfs.StateWords | src/utilities/label_prf.rs:69-112 | The stream is that of a state with a 64-bit counter in words 12 and 13 and a 64-bit stream number in words 14 and 15 |
| StreamUse.WiresUse | src/functionality/input.rs:674-803 | The draws for one input wire are 52 bytes of the stream of their own |
| StreamUse.PadsUse | src/functionality/input.rs:854-946 | Those for one wire of the evaluator's input are 96 bytes of their own |
| StreamUse.SharesUse | src/functionality/b_to_y.rs:99-230 | Those for one bit to convert are 112 bytes of their own |
| StreamUse.WitnessesUse | src/functionality/y_to_b.rs:47-74 | The two witnesses of a revealed bit are 32 bytes of their own |
| StreamUse.ConstantUses | src/functionality/garble.rs:41-51 | A constant's false label is the next block of the stream with its low bit set |
| StreamUse.InputLabelsUse | src/functionality/input.rs:674-803 | The order of the returned false labels |
| StreamUse.TweaksApart | src/functionality/garble.rs:59-103 | Gate i hashes its operands under tweaks 2i and 2i + 1 alone, on both sides |
| Setup.GarblerDeltaAndPrf | src/functionality/setup.rs:30-48 | The offset comes from a stream seeded by bytes 0 to 31 of the key's stream, with its low bit set; bytes 32 to 63 seed the label stream; bytes 64 to 79 are the garbling key |
| Setup.ExpandsFromDisjointParts | src/functionality/setup.rs:30-48 | The same for the expansion as a function, which the session uses |
| Lockstep.RunBoth | src/functionality/input.rs:674-803 | Two garblers that start from equal states and run the same public sequence of functionalities end with equal false labels and generator states, whatever their private bits and received messages |
| Lockstep.Step | src/functionality/b_to_y.rs:99-230 | One functionality as run by either garbler, on its private data, has the effect named by its public parameters alone |
| Lockstep.RunAdvances | src/functionality/y_to_b.rs:47-74 | The final position of the generator and the shapes of all shares follow from the public sequence alone |
| Inputs.CreateMsg1 | crates/zcash/src/derivation_session/phases/batch_input_yao.rs:312-396 | The garbler's loops make the specified commitments and openings; shares and generator state do not depend on garbler or input |
| Inputs.CreateMsg2 | crates/zcash/src/derivation_session/phases/batch_input_yao.rs:398-462 | The garbler's loop for the evaluator's input; wrong length is refused before anything is drawn |
| Inputs.EvaluatorBits | crates/zcash/src/derivation_session/phases/batch_input_yao.rs:298-310 | The evaluator's input split by the pad |
| Inputs.ProcessMsg2Loop | crates/zcash/src/derivation_session/phases/batch_input_yao.rs:547-591 | The evaluator's checks of the second messages |
| Inputs.HonestMsg1 | src/functionality/input.rs:948-1002 | Two garblers in lockstep are accepted exactly when no wire's two commitments collide, and then the evaluator holds the labels of both inputs |
| Inputs.HonestMsg2 | src/functionality/input.rs:1020-1085 | Honest second messages are always accepted and give the labels of the evaluator's input, whatever the pad |
| Inputs.OneHonestMsg1 | crates/zcash/src/derivation_session/phases/batch_input_yao.rs:464-545 | With one honest garbler and no collision, the honest input is intact and the other's labels belong to the committed wires |
| Inputs.OneHonestMsg2 | crates/zcash/src/derivation_session/phases/batch_input_yao.rs:547-591 | With one honest garbler and no collision, an accepted message gives exactly the labels of the evaluator's own input |
| Inputs.PermuteOrders | crates/zcash/src/derivation_session/phases/batch_input_yao.rs:312-396 | The permute bit alone decides which commitment of a wire comes first |
| Inputs.EncodeBits | crates/zcash/src/derivation_session/phases/batch_input_yao.rs:664-672 | The bytes hold the bits, lowest first, and nothing else |
| Inputs.PackRoundTrip | crates/zcash/src/derivation_session/phases/batch_input_yao.rs:674-686 | Unpacking gives the bits back, and exactly which byte strings unpack to them |
| BinaryShares.CreateShareMsg | src/functionality/b_to_y.rs:99-230 | Both garblers' step-by-step draws give the specified message, label and generator state |
| BinaryShares.HonestBitToYao | src/functionality/b_to_y.rs:232-296 | From every replicated sharing the evaluator gets the label of the bit; no check fails |
| BinaryShares.OneHonestBitToYao | src/functionality/b_to_y.rs:232-296 | With one honest garbler and no collision, an accepted run gives the label of the shared bit whatever the other garbler sent |
| BinaryShares.CreateYaoMsg2 | src/functionality/y_to_b.rs:47-74 | Commitments to the two masked labels, ordered by the false label's low bit |
| BinaryShares.HonestYaoToBit | src/functionality/y_to_b.rs:80-232 | An honest run always verifies and ends in a consistent replicated sharing of the same bit |
| BinaryShares.OneHonestYaoToBit | src/functionality/y_to_b.rs:180-232 | With one honest garbler and no collision, whatever the other sent, an accepting evaluator holds a label of the wire, and the three shares are a replicated sharing of its bit |
| BinaryShares.ForeignShareRefused | src/functionality/y_to_b.rs:137-165 | Garbler 1 refuses a share made under another offset |
| BinaryShares.BitRoundTrip | src/functionality/y_to_b.rs:80-232 | Binary to Yao and back is a sharing of the same bit |
| BinaryShares.Garbler1AcceptsIff | src/functionality/y_to_b.rs:137-165 | Garbler 1 accepts exactly the labels of the masked wire, and its share follows from which one it is |
| Shamir.InterpolationExact | crates/sl-secret-sharing/src/shamir.rs:12-33 | Interpolation is exact for every polynomial of degree below the number of distinct points |
| Shamir.ReconstructIffCollinear | crates/sl-secret-sharing/src/shamir.rs:87-111 | Every party reconstructs exactly when the three shares are collinear, and all get the line's value at zero |
| Shamir.MasksOnALine | crates/sl-secret-sharing/src/shamir.rs:35-68 | The masks derived from a replicated sharing are a Shamir sharing of its sum |
| Shamir.ShamirToRss | crates/sl-secret-sharing/src/shamir.rs:70-85 | Masking, reconstructing and finalizing yields a cyclically consistent replicated sharing of the secret |
| PrimeField.InvertCorrect | crates/sl-secret-sharing/src/shamir.rs:6-10 | Inverses in the prime field, by the extended Euclidean algorithm |
| YaoToRss.GarbleGadget | crates/hd-migration/src/arith_gadget.rs:50-98 | The gadget's loop computes the specified ciphertexts and b |
| YaoToRss.EvaluateGadget | crates/hd-migration/src/arith_gadget.rs:101-129 | The evaluator's loop |
| YaoToRss.GetPubVecTimesA | crates/hd-migration/src/arith_gadget.rs:19-36 | The table of a * 2^i |
| YaoToRss.GadgetCorrect | crates/hd-migration/src/arith_gadget.rs:50-129 | For every number of positions the gadget evaluates to a * x + b |
| YaoToRss.DecodeCorrect | crates/hd-migration/src/arith_gadget.rs:132-142 | Decoding gives x mod q |
| YaoToRss.IndexApart | crates/hd-migration/src/arith_gadget.rs:50-129 | Position i uses the key derivation at index i alone |
| KeyPairs.HonestRun | crates/hd-migration/src/yao_to_rss.rs:311-746 | An honest run goes through exactly for usable random values (nonzero masks, no point that is the identity), and then ends in a consistent replicated key pair of x with public key x * G |
| KeyPairs.AcceptedSharesMatchKey | crates/hd-migration/src/yao_to_rss.rs:496-600 | Whatever the evaluator sends, two garblers that accept hold one public key and shares that add up to its secret key |
| KeyPairs.ShiftsMustMatch | crates/hd-migration/src/yao_to_rss.rs:529-546 | Whatever the evaluator adds to its two values, a garbler accepts only shifts in the ratio of the two masks, and with a right starred value only the public key of the number |
| KeyPairs.EvaluatorWithOneHonest | crates/hd-migration/src/yao_to_rss.rs:499-557 | With one honest garbler, an evaluator that finishes has the mask, key and points of the honest one, whatever the other sent at any step |
| KeyPairs.PointsAgreeIff | crates/hd-migration/src/yao_to_rss.rs:480-526 | The parties' points pass the checks exactly when they are one triple that adds up to the total |
| KeyPairs.UnmaskedSum | crates/hd-migration/src/yao_to_rss.rs:559-620 | The three unmasked outputs add up to the unmasked total |

## Left out

- Relay transport, message signing, tags, TTLs and async plumbing (`src/functionality/utils.rs`): replaced by messages in flight and a scheduler.
- Serialization of messages and sessions, zeroization, constant-time behaviour, secrecy.
- The bodies of AES, SHA-256, SHA-512, ChaCha8 and HMAC, and the BLAKE2b, SHA-512 and BIP-32 circuits: parameters.
- `DecodeOutputState::decode` beyond its length check: the curve code is one partial function of the bits.
- Share-kind panics (`as_garbler`, `as_evaluator`): garbler and evaluator labels have separate places in the states.
- Phase handlers are functions from context, phase and message to a result; the update in place of slots is the returned phase, also on errors. Aliasing is not modelled.
- Wire ids of built circuits are unbounded numbers: overflow of the builder's 32-bit counter is not modelled (`PrefixAdder.BuildPpaCircuit` proves it cannot occur for the adder); widths are below 2^16 as the builder's inputs require.
- A panic inside `garble_or_hash` for a circuit that does not fit is an error result; it cannot occur for the import circuit.
- `src/functionality/input.rs` also accepts first messages of unequal lengths by cutting to the shortest; the session's checked form is modelled, which agrees on well-formed messages.
- `input_yao_functionality` and `input_yao_from_functionality` (inputs known to both garblers, or of the evaluator alone), `output.rs`, and the batch form of the key-pair protocol: easy members next to the ones modelled.
- Abort messages in whole runs: handled in `Sessions.HandleAll`, but the runs of `Agreement` have none.
- `crates/zcash/src/dkg.rs` (key generation lives in an external crate) and `crates/zcash/verify.py` (generator of the BLAKE2b circuit text).
- KeyPairs.HonestRun: both garblers draw one tape, as they hold the same generator state (`Lockstep.RunBoth`); different tapes are not modelled.
