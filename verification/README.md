# Verified model of the open rig programmer

This project models three parts of the open rig programmer and proves properties
of them in Dafny 4.11. `dafny verify dfyconfig.toml` checks all of it.

**The GUI controller's concurrency (`app/`).** `App` guards a handful of fields
with one mutex and holds it only for short sections; radio, file and port work
runs outside it. `AppSections` gives each section as a function on the guarded
fields. `Controller` is the controller itself, an object whose methods are those
sections, each proved to do what its function says, and `Simulation` drives that
object through the states of `Protocol`, event by event. `Protocol` interleaves them:
any number of calls, each at a program counter, one section or one piece of slow
work (with an arbitrary outcome) at a time, with a record beside it of what was
reserved, opened, closed and executed. `Reservation`, `CloneAttempts`, `Sends`,
`Resources`, `Contents`, `Exclusion` and `OpenPorts` hold the invariants, a group of
steps at a time; `Interleavings` puts them together and `Guarantees` states what holds
of every run. `FieldWrites` says of any event what it writes, field by field,
`CallCourses` how a call is refused, enters and stores, `Preparations` what a plan was
prepared from.
`DoubleRelease` shows what happens without the front end's rule on clone-mode
reads. `CodeplugHeap`, `BatchEdits`, `Merges` and `CopySeparation` are the copying
loops, the batches of edits, the imports and the two codeplugs as heap objects.

**The CAT dialect codec (`cat/`).** `Wire` has bytes and decimal fields,
`FrameStream` the `;` reassembler, `SlotSpaces` the slot rules and the classifier,
`ExAddresses` and `ExValues` the menu addresses and their values, `FrameRules` and
`Dialects` the construction of a dialect from a configuration, `Radios` the registered
radios' own, `ExGate`, `ExSettable`, `MemoryChannels` and `SlotGate` the builders and the
outbound gate command by command, `WholeGate` all of it at once.

**The binary CAT framing (`bincat/`).** `WantQueue` is the reassembler that cuts
replies by a queue of expected lengths, `WantLedger` which request each reply
answers, `Profiles` the per-radio data, gate and adapter, `CommandGate` what that gate
admits and what the commands ask for, `Bcd` the packed decimal fields.

## What was found

- A `CancelCloneRead` or a second `ReceiveCloneImage` that overlaps a
  `ReceiveCloneImage`, wherever that is, releases the reservation, and the receive
  releases it again; the second release is of the next operation's reservation
  (`DoubleRelease.OverlapReleasesTwice`, from every such state). A receive of an
  attempt that is not armed yet, whose arming then fails, does the same
  (`DoubleRelease.UnarmedReleasesTwice`). The rule that excludes all three is exactly
  what is needed (`Guarantees.DisciplineIsExact`).
- `SaveFile` compares a 64-bit counter: a save outlived by exactly 2^64 changes
  ends clean with a content that is in no file (`Contents.SaveOutlivedByEdits`);
  `Contents.CleanExactly` says of every schedule when that happens.
- The slot rules accept a one-digit PMS token on five-byte slots, and a dash token
  on three-byte ones, though the forms they print cannot then be classified
  (`SlotSpaces.PmsWiresAreExact`, `SlotSpaces.TokenOnFiveBytesIsAccepted`).
- On such five-byte slots the classifier looks at three bytes of a token: "P1L" and
  any two bytes more are a PMS slot, `;` included, and so readable and writable. The
  read of "P1L;;" is built and its own gate refuses it; elsewhere gate and builder
  agree on every read (`SlotGate.ReadsExactlyWhatIsAdmitted`,
  `SlotGate.EndInsideSlotIsBuilt`).
- The EX write rule does not bound an observed Set width by the chart, so a dialect
  can build Sets its own gate refuses; it admits every Set exactly when no row that
  holds a value is wider than the widest digits of the chart
  (`ExSettable.EverySetIsAdmittedExactly`, `ExSettable.ObservationWiderThanChart`).
- The EX write rule computes a power of ten that wraps: in an unsigned field of
  nineteen digits it refuses every value, and it lets a signed range start at the least
  integer in a field too narrow for that, which then cannot be set
  (`ExValues.JudgementIsExact`, `ExValues.NineteenDigitsAreRefused`,
  `ExValues.LeastIntegerIsAccepted`, `ExSettable.EveryValueIsSettable`).
- `Contains` measures from the low end in 64-bit arithmetic: in a range of 2^63 or more,
  which the rules let pass in a signed field of 21 bytes, a value on a step may be
  missed (`ExValues.ContainsExactly`, `ExValues.StepIsMissed`).
- The FT-890's repeater offset is sent last digits first, but its gate bounds the byte
  that holds them, so an offset whose last two digits are above 2 is built and refused
  (`CommandGate.BuildOffset`).
- The MC gate fixes its frame at six bytes, so on five-byte slots it refuses what
  the builder builds (`SlotGate.BuildsExactlyWhatIsAdmitted`,
  `MemoryChannels.FiveByteSlotsDisagree`).
- The binary accumulator tolerates a want one above its bound, not more
  (`WantQueue.ChunkingNeverMatters`), and `cancelLastWant` undoes a `noteWant` only
  under the condition `WantQueue.CancelUndoesNote` states.

## Model

| member | source | states |
|---|---|---|
| Controller.App.constructor | app/app.go:167-175 | a new controller is disconnected, empty, idle and clean |
| Controller.App.CheckNotBusyLocked | app/reservation.go:38-46 | refuses for a held reservation first, then for a running send |
| Controller.App.ReserveOpLocked | app/reservation.go:60-66 | takes the reservation when free, looking at no send; otherwise names its holder and changes nothing |
| Controller.App.ReleaseOpLocked | app/reservation.go:71-75 | clears the reservation and nothing else |
| Controller.App.BumpWorkingRevLocked | app/app.go:224-226 | the revision moves by one in 64-bit arithmetic, and nothing else changes |
| Controller.App.StartReadRadio | app/codeplug.go:42-52 | needs a connection, then the reservation; gives the session it found |
| Controller.App.StoreRead | app/codeplug.go:61-69 | both copies take the content read, the revision moves, path, dirty and stale flags are reset |
| Controller.App.UpdateChannels | app/codeplug.go:181-191 | busy, nothing loaded and unknown slot refuse without change, in that order; otherwise edited, dirty and one revision on |
| Controller.App.StartReadSettings | app/settings.go:188-204 | needs a connection, a working copy, then the reservation |
| Controller.App.StoreSettings | app/settings.go:217-223 | the merged content is dirty and one revision on |
| Controller.App.StartWriteSetting | app/settings.go:308-319 | needs a connection and the reservation, but no working copy |
| Controller.App.StartSave | app/fileio.go:31-45 | refuses an empty path, busy and nothing loaded, in that order; gives the snapshot with the revision it stands for |
| Controller.App.StoreSaved | app/fileio.go:51-63 | records the path, and clears dirty only when the revision is the snapshot's |
| Controller.App.StoreLoaded | app/fileio.go:156-166 | re-checks busy, then replaces the working copy only, clean and one revision on |
| Controller.App.StartImport | app/importexport.go:34-44 | refuses while busy, then with nothing loaded |
| Controller.App.StoreImported | app/importexport.go:99-134 | re-checks busy and loaded; a refused merge changes nothing, an accepted one is dirty and one revision on |
| Controller.App.StartConnect | app/connection.go:152-161 | refuses when connected, then when a send is running |
| Controller.App.StoreConnection | app/connection.go:202-210 | installs the session unless another connect won, and then changes nothing |
| Controller.App.StartDisconnect | app/connection.go:247-263 | refuses while busy; otherwise drops connection and plan together and hands out the session |
| Controller.App.StartPrepareSend | app/send.go:218-237 | needs a connection, a working copy, no running send, then the reservation; gives the session and the working copy's content |
| Controller.App.StorePrepared | app/send.go:245-247 | the plan becomes the current plan |
| Controller.App.StartConfirmSend | app/send.go:310-337 | takes the transfer slot in the section that checks it, before looking at connection or plan |
| Controller.App.ReleaseTransferLocked | app/send.go:339-343 | gives the transfer slot back and nothing else |
| Controller.App.StoreCancel | app/send.go:358-361 | the running transfer gets its cancel function |
| Controller.App.CompleteSend | app/send.go:375-385 | transfer and plan are cleared, the baseline marked stale when the radio was touched |
| Controller.App.StartCancelTransfer | app/send.go:400-408 | refuses unless a transfer with a cancel function is running |
| Controller.App.StartArm | app/clone.go:87-94 | a fresh attempt is published in the section that takes the reservation |
| Controller.App.AbandonCloneArm | app/clone.go:136-146 | clears the attempt and must release, unless a cancel did both |
| Controller.App.StartCancelClone | app/clone.go:179-188 | marks the attempt cancelled, clears it and hands out its port, or refuses |
| Controller.App.StartReceive | app/clone.go:219-224 | gives the published attempt or refuses |
| Controller.App.ClearReceived | app/clone.go:227-229 | clears the attempt and nothing else |
| Controller.CloneReadState.PublishClonePort | app/clone.go:151-159 | the port is recorded unless the attempt is cancelled |
| Controller.CloneReadState.PublishCloneReception | app/clone.go:163-171 | the reception handle is recorded unless the attempt is cancelled |
| Simulation.Driver.Perform | app/app.go:71-89 | executed by the controller's own methods, any event takes the objects to the state the interleaving model takes it to |
| Simulation.Driver.PerformAll | app/app.go:71-89 | so, whatever the schedule, fields, attempts and calls end as in the state the model reaches |
| CallCourses.ReasonIsReported | app/reservation.go:28-66 | every call reports the first of its reasons to refuse, in the source's order, and none when it has none |
| CallCourses.LateReasonIsReported | app/fileio.go:156-160 | a load or an import that comes back is refused for the reasons it would be refused for at the start |
| CallCourses.CallsEnterExactly | app/send.go:217-237 | in every reachable state a call goes on if and only if it has no reason to refuse, with the session, snapshot, revision, plan or attempt it found |
| CallCourses.SuccessIsStored | app/send.go:239-247 | slow work reaches its storing section, with what came of it, if and only if it succeeds, and otherwise gives up what it held; a send needs session, plan and digest |
| FieldWrites.EachFieldIsWritten | app/app.go:71-140 | for any event in any state each guarded field ends as its own few writers leave it: contents by loads, reads, edits and merges, dirty, path, revision and stale flags with them, connection, plan, transfer, reservation and attempt by theirs |
| Guarantees.ReservationsAlternate | app/reservation.go:60-75 | in every run reservations and releases alternate, each release that of the reservation before it, and `opBusy` is set exactly in between |
| Guarantees.OneOperationAtATime | app/reservation.go:50-66 | at most one call owes a release, and it is of the latest reservation |
| Guarantees.ReservationIsOwned | app/clone.go:72-85 | a held reservation always has someone left to release it: a call, or an attempt armed or still being armed |
| Guarantees.DisciplineIsExact | app/clone.go:178-230 | after any event in any reachable state there is one owner and receives are armed if and only if the event keeps the front end's rule |
| DoubleRelease.OverlapReleasesTwice | app/clone.go:178-230 | from every reachable state with a receive in progress, at any point of it, a cancel or another receive of its attempt leads to two releases of one reservation and none of the next |
| DoubleRelease.UnarmedReleasesTwice | app/clone.go:86-146 | from every reachable state with an arm in progress that can still fail with its port open, a receive of its attempt and then that failure lead to the same |
| Interleavings.InvPreserved | app/app.go:71-89 | every event that keeps the rule preserves all the invariants together |
| Interleavings.Reachable | app/app.go:71-89 | so they hold in every reachable state |
| Reservation.OpsKept | app/reservation.go:60-75 | a move that keeps, takes, inherits or releases the reservation preserves the record and its single owner |
| CloneAttempts.PortPublished | app/clone.go:106-112 | publishing the port, or finding the attempt cancelled, keeps every attempt answered for |
| CloneAttempts.ArmAbandoned | app/clone.go:136-149 | an abandoned arm hands the reservation to exactly one releaser, whichever of arm and cancel came first |
| CloneAttempts.CancelStarts | app/clone.go:178-190 | a cancel at any point of the arm takes the reservation over from the attempt |
| Guarantees.OneExecute | app/send.go:309-340 | at most one plan executes, on the session it captured, which with the plan is still the controller's |
| Guarantees.ExecuteIsUndisturbed | app/send.go:364-385 | until its completion section no event moves connection or plan of an executing call |
| Guarantees.PlansFitAndRunOnce | app/connection.go:253-258 | a stored plan was prepared on the current session, and no plan is executed twice |
| Guarantees.TransferIsItsOwners | app/send.go:283-297 | no other call, a losing or failing ConfirmSend included, changes the transfer of the call that holds it |
| Guarantees.CancelEndsTheFlyingPlan | app/send.go:399-409 | CancelTransfer finds something to cancel if and only if a plan is executing, and what it cancels is that plan |
| Sends.PrepareSteps | app/send.go:239-247 | a plan stored by PrepareSend is fresh and on the current session, since nothing disconnects meanwhile |
| Preparations.SnapshotIsTheWorkingCopy | app/send.go:236-239 | in every run, for as long as a plan is being prepared, what it is prepared from is the content of the working copy |
| Preparations.PlanIsStoredInTime | app/send.go:245-247 | the section that stores a plan leaves it current with the working copy at the content it was prepared from |
| Preparations.ExecutedWasTheWorkingCopy | app/send.go:198-212 | a plan that executes was at some moment of the run the current plan with the working copy at its content |
| Sends.SessionInstalled | app/connection.go:202-210 | a session installed by a connect meets no plan and no send that captured another |
| Guarantees.SessionsAreConserved | app/connection.go:182-210 | every session opened is current, in one call's hands, or closed exactly once |
| Guarantees.SessionsAreNotShared | app/connection.go:202-209 | no two calls hold the same session |
| Guarantees.PortsAreClosed | app/clone.go:101-124 | once an attempt is over and its calls have returned, every port it opened is closed |
| OpenPorts.ArmedPortIsOpen | app/clone.go:101-124 | the port of an armed attempt is there and open until the call receiving it has closed it |
| Guarantees.QuietMeansFree | app/clone.go:77-85 | with no call left and nothing armed, nothing is reserved or running, ports are closed and sessions current or closed once |
| Exclusion.OnlyTheHolderEdits | app/reservation.go:28-46 | while anything is reserved or a send runs, only the one holder of the latest reservation can change the working copy |
| Exclusion.RadioIsNotPulledAway | app/connection.go:238-251 | a call talking to the radio has the current session, and nobody has closed it |
| Contents.ContentPreserved | app/app.go:107-116 | every event but a save finishing on a reused revision over an unsettled copy keeps clean content settled and snapshots tied to their revisions |
| Contents.CleanExactly | app/fileio.go:47-63 | along any schedule clean content is always that of a radio read, clone receive, file load or completed save if and only if no save finishes on a reused revision over an unsettled copy |
| Contents.CleanIsSettled | app/fileio.go:51-63 | in every state reached without a save outlived by 2^64 changes that holds, and the baseline is such a content too |
| Contents.ChangeDuringSaveStaysDirty | app/fileio.go:53-62 | a working copy that changed while its snapshot was written is not marked clean by that save |
| Contents.FinishingSaveIsClean | app/fileio.go:60-62 | a finishing save leaves that true if and only if nothing changed, the changes are no multiple of 2^64, or the content is settled anyway |
| Contents.SaveOutlivedByEdits | app/fileio.go:47-62 | a run of exactly 2^64 edits during a save ends clean and in no file |
| Contents.BaselineComesFromRadio | app/codeplug.go:61-64 | only the storing sections of ReadRadio and ReceiveCloneImage replace the baseline |
| CodeplugHeap.CopyChannelData | app/convert.go:107-113 | nil stays nil, data is copied to a new object |
| CodeplugHeap.CopyChannels | app/convert.go:117-123 | a new slice of new data objects, no two shared, with the same contents |
| CodeplugHeap.DeepCopyCodeplug | app/convert.go:202-216 | every object of the copy is new and its contents are the source's |
| BatchEdits.PlacedAt | app/codeplug.go:128-144 | a slot ends with its last edit at its last index, and every other element is untouched |
| BatchEdits.BuildIndex | app/codeplug.go:128-131 | the index maps a slot to the last element that carries it |
| BatchEdits.KnownSlots | app/codeplug.go:132-136 | a batch passes only if every slot is in the inventory |
| BatchEdits.PlaceEdits | app/codeplug.go:142-144 | the channels written in place are those of the batch applied in order |
| BatchEdits.NormaliseTierFields | core/codeplug/file.go:985-1006 | each data object is normalised once for every channel that refers to it, in order, and nothing else changes |
| BatchEdits.PassedOnce | core/codeplug/file.go:989-1005 | a data object that one channel refers to is normalised once, for that channel's slot |
| BatchEdits.ApplyEdits | app/codeplug.go:127-152 | all of the batch then normalisation, or on an unknown slot nothing at all |
| Merges.JudgeCsv | internal/csvmerge/csvmerge.go:71-93 | a CSV is refused unless it has exactly the slots of the target, naming those missing and those extra |
| Merges.JudgeChirp | internal/csvmerge/csvmerge.go:139-168 | unknown slots refuse first, then repeated ones, each naming all of them |
| Merges.CsvVerdictExactly | internal/csvmerge/csvmerge.go:71-93 | a CSV is accepted if and only if every slot is in both or in neither, and the two sets named are what each side lacks |
| Merges.ChirpVerdictExactly | internal/csvmerge/csvmerge.go:139-168 | a CHIRP file is accepted if and only if every slot is known and none is in two rows; the sets named are exactly the unknown or the repeated slots |
| Merges.MergeChirp | internal/csvmerge/csvmerge.go:139-174 | a refused merge writes nothing, an accepted one writes the rows by slot |
| Merges.ChirpPlacesEveryRow | internal/csvmerge/csvmerge.go:129-138 | in an accepted merge no row is lost to another, and slots without a row are untouched |
| CopySeparation.Copies.StoreFromRadio | app/codeplug.go:61-64 | the working copy shares no object with the new baseline, which keeps its contents |
| CopySeparation.Copies.StoreLoaded | app/fileio.go:161-164 | a load replaces the working copy and keeps the copies apart |
| CopySeparation.Copies.Snapshot | app/fileio.go:43-45 | the snapshot has the working copy's contents and none of its objects |
| CopySeparation.Copies.StoreMenus | app/settings.go:217-220 | only the working copy's menus change, in no snapshot and not in the baseline |
| CopySeparation.Copies.UpdateChannels | app/codeplug.go:127-152 | a batch edits the working copy alone: no object of a snapshot is written and the baseline keeps its contents |
| CopySeparation.Copies.ImportCsv | app/importexport.go:111-130 | an accepted CSV replaces the working copy's channels, normalised and reopened, and reaches no snapshot and not the baseline |
| CopySeparation.Copies.ImportChirp | app/importexport.go:206-211 | an accepted CHIRP file writes its rows into the working copy in place, and reaches no snapshot and not the baseline |
| FrameStream.SplitConserves | core/cat/frame.go:20-28 | every byte is in exactly one frame or in the rest, which holds no terminator |
| FrameStream.SplitFramesAreWhole | core/cat/frame.go:16-28 | each frame ends in its only terminator |
| FrameStream.FrameAccumulator.constructor | core/cat/accumulator.go:29-34 | a bound that is not positive becomes 256 |
| FrameStream.FrameAccumulator.Push | core/cat/accumulator.go:72-95 | one push is one scan of what was retained and the chunk; the retained buffer has no terminator and fits the bound |
| FrameStream.CleanScanConserves | core/cat/accumulator.go:72-95 | without a violation frames and buffer are the bytes |
| FrameStream.ViolationConserves | core/cat/accumulator.go:79-91 | with one the frames are a prefix of the bytes and the reported loss is all the others |
| FrameStream.ScanFramesAreWhole | core/cat/accumulator.go:47-53 | no frame handed out exceeds the bound or lacks its terminator |
| FrameStream.ChunkingNeverMatters | core/cat/accumulator.go:36-72 | any chunking gives the frames of one push of the whole up to the first violation, and a violation if and only if the whole has one |
| Wire.RenderWidth | core/cat/dialectvalidate.go:80-89 | zero padding is a minimum: the field has its width exactly when the number fits it |
| Wire.RenderReadsBack | core/cat/exinventory.go:228-233 | a rendered number reads back as itself |
| Wire.ValueRendersBack | core/cat/exinventory.go:228-233 | a digit field is the rendering of its value |
| SlotSpaces.MaxSlotDecimalFor | core/cat/dialectvalidate.go:65-71 | ten to the digits, less one |
| SlotSpaces.ClassifySlot | core/cat/dialect.go:654-721 | the scanning classifier computes the classification function |
| SlotSpaces.ArmsAreDisjoint | core/cat/dialect.go:654-721 | under the rules at most one of the seven arms holds of a wire form |
| SlotSpaces.RulesAreExact | core/cat/dialectvalidate.go:404-561 | given rules on each part, the overlap and shadowing rules pass a slot space if and only if no wire form has two arms |
| SlotSpaces.ArmGivesKind | core/cat/dialect.go:654-721 | so an arm that holds decides the kind, whatever order the arms are tried in |
| SlotSpaces.KindHasArm | core/cat/dialect.go:654-721 | and a form has a kind only if an arm of that kind holds |
| SlotSpaces.PairBoundIsExact | core/cat/dialectvalidate.go:293-312 | the division test on machine integers accepts a pair count exactly when the last number is at most 999 over the integers |
| SlotSpaces.FormIsExact | core/cat/dialectvalidate.go:284-345 | numeric pairs pass if and only if they start from 1 on, are one at least and end by 999; token and dash forms if and only if they declare no start, no form if and only if there are no pairs |
| SlotSpaces.PairCapIsExact | core/cat/dialectvalidate.go:225-262 | a count passes if and only if the dialect does not cut it short, for tokens if and only if it prints in one digit, for dash tokens if and only if it is at most 50 |
| SlotSpaces.RangeIsExact | core/cat/dialectvalidate.go:457-478 | a range passes if and only if it is none, or in order, not only zero, and its end prints in the slot's digits |
| SlotSpaces.IntervalsCoincide | core/cat/dialect.go:620-650 | accepted pair counts are never clamped, and configuration and dialect compute the same interval without wrapping |
| SlotSpaces.MemorySlotsAreExact | core/cat/slot.go:111-124 | memory channel numbers and memory wire forms correspond one to one |
| SlotSpaces.SixtySlotsAreExact | core/cat/slot.go:177-183 | 60m channel numbers and 60m wire forms correspond one to one |
| SlotSpaces.EmgSlotIsExact | core/cat/slot.go:188-193 | the emergency slot is the one form classified as such |
| SlotSpaces.PmsWiresAreExact | core/cat/dialect.go:689-721 | the forms classified as PMS are exactly the printed ones if and only if the form is as wide as the slots |
| SlotSpaces.TokenOnFiveBytesIsAccepted | core/cat/dialectvalidate.go:284-342 | a configuration passes every slot rule with a form that does not fit |
| SlotSpaces.PmsWiresAreDistinct | core/cat/slot.go:138-164 | different pairs have different wire forms |
| SlotSpaces.PmsWiresInOrder | core/cat/slot.go:138-164 | numeric pairs are consecutive numbers, lower edge first; the other forms spell the pair and then the edge |
| ExAddresses.ValidateItems | core/cat/dialectvalidate.go:581-616 | the loop accepts exactly inventories with components in bounds, no repeats and digits of 1 to 247 |
| ExAddresses.BuildMembers | core/cat/dialect.go:402-408 | the index holds exactly the inventory's addresses |
| ExAddresses.BuildByTriple | core/cat/dialect.go:415-421 | lookup by triple finds exactly the members |
| ExAddresses.RenderThenParse | core/cat/exinventory.go:187-225 | a member fills the address field exactly and parses back to itself |
| ExAddresses.ParseThenRender | core/cat/exinventory.go:187-225 | what parses is a member that renders back to the same field |
| ExAddresses.BoundIsExact | core/cat/dialectvalidate.go:73-112 | of the members the form rule accepts, exactly those within the component bounds survive rendering and parsing |
| ExAddresses.SurvivesExactly | core/cat/dialectvalidate.go:892-913 | under any form at all a member survives rendering and parsing if and only if the form writes all of it and each component is within its bound |
| ExValues.ExValueFits | core/cat/dialectvalidate.go:690-707 | the loop decides what 64-bit arithmetic makes of the question whether a value prints in the width |
| ExValues.JudgementIsExact | core/cat/dialectvalidate.go:688-707 | for every value and width, when that is the right answer: in a field of at most eighteen digits for any value but the least integer, in a wider one where the wrapped power still exceeds the value |
| ExValues.NineteenDigitsAreRefused | core/cat/dialectvalidate.go:702-706 | in an unsigned field of nineteen digits no value is judged to fit, though every one does |
| ExValues.LeastIntegerIsAccepted | core/cat/dialectvalidate.go:678-684 | a row passes whose range starts at the least integer in a field of three bytes |
| ExValues.ContainsExactly | core/cat/domain.go:32-46 | for every domain and value, contained means listed as a code or, as 64-bit arithmetic measures it, a whole number of steps above the low end and within the range |
| ExValues.NarrowRangeSteps | core/cat/domain.go:41-45 | in a range of less than 2^63 those are the low end plus a natural multiple of the step, up to the high end |
| ExValues.BetweenSteps | core/cat/domain.go:16-19 | a value strictly between two neighbouring steps of such a range is contained if and only if it is a code |
| ExValues.StepIsMissed | core/cat/dialectvalidate.go:678-684 | a row passes the rules whose range is wider, and a value on one of its steps is not contained |
| ExValues.ValidCodeExactly | core/cat/dialectvalidate.go:664-676 | a code passes if and only if it is not negative, on no step of the range, and judged to fit |
| ExValues.RowRulesMean | core/cat/dialectvalidate.go:628-686 | a row that passes lists each value once and none on a step, has a value, a range in order or none, and on paper no observation but digits |
| ExValues.AcceptsExactly | core/cat/ex.go:114-142 | a P4 is accepted if and only if it has the width, the shape and a digit, and what it spells is a code or on a step |
| ExValues.ValidateCodes | core/cat/dialectvalidate.go:664-676 | codes are distinct, not negative, outside the range's steps, and judged to fit |
| ExValues.ValidateRows | core/cat/dialectvalidate.go:628-686 | the loop accepts exactly the well-formed write tables |
| ExValues.EveryValueCanBeSet | core/cat/ex.go:114-142 | each value of a valid row has a P4 of exactly its width that the Set predicate accepts, if and only if the range does not start at the least integer in a field too narrow for it |
| ExValues.RenderP4Decodes | core/cat/ex.go:100-142 | the rendering of a value has the width and shape and decodes to it |
| ExValues.FormsAreUnique | core/cat/ex.go:111-142 | two accepted forms of one value are the same, except the two of a signed zero |
| ExValues.BothZerosAreAccepted | core/cat/domain.go:16-19 | both signed zeros are accepted when one is |
| Dialects.MaxEXP4Bytes | core/cat/dialect.go:439-447 | the widest digits of the inventory, zero for an empty one |
| Dialects.BuildConfigExWrite | core/cat/dialect.go:383-399 | each row enters the table with its observed width, or on paper with its chart digits |
| Dialects.RowsAreInTable | core/cat/dialect.go:383-399 | a row's address has that row's domain and width |
| Dialects.TableHasOnlyRows | core/cat/dialect.go:383-399 | an entry comes from a row |
| Dialects.ValidateModeNames | core/cat/dialectvalidate.go:201-225 | modes are there, have wire bytes and non-empty names, and names are invertible |
| Dialects.ModesInvertExactly | core/cat/dialect.go:328-334 | a mode table passes if and only if it has modes, wire bytes and names, and each mode can be found by its name |
| Dialects.NewDialect | core/cat/dialectconfig.go:820-870 | gives the dialect of a configuration that passes every rule, and otherwise the first rule that fails, in the order they run |
| Dialects.EveryRuleIsRun | core/cat/dialectvalidate.go:125-151 | the order leaves no rule out |
| Dialects.EnumeratedRulesAreExact | core/cat/dialectvalidate.go:841-1035 | the rules on declared values refuse what is omitted or names no value, and nothing else; the write kinds are '0' to '3' and '5' |
| FrameRules.MtDeclaresWhatIsWritten | core/cat/dialectvalidate.go:722-808 | an MT policy passes if and only if it declares the bytes its form writes, all printable, and none that it does not |
| FrameRules.ClarifierReachesItsBound | core/cat/dialectvalidate.go:810-833 | a clarifier passes if and only if step and bound print in four digits and the bound is a natural multiple of the step |
| FrameRules.ShapeIsItsFields | core/cat/dialectvalidate.go:978-1020 | a frame length passes if and only if it is sixteen bytes more than slot and frequency |
| Radios.RadiosAreValid | core/cat/dialectvalidate.go:125-151 | the configurations of the FT-710, FT-891, FT-991A, FTdx10 and FTX-1, menus apart, pass every rule |
| ExGate.BuildEXRead | core/cat/ex.go:77-93 | the read frame of a member, and nothing for another address |
| ExGate.BuildEXSet | core/cat/ex.go:185-196 | the set frame of an address and a value that is accepted for it, and nothing else |
| ExGate.ReadsAreAdmitted | core/cat/allowlist.go:465-469 | the gate admits every read of a member |
| ExGate.SetsAreAdmittedIfNarrow | core/cat/allowlist.go:465-475 | a Set that builds is admitted if and only if its P4 is no wider than the widest digits of the chart |
| ExGate.AdmittedIsBuilt | core/cat/allowlist.go:104-140 | any EX frame admitted is the read of a member or a Set that builds |
| ExGate.AnswerParsesExactly | core/cat/ex.go:281-307 | an answer parses to an address and its P4, byte for byte, if and only if it is the frame of a member, settable or not, with a P4 no wider than the chart |
| WholeGate.AdmittedExactly | core/cat/allowlist.go:104-180 | for every frame and any dialect with sound tables: admitted if and only if the dialect is configured and the frame is one of eight requests it can make, spelled out literally, or a well-formed memory frame that passed its own judgement |
| WholeGate.BuiltAdmitsExactly | core/cat/allowlist.go:104-180 | the same for every dialect built from a valid configuration |
| WholeGate.NothingElseIsAdmitted | core/cat/allowlist.go:105-132 | no frame under another name, and none at all for a dialect without identity or modes |
| ExGate.MatcherAttributesExactly | core/cat/matcher.go:43-53 | a matcher for one member's full wire never passes another member's answer |
| ExGate.MatcherPassesExactly | core/cat/matcher.go:43-53 | of the answers of members it passes exactly that member's, of the given length if one is given |
| ExGate.DigitsFillTheFrame | core/cat/dialectvalidate.go:572-616 | the ceiling of 247 digits is exactly what the stream's default bound of 256 leaves beside a triple address |
| ExGate.IdentityFillsItsAnswer | core/cat/id.go:34-45 | an identity passes if and only if it is printable and the ID answer made of it parses to it |
| ExSettable.EveryValueIsSettable | core/cat/dialectvalidate.go:618-686 | each value of a row with a width can be set in a P4 of that width that decodes to it, if and only if the row's range has a sound low end |
| ExSettable.SoundRowHolds | core/cat/dialectvalidate.go:644-650 | such a row has a value that can be written in its width |
| ExSettable.CanSetExactly | core/cat/ex.go:144-157 | a row's address counts as settable if and only if some Set of it builds, where the row's low end is sound |
| ExSettable.TableIsItsRows | core/cat/dialect.go:383-399 | in a built dialect a row's entry has its own domain and its observed width, or on paper the digits of the item at its address |
| ExSettable.EverySetIsAdmittedExactly | core/cat/ex.go:170-196 | the gate admits every Set the builder builds if and only if no row that holds a value is wider than the chart |
| ExSettable.PaperIsNeverWider | core/cat/dialect.go:388-394 | widths taken from the chart always satisfy that |
| ExSettable.ObservationWiderThanChart | core/cat/dialectvalidate.go:653-663 | a valid configuration whose Sets are built and refused |
| ExSettable.FilterEXWrite | core/cat/exdenylist.go:156-184 | fails exactly on a held address or a row outside the inventory; else gives the kept rows |
| ExSettable.SurvivorsAreKept | core/cat/exdenylist.go:168-184 | the rows kept are the input's, in order and each once: exactly those whose item is not denied, whose address is not held, and whose range is malformed or domain has a value |
| ExSettable.SurvivorsAreSettable | core/cat/exdenylist.go:150-184 | in a dialect built from filtered rows every value of a surviving row with a width and a sound low end can be set |
| ExSettable.DroppedIsNeverSettable | core/cat/exdenylist.go:150-184 | a denied or held address of a dialect built from filtered rows has no value that builds and no frame admitted but its read |
| ExSettable.BuildFT710ExWrite | core/cat/dialect.go:360-376 | the built-in table drops unknown and denied rows and keeps the others' widths |
| ExSettable.Ft710TableExactly | core/cat/dialect.go:360-376 | an address is in the built-in table if and only if it has a row and an item that is not denied |
| ExSettable.Ft710TableTakesRows | core/cat/dialect.go:360-376 | and then its entry has the domain and the observed width of its last row |
| ExSettable.Ft710DeniedIsNeverSettable | core/cat/dialect.go:346-376 | a denied address cannot be set through the built-in table, by builder or gate |
| MemoryChannels.BuildMCSet | core/cat/mc.go:132-170 | builds exactly for the send domain, and otherwise gives the first of four refusals that applies |
| MemoryChannels.SendWithinParse | core/cat/mc.go:55-112 | the send domain is within the read domain under every policy |
| MemoryChannels.SendableExactly | core/cat/mc.go:55-112 | some channel can be sent if and only if the policy's domain has a memory range, PMS pairs it can spell, a 60m range or an emergency form |
| MemoryChannels.BuilderAndGateAgree | core/cat/allowlist.go:407-427 | builder and gate agree on every slot if and only if slots are three bytes wide or the configuration has nothing to send |
| MemoryChannels.FiveByteSlotsDisagree | core/cat/mc.go:7-9 | a valid five-byte dialect builds a frame its gate refuses |
| MemoryChannels.AnswerRoundTrip | core/cat/mc.go:190-215 | the answer naming a sendable slot parses to that slot |
| MemoryChannels.AnswerIsItsSlot | core/cat/mc.go:190-215 | an answer that parses is the frame of the slot it gives |
| MemoryChannels.AnswerParsesExactly | core/cat/mc.go:190-215 | whatever the send policy, an answer parses to a slot if and only if MC is supported, slots are three bytes, and it is the frame of a form of that slot's kind; the refusal for no channel is told apart |
| SlotGate.SetIsAdmittedExactly | core/cat/allowlist.go:407-427 | the whole gate admits the MC set of a wire form if and only if the builder builds it and slots are three bytes wide |
| SlotGate.BuildsExactlyWhatIsAdmitted | core/cat/allowlist.go:407-427 | so gate and builder agree on every MC set if and only if slots are three bytes wide or the configuration has nothing to send |
| SlotGate.AdmittedMcIsBuilt | core/cat/allowlist.go:104-134 | an MC frame admitted is the read request or such a set |
| SlotGate.BuildMRRead | core/cat/mr.go:23-32 | the read frame of a readable slot and nothing else |
| SlotGate.ReadIsAdmittedExactly | core/cat/allowlist.go:95-142 | the gate admits the MR read of a wire form if and only if it is readable and has no `;` in it |
| SlotGate.ReadsExactlyWhatIsAdmitted | core/cat/dialect.go:689-704 | so gate and builder agree on every MR read if and only if the configuration has no token pairs on five-byte slots |
| SlotGate.EndInsideSlotIsBuilt | core/cat/dialect.go:699-704 | a configuration that passes every rule, in which "P1L;;" is readable and writable and its read is refused by the gate |
| Bcd.EncodeBCD | core/bincat/bcd.go:27-42 | succeeds if and only if the width is 1 to 9 and the value below 100 to the width, and then writes that value |
| Bcd.DecodeBCD | core/bincat/bcd.go:49-62 | succeeds if and only if the width is 1 to 9 and every byte two decimal digits; never wraps; else names the last bad byte |
| Bcd.EncodeThenDecode | core/bincat/bcd.go:27-62 | decoding an encoding gives the value |
| Bcd.DecodeThenEncode | core/bincat/bcd.go:27-62 | encoding a decoding gives the bytes |
| Bcd.ValueIsInjective | core/bincat/bcd.go:44-48 | a field of given width writes a number in one way |
| WantQueue.Accumulator.NoteWant | core/bincat/framing.go:153-161 | a positive length is queued, dropping the oldest of eight |
| WantQueue.Accumulator.CancelLastWant | core/bincat/framing.go:249-254 | the newest length goes, if there is one |
| WantQueue.Accumulator.Push | core/bincat/framing.go:175-199 | the loop cuts every reply the queue can complete, and resets buffer and queue on overflow |
| WantQueue.CutLengths | core/bincat/framing.go:163-189 | replies have the wanted lengths in order, and cutting stops only when the next is not there |
| WantQueue.CutConserves | core/bincat/framing.go:163-189 | replies and remainder are the bytes that came in |
| WantQueue.OverflowOnlyUnasked | core/bincat/framing.go:191-197 | overflow means no want is left and too many bytes are |
| WantQueue.TwoPushesAreOne | core/bincat/framing.go:163-199 | two pushes give what one push of both gives, from any state whose wants exceed the bound by at most one |
| WantQueue.SplitIndependent | core/bincat/framing.go:163-199 | from any such state, unasked bytes in the buffer or not, any chunking gives the replies, the overflow and the state of one push of the whole |
| WantQueue.ChunkingNeverMatters | core/bincat/framing.go:169-199 | that holds for all streams if and only if no want exceeds the bound by more than one, in any state whose buffer is within the bound |
| WantQueue.SplittingNeverMatters | core/bincat/framing.go:153-199 | anywhere in a history, splitting an arrival that does not overflow changes neither the replies nor the final state |
| WantQueue.RechunkingNeverMatters | core/bincat/framing.go:153-199 | two histories that differ only in chunking lose bytes or not together, give the same replies up to the first loss, and without one end in the same state |
| WantQueue.CoalescedIsNormal | core/bincat/framing.go:153-199 | the form in which histories are compared keeps every byte, note and cancel in its place and has no two arrivals side by side |
| WantQueue.CancelUndoesNote | core/bincat/framing.go:247-254 | cancelling undoes noting if and only if the length was positive and the queue not full, or neither did anything |
| WantQueue.BytesAreConserved | core/bincat/framing.go:153-199 | over any history of notes, cancels and arrivals every byte is in a reply, in the buffer or reported lost |
| WantQueue.BoundIsKept | core/bincat/framing.go:124-132 | if nothing noted exceeds a bound nothing outstanding does, over any history, and the buffer stays within its own |
| WantLedger.HistoryTallies | core/bincat/framing.go:153-199 | over any history the ledger of numbered requests says which of them each reply answers and which still wait |
| WantLedger.RepliesAnswerInOrder | core/bincat/framing.go:163-199 | the replies of a history, and then what is queued, have the lengths of exactly the requests not cancelled, displaced or reset, in the order noted |
| Profiles.RepliesFitExactly | core/bincat/profile.go:217-279 | every reply an admitted command announces is positive and fits the buffer if and only if the full dump is at least 18 and at least a record |
| Profiles.OnlyReadsAnnounce | core/bincat/profile.go:217-341 | among admitted commands exactly status updates and identity reads announce a reply |
| CommandGate.AdmittedExactly | core/bincat/profile.go:281-341 | the binary gate admits a frame if and only if the radio is configured and the frame says one of fourteen commands: a channel of the radio, a decimal frequency, a mode of its legend, and so on |
| CommandGate.OtherOpcodesAreRefused | core/bincat/profile.go:7-23 | no other opcode is admitted, with any arguments |
| CommandGate.BuildSetFreq | core/driver/ft890900/write.go:114-137 | every frequency below 100,000,000 tens of Hz is built, and its frame admitted |
| CommandGate.DecodeSetFreq | core/bincat/profile.go:311-317 | a SetFreq frame is admitted if and only if its four bytes decode, and then it says that number |
| CommandGate.FrequencyHasOneFrame | core/bincat/bcd.go:16-26 | different SetFreq frames say different frequencies |
| CommandGate.AnnouncedIsTheReply | core/bincat/profile.go:240-279 | the length announced for a command is the sum of the parts of its reply, and commands without a reply announce none |
| CommandGate.SendingQueuesTheReply | core/bincat/framing.go:116-124 | on a queue with room, sending a command queues the length of its reply last, and nothing when it has none |
| CommandGate.ConfiguredExactly | core/bincat/profile.go:192-202 | a profile is configured if and only if it has a name, a channel, a mode and positive reply lengths |
| CommandGate.RadiosAreConfigured | core/driver/ft890900/profile.go:82-94 | the registered profiles are configured, hold their longest reply, and can read the probe's channel 33 |
| CommandGate.BuildOffset | core/driver/ft890900/write.go:143-151 | the FT-890's offset frame is admitted by its own gate if and only if the last two digits of the offset in Hz are at most 2 |
| CommandGate.BuildOffsetKhz | core/driver/ft1000mp/write.go:57-74 | the FT-1000MP's is built for whole kHz up to 299, and all that is built is admitted |
| Profiles.SessionsStayWithinBound | core/bincat/framing.go:116-124 | in any session of such a profile outstanding lengths and buffer stay within the bound, overflow means nothing was asked for, and no chunking of what comes next matters |
| Profiles.SessionsIgnoreChunking | core/bincat/framing.go:116-124 | two sessions that differ only in how the bytes were chunked lose bytes or not together and give the same replies up to the first loss |
| Profiles.NewFraming | core/bincat/framing.go:57-66 | an adapter for exactly the configured profiles, its accumulator empty and sized to the longest reply |
| Profiles.Framing.NewAccumulator | core/bincat/framing.go:72-83 | the first hand-out may replace the bound, a second is refused and changes nothing |
| Profiles.Framing.NoteSent | core/bincat/framing.go:116-124 | the announced length is queued and nothing else changes |
| Profiles.Framing.CancelPendingWant | core/bincat/framing.go:239-243 | the newest length is taken back |

## Left out

- Slow work is a step with an arbitrary outcome: radio, file, port, dialog and event calls, and the text of errors.
- Contents stand for whole codeplugs: merging, validating, diffing and normalising give arbitrary contents, and a file load settles the content it commits, after normalisation.
- The re-check of capabilities in ImportCHIRP is one of the ways a merge may be refused.
- Calls that only read (`GetCodeplug`, `IsDirty`, `Validate`, `ExportCSV` and the like).
- `settingsDisplay`, consent, UI views, and what the working path says about the content.
- `baselineStale` is set and reset as in the code, but nothing is claimed about it, since reads do not look at a running send.
- A panic or nil dereference is a step after which that call does nothing more; the invariants show that no disciplined run has one.
- A receive of an attempt that has no reception handle yet is slow work with an arbitrary outcome, after which its deferred section runs.
- MW and MT frames are judged by a predicate the gate is given; their building and the memory field block are not modelled, only the rules on their configuration.
- What the normaliser does to a channel's fields is a function of its slot and fields; the fields themselves are one value.
- Merges.JudgeChirp: names the unknown and the repeated slots as sets, without the order and display form of the message.
- The generated inventories and write tables and the deny predicates by name; the results hold for any inventory and any deny predicate.
- ID and AI frames and the MC read are in the gate as literals; their builders are not modelled.
- The menus of the radios in `Radios`, and all but two of the modes there and of the FT-1000MP.
- The clarifier's and the offset's other argument bytes, on which the binary gate puts no bound.
- Profiles.Profile.AllowedCommand: requires the argument positions of a profile to be positions, outside which the code would index out of range.
- The adapter's own lock: each of its methods is one step.
- `cmd/rigprog`, `core/clone`, `core/codeplug` beyond the codeplug's shape, `core/transport`, `core/civ`, and `internal` beyond the two merges.
