# 32-ID-C TXM instrument control, modelled in Dafny

This project models the instrument-control runtime of the transmission
X-ray microscope (TXM) at beamline 32-ID-C, and of its helper scripts. The
EPICS hardware is replaced by an in-memory device, the way the
`UnpluggedTXM` of `tests/tools.py` replaces it: a map from process-variable
(PV) name to value, plus a log of every `_pv_put` call.

Modules, following the program's structure:

- `Common`: Python values (None, number, string, list), the exceptions and
  warnings of the instrument code, `float()` with its text parser, and
  small sequence lemmas.
- `FloatText`: what the text parser of `float()` gives for integer,
  decimal and exponent literals, and which texts it rejects.
- `PvDescriptor` (`txm_pv.dfy`): the `TxmPV` descriptor in both revisions.
  It covers name templating with `{ioc_prefix}`, reading with `dtype`
  coercion, the pieces of a gated write, and the two `permit_required`
  decorators.
- `Device`: the in-memory device. Acknowledged puts store their value, and
  `Replay` gives the device after a log of puts.
- `Polling`: the poll-until-value loop shared by every `wait_pv`. Time is
  counted in reads, over a finite sequence of readings.
- `Promises`: `PVPromise` and the environment step that completes
  deferred puts.
- `Frames`: frame-type codes and the shutter-consistency warning of the
  `capture_*` methods.
- `NanoTxmModel`: the `NanoTXM` class of `aps_32id/txm.py`. This is a
  class with the device map, the put log, the warnings, the promise queue
  and the shutter flags as fields, and one method per operation. It covers
  the deferred-put queue, `wait_pvs`, `wait_pv`, the sample stage,
  `move_energy`, the shutters, the captures, `exposure_time` and the
  snapshot-and-restore of `run_scan`.
- `TomoTxmModel`: the older `TXM` class of `tomo/32id/txm.py`. A failed
  write raises, a timeout raises, the queue keeps every promise, and the
  decorator does invoke the method when the permit is held. Its multi-step
  operations are lists of steps run until the first that fails.
- `TomoScanLib`: the library `wait_pv`, fixed-width bit reversal and the
  interlaced view schedule. Both copies of the library are served by one
  model.
- `ScanVerifier`: the verifier's frame-index sequence and the
  `HDF1_NumCapture` total.
- `ScanTools`: `expand_position`, and the energy lists built from ranges
  and from points.
- `ScanVariables`: comma-list parsing and the variable-dictionary merge.
- `StepScan`: the angle repetition of the 2-BM step scan.
- `EnergyScan`: the three energy-sweep scripts, as the sequence of
  instrument calls each makes.

Where the code and its documentation or tests disagree, the model follows
the code:

- The `wait_pv` of `aps_32id/txm.py` warns and returns None on timeout. Its
  docstring (lines 390-394) says it raises TimeoutError.
- The `permit_required` of `scanlib/txm_pv.py` never calls the wrapped
  method, because its test is `obj.has_permit and False`. Its doc-comment
  says the method works with a permit. See Findings.
- The `permit_required` of `tomo/32id/txm.py` warns and returns None
  without the permit. `tomo/32id/test_txm.py:40-41` expects PermitError.
- `energy_range_from_points` raises ValueError for three points and three
  steps. `tests/test_scanlib.py:18-23` expects a result.
  `ScanTools.TwoRangeExample` uses the two steps that this input needs.

## Model

| member | source | states |
|---|---|---|
| Common.FloatOf | scanlib/txm_pv.py:188-191 | `float(v)` returns a number itself; text gives the value it spells when it is a decimal literal (optional sign, digits with at most one point, optional exponent, surrounding ASCII whitespace) and raises ValueError otherwise; None and lists raise TypeError |
| FloatText.IntegerText | scanlib/txm_pv.py:189 | `float` of a digit string, with or without a leading minus, is its value or its negation |
| FloatText.DecimalText | scanlib/txm_pv.py:189 | `float(a + "." + b)` for digit strings a and b, not both empty, is a plus b's digits scaled by 10^-len(b) |
| FloatText.ExponentText | scanlib/txm_pv.py:189 | `float(d + "e" + k)` is the value of d scaled up by k powers of ten and `float(d + "e-" + k)` that value scaled down by k powers of ten, for digit strings d and k |
| FloatText.ScaleUp | scanlib/txm_pv.py:189 | scaling n up by k powers of ten, as a positive exponent does, gives n·10^k |
| FloatText.ScaleDown | scanlib/txm_pv.py:189 | scaling x down by k powers of ten, as a negative exponent does, gives x / 10^k |
| FloatText.NatTextRoundTrip | scanlib/txm_pv.py:189 | `float(str(n))` is n for every natural number n |
| FloatText.SpaceIgnored | scanlib/txm_pv.py:189 | an ASCII whitespace character before or after the text does not change what `float` gives |
| FloatText.InnerSpaceRejected | scanlib/txm_pv.py:189 | ASCII whitespace between two digit runs makes `float` raise ValueError |
| FloatText.OnlyNumbersParse | scanlib/txm_pv.py:189 | text that `float` accepts is made only of digits, signs, points, `e`/`E` and ASCII whitespace, and holds a digit |
| Device.ReplaySnoc | tests/tools.py:22-24 | replaying one more put applies that put's store to the device the earlier puts left |
| Device.ReplayReads | tomo/32id/txm_pv.py:83-86 | a read after a log of puts sees the value of the last put to that name when the device acknowledges puts to it, and the original value when it does not or when there was no such put |
| Device.SendsAppend | scanlib/txm_pv.py:198-207 | the puts of two runs of assignments are the puts of the first followed by those of the second |
| Device.SendsWithPermit | scanlib/txm_pv.py:203-207 | with the permit every assignment sends exactly one put, to its PV name and with its value, waiting only outside a `wait_pvs` scope and only when the descriptor waits |
| Device.SendsWithoutPermit | scanlib/txm_pv.py:203-219 | without the permit an assignment to a PV that requires it sends nothing, and the others send as they would with the permit, in order |
| Frames.CaptureWarnings | aps_32id/txm.py:896-959 | at most one warning; a dark-field capture warns exactly when the shutters are open, and a projection or white-field capture exactly when they are closed |
| Polling.PollUntil | aps_32id/txm.py:400-422 | the polling while-loop returns the outcome that the recursive specification `PollOf` gives for the same readings, target and timeout |
| Polling.PollFromCharacterised | aps_32id/txm.py:403-422 | from any read onwards: a match ends on the first read equal to the target with no earlier give-up; a timeout ends on the first non-matching read that gives up, with no earlier match; Exhausted only when no read did either |
| Polling.PollCharacterised | scanlib/tomo_scan_lib.py:80-96 | the same characterisation for a whole `wait_pv`, counting reads from the first |
| Polling.NoTimeoutNeverGivesUp | scanlib/tomo_scan_lib.py:89-93 | a timeout of -1 or less never gives up |
| Polling.TimeoutIsPrompt | tomo/32id/txm.py:392-399 | a wait that gives up has a timeout above -1 and does so at a read no earlier than the timeout; for a positive timeout, less than one poll interval after it |
| Polling.EnoughReadingsDecide | aps_32id/txm.py:407-417 | with a timeout above -1 and readings that reach it, the wait matches or gives up within them |
| Polling.ImmediateMatch | aps_32id/txm.py:403-422 | a PV that already shows the target ends the wait with a match at the first read |
| Promises.PvPromise.constructor | aps_32id/txm.py:44-49 | a new promise carries its PV name and is not complete |
| Promises.PvPromise.Complete | aps_32id/txm.py:51-52 | `complete` marks the promise complete |
| Promises.CompleteNamed | aps_32id/txm.py:315-317 | one round of put callbacks completes exactly the queued promises of the named PVs and leaves the other promises as they were |
| PvDescriptor.FormatSucceedsForAnyPrefix | scanlib/txm_pv.py:174-176 | whether a template formats does not depend on the prefix substituted |
| PvDescriptor.FormatLiteral | scanlib/txm_pv.py:174-176 | text without braces formats to itself |
| PvDescriptor.FormatPlainChar | scanlib/txm_pv.py:174-176 | a character that is not a brace is copied to the output ahead of the rest |
| PvDescriptor.FormatField | scanlib/txm_pv.py:174-176 | a leading `{ioc_prefix}` field becomes the owner's prefix ahead of the rest |
| PvDescriptor.FormatPrefixed | tomo/32id/txm_pv.py:79-81 | brace-free text around one `{ioc_prefix}` field formats to that text around the prefix |
| PvDescriptor.Fixed | scanlib/txm_pv.py:151-158 | a descriptor on a brace-free name keeps its constructor arguments and names that PV whatever the prefix |
| PvDescriptor.OnIoc | scanlib/txm_pv.py:174-176 | a descriptor on `{ioc_prefix}` + rest names the owner's prefix followed by rest |
| PvDescriptor.PvNameSubstitutes | scanlib/txm_pv.py:174-176 | the PV name is the template with its `{ioc_prefix}` field, if it has one, replaced by the owner's prefix |
| PvDescriptor.Get | scanlib/txm_pv.py:178-186 | reading through the class (no owner), and only that, yields the descriptor itself |
| PvDescriptor.GetTomoOutcomes | tomo/32id/txm_pv.py:83-95 | the tomo read raises AttributeError exactly when made through the class; through an instance it never yields the descriptor, and the only exception it lets escape is the ValueError of a Float descriptor |
| PvDescriptor.CoerceCases | scanlib/txm_pv.py:187-195 | the dtype step keeps the raw value without a dtype or on a number, turns text `float` parses into its number, warns once and keeps the raw value when `float` raises TypeError (None, a list), and lets the ValueError of other text escape |
| PvDescriptor.GetRevisionsAgree | tomo/32id/txm_pv.py:79-95 | reading through an instance gives the same outcome in both revisions; reading through the class yields the descriptor in the scanlib revision and raises AttributeError in the tomo one, whose name formatting looks up `ioc_prefix` on None |
| PvDescriptor.ReadCoercion | scanlib/txm_pv.py:184-195 | without a dtype, or on a number, a read yields the stored value (None if absent); text that `float` parses reads as its number; when `float` raises TypeError the raw value comes back with one cast warning; text that does not parse raises ValueError, which escapes |
| PvDescriptor.ScanlibSetWarnings | scanlib/txm_pv.py:205-214 | after a permitted put, at most one warning, issued exactly when the put failed (falsy or TypeError) and the descriptor waits; nothing is raised |
| PvDescriptor.TomoSetStatus | tomo/32id/txm_pv.py:104-110 | a write ends normally exactly when the put is acknowledged; a falsy reply raises PVError |
| PvDescriptor.ScanlibPermitRequired | scanlib/txm_pv.py:53-64 | the scanlib decorator warns and returns None whatever the permit |
| PvDescriptor.TomoPermitRequired | tomo/32id/txm.py:31-53 | the tomo decorator invokes the method exactly when the owner holds the permit |
| PvDescriptor.PermitDecoratorsDiffer | scanlib/txm_pv.py:27-64 | the two decorators disagree exactly when the permit is held |
| NanoTxmModel.Without | aps_32id/txm.py:318-321 | the queue without the promises for a name: every promise left is from the queue and is for another name, and every promise for another name is kept |
| NanoTxmModel.WithoutKeepsOnePerName | aps_32id/txm.py:318-321 | removing a name's promises keeps the queue at one promise per name |
| NanoTxmModel.LastWriteWins | aps_32id/txm.py:313-323 | after a queued put (earlier promises for the name removed, the new one appended) the queue still holds at most one promise per PV name |
| NanoTxmModel.SetWarningsSnoc | scanlib/txm_pv.py:198-220 | the warnings of one more assignment follow those of the earlier ones |
| NanoTxmModel.ValuesWrittenAppend | aps_32id/txm.py:531-564 | the values written to a descriptor by two runs of assignments are those of the first followed by those of the second |
| NanoTxmModel.EnergyDescriptorsDistinct | aps_32id/txm.py:172-262 | the DCM mode, detector, zone-plate, monochromator and gap descriptors are pairwise distinct |
| NanoTxmModel.EnergyValuesWritten | aps_32id/txm.py:531-564 | the values `move_energy` writes to any descriptor are those of its five pieces, in order |
| NanoTxmModel.EnergyModeWrites | aps_32id/txm.py:531-564 | `move_energy` writes the DCM mode twice, 1 first and the saved mode last, and nowhere else |
| NanoTxmModel.EnergyGapWrites | aps_32id/txm.py:556-562 | the undulator gap gets E then E + 0.17 with backlash correction, and only E + 0.17 without |
| NanoTxmModel.EnergyMonoWrites | aps_32id/txm.py:555 | the monochromator gets E exactly once |
| NanoTxmModel.EnergyWritesFront | aps_32id/txm.py:531-555 | the first writes are the mode to 1, the detector (constant magnification only), the zone plate and the monochromator |
| NanoTxmModel.EnergyDetectorWrites | aps_32id/txm.py:534-544 | the detector moves once with constant magnification and not at all otherwise |
| NanoTxmModel.EnergyPieces | aps_32id/txm.py:531-564 | what each piece of the energy writes puts on a given descriptor |
| NanoTxmModel.EnergySendsWithoutPermit | aps_32id/txm.py:531-564 | without the permit, each piece sends only its detector and zone-plate writes |
| NanoTxmModel.EnergyWithoutPermit | aps_32id/txm.py:531-564 | without the permit, `move_energy` sends only the detector put (constant magnification) and the zone-plate put, because the mode, monochromator and gap descriptors are permit_required |
| NanoTxmModel.StrLessIrreflexive | aps_32id/txm.py:724 | Python's `<` on strings is irreflexive, so `max` of two equal strings keeps the first |
| NanoTxmModel.StrLessAsymmetric | aps_32id/txm.py:724 | of two strings, at most one is less than the other |
| NanoTxmModel.PyLess | aps_32id/txm.py:724 | Python 3's `<` succeeds only between two numbers, two strings or two lists, and otherwise raises TypeError |
| NanoTxmModel.PyLessIrreflexive | aps_32id/txm.py:724 | no value is less than itself, lists of anything included; None compared with None raises TypeError |
| NanoTxmModel.PyLessAsymmetric | aps_32id/txm.py:724 | a pair raises exactly when the swapped pair does, and of two values at most one is less than the other |
| NanoTxmModel.ExposureOf | aps_32id/txm.py:720-727 | `exposure_time` is None exactly when comparing the two camera times raises TypeError, so always for two values of different kinds; otherwise it is one of them and neither is greater than it: the larger of two numbers, one of two strings or of two lists, and the shared value when they are equal |
| NanoTxmModel.PlanEnergyMove | aps_32id/txm.py:510-564 | a non-number raises TypeError and an energy outside [6.4, 30] raises EnergyError, both with no warning and no write; in range, a read that raises ends it with the reads' warnings so far; a monochromator reading of zero raises ZeroDivisionError after both reads, with no write; a monochromator reading that is not a number, or a detector reading that is not one, fails inside the guarded block, which warns once and writes nothing; any writes start with the DCM mode set to 1, and only in range; a completed move ends by restoring the mode the device showed before |
| NanoTxmModel.NanoTxm.constructor | aps_32id/txm.py:275-279 | a new instrument holds the given permit and shutter choices and the prefix `32idcPG3:`, with no queue, no puts, no warnings and the shutter flags off |
| NanoTxmModel.NanoTxm.PvPut | aps_32id/txm.py:313-327 | a queued put is sent without waiting, earlier promises for the PV are dropped and a fresh one is appended, unless the put raised TypeError; with no queue the caller's `wait` is passed on and the queue is untouched; one promise per name is preserved; the device stays the replay of the log |
| NanoTxmModel.NanoTxm.SetPv | scanlib/txm_pv.py:198-220 | an assignment sends its put unless a needed permit is missing, issues the `__set__` warnings, and leaves the queue alone when not permitted |
| NanoTxmModel.NanoTxm.SetAll | scanlib/txm_pv.py:198-220 | a run of assignments sends their puts and issues their warnings, in order |
| NanoTxmModel.NanoTxm.ReadPv | scanlib/txm_pv.py:178-196 | a read through the instance is the descriptor's read on the current device, plus its cast warning |
| NanoTxmModel.NanoTxm.WaitPvsEnter | aps_32id/txm.py:352-357 | entering a scope saves the current queue and installs an empty one |
| NanoTxmModel.NanoTxm.WaitPvsExit | aps_32id/txm.py:358-364 | with no queue installed, TypeError; otherwise a blocking exit returns only once every queued promise is complete, and then restores the saved queue; a non-blocking exit restores it at once; if callbacks run out first, the queue is left in place; completed promises stay complete |
| NanoTxmModel.NanoTxm.WaitPv | aps_32id/txm.py:403-422 | a name that is not a PV attribute raises AttributeError; a match returns True; a timeout issues one warning and returns None without raising |
| NanoTxmModel.NanoTxm.SamplePosition | aps_32id/txm.py:424-439 | the position is the four stage reads (top X, Y, top Z, rotation), each as `PositionOf` gives it (numeric text read as its number), the first escaping ValueError ending it, with the cast warnings of the reads made |
| NanoTxmModel.NanoTxm.MoveSample | aps_32id/txm.py:441-474 | the move ends, sends and warns exactly as `SampleOf` says on the device it starts from: the coordinate writes' puts and set warnings, then, when every coordinate converted, the closing log's status and cast warnings |
| NanoTxmModel.SampleOf | aps_32id/txm.py:441-474 | a `move_sample` sends the puts of its coordinate writes whatever its outcome, and ends normally or with ValueError or TypeError |
| NanoTxmModel.NanoTxm.LogSampleMove | aps_32id/txm.py:460-474 | the closing log reads the four stages; a ValueError from a read or from a `.2f` field makes it read them all again, and that second attempt ends as its reads do; a TypeError from a field escapes from the first attempt |
| NanoTxmModel.SampleLogErrors | aps_32id/txm.py:460-474 | the closing log ends normally or raises ValueError or TypeError, nothing else |
| NanoTxmModel.PlainStagesLog | aps_32id/txm.py:460-474 | stages holding numbers or nothing log normally, with one cast warning for each stage holding nothing |
| NanoTxmModel.TextThetaLog | aps_32id/txm.py:460-474 | a rotation stage holding text that is no number makes both attempts raise ValueError, so the x, y and z reads happen twice |
| NanoTxmModel.ListThetaLog | aps_32id/txm.py:460-474 | a rotation stage holding a nonempty list reads back with a cast warning, and its `.2f` field raises TypeError, which escapes |
| NanoTxmModel.NanoTxm.Energy | aps_32id/txm.py:478-487 | `energy()` is the read of the monochromator descriptor |
| NanoTxmModel.NanoTxm.MoveEnergy | aps_32id/txm.py:489-564 | the method ends as `PlanEnergyMove` says, sends that plan's writes and issues its warnings, so a zero monochromator reading raises ZeroDivisionError with nothing sent |
| NanoTxmModel.NanoTxm.StepShutter | aps_32id/txm.py:642-649 | one enabled shutter makes its write and then waits on its status PV |
| NanoTxmModel.NanoTxm.StepShutters | aps_32id/txm.py:642-649 | shutter A's step when enabled, then shutter B's, stopping where a wait ran out of readings |
| NanoTxmModel.NanoTxm.OpenShutters | aps_32id/txm.py:629-668 | without the permit: one warning, nothing sent, the flag unchanged; with it the enabled shutters are written in order, the flag becomes "A or B", and having neither enabled warns |
| NanoTxmModel.NanoTxm.CloseShutters | aps_32id/txm.py:670-706 | the status, the puts and the warnings are exactly those `CloseOf` gives; the flag becomes False when it ends normally with the permit and is unchanged otherwise |
| NanoTxmModel.CloseOf | aps_32id/txm.py:670-706 | `close_shutters` ends normally, or StillPolling when a wait's readings ran out; without the permit it sends nothing and warns once; with it, when it ends normally, it has sent the close puts of the enabled shutters, A's before B's |
| NanoTxmModel.CloseSteps | aps_32id/txm.py:689-706 | with the permit, the two shutter steps followed by the warning for having neither shutter enabled make up `CloseOf`'s log |
| NanoTxmModel.NanoTxm.Capture | aps_32id/txm.py:896-959 | the shutter-consistency warning, the frame-type code written (0, 2 or 1), and then the trigger for n frames, whatever the warning |
| NanoTxmModel.NanoTxm.ExposureTime | aps_32id/txm.py:720-727 | the getter returns `ExposureOf` of the two camera times and warns nothing |
| NanoTxmModel.NanoTxm.SetExposureTime | aps_32id/txm.py:729-733 | the setter sends the acquire time, the acquire period and the fast-shutter exposure, in that order, its puts ending the log |
| NanoTxmModel.NanoTxm.RunScanEnter | aps_32id/txm.py:1102-1105 | entering `run_scan` snapshots the sample position, energy, exposure and fast-shutter flag, or stops at the first read that raises; the warnings are the position reads' cast warnings, followed by the energy read's unless the position read failed |
| NanoTxmModel.NanoTxm.StopCapture | aps_32id/txm.py:1127-1130 | the log grows by exactly `StopOf`: the three stop puts and their set warnings, then the timeout warning of the wait on `HDF1_Capture` if it gives up, which is all a timeout does |
| NanoTxmModel.NanoTxm.RestoreEnergy | aps_32id/txm.py:1134-1138 | the status, puts and warnings are exactly those `RestoreEnergyOf` gives on the device the step starts from |
| NanoTxmModel.RestoreEnergyOf | aps_32id/txm.py:1134-1138 | an EnergyError never escapes; a read of `energy()` that raises ends the step with nothing sent; a reading equal to the saved energy ends it with only that read's cast warning; puts are made only when the reading differs and the saved energy is an in-range number; a differing reading with a saved energy that is not a number raises TypeError, and one out of range ends normally, both with nothing sent |
| NanoTxmModel.NanoTxm.Teardown | aps_32id/txm.py:1127-1143 | the teardown ends, sends and warns exactly as `TeardownOf` says on the device it starts from, for every outcome; with the permit a completed teardown leaves the shutters closed, and otherwise the flag is unchanged |
| NanoTxmModel.TeardownOf | aps_32id/txm.py:1127-1143 | an EnergyError never ends a teardown |
| NanoTxmModel.TeardownStages | aps_32id/txm.py:1127-1143 | the capture stop, sample move, energy step, shutter close and exposure reset run in turn, each on the device the earlier ones left; the first that does not end normally ends the teardown with its status, and the puts and warnings are those of the stages that ran, in order |
| NanoTxmModel.ThenFive | aps_32id/txm.py:1127-1143 | five stages run in turn stop at the first that does not end normally, the log being the logs of the stages run, in order |
| NanoTxmModel.NanoTxm.ReturnAndRestore | aps_32id/txm.py:1131-1143 | after the capture stop, the rest of the teardown ends, sends and warns exactly as `ReturnAndRestoreOf` says: the sample move, then, if it ended normally, the energy, shutter and exposure stages; the shutter flag as for `Teardown` |
| NanoTxmModel.SampleSteps | aps_32id/txm.py:441-474 | the coordinate writes' puts and set warnings, followed, when every coordinate converted, by the closing log, make up `SampleOf`'s log |
| NanoTxmModel.NanoTxm.RestoreAndReset | aps_32id/txm.py:1134-1143 | the energy step, then, if it ended normally, the shutter close and the exposure reset: status, puts and warnings exactly those of `RestoreAndResetOf`, for every outcome |
| NanoTxmModel.NanoTxm.CloseAndReset | aps_32id/txm.py:1140-1143 | `close_shutters()`, then, if it ended normally, the three exposure puts: status, puts and warnings exactly those of `CloseAndResetOf`; a `close_shutters` whose wait ran out ends it with no exposure puts |
| NanoTxmModel.NanoTxm.RunScanExit | aps_32id/txm.py:1107-1145 | the fast-shutter flag is restored; the teardown ends, sends and warns exactly as `TeardownOf` says on the device at the exit; the result is the teardown's failure if there was one, otherwise the body's own outcome, re-raised |
| TomoTxmModel.MisspelledStatusUnknown | tomo/32id/txm.py:553 | `ShutteA_Move_Status` is not an attribute of the class |
| TomoTxmModel.CompletePut | tomo/32id/txm_pv.py:118-121 | the promise passed as data is complete afterwards |
| TomoTxmModel.RunSnoc | tomo/32id/txm.py:495-503 | a run with one more step runs that step only if the earlier ones ended normally |
| TomoTxmModel.RunAppend | tomo/32id/txm.py:495-503 | running two step lists back to back is the first run followed by the second, if the first ended normally |
| TomoTxmModel.RunStopsAtFirstFailure | tomo/32id/txm.py:471-503 | a run ends normally exactly when every step does; otherwise it ends with the first failing step, every earlier step having ended normally, and nothing after it is sent |
| TomoTxmModel.OnlyAppend | tomo/32id/txm.py:471-503 | filtering two step lists back to back is filtering each |
| TomoTxmModel.EnergyDescriptorsDistinct | tomo/32id/txm.py:183-253 | the five descriptors `move_energy` writes are pairwise distinct |
| TomoTxmModel.EnergyMotions | tomo/32id/txm.py:471-503 | the mode, gap and wait steps are, in order: mode to 1, gap to E and a wait on `EnergyWait` (backlash only), gap to E + 0.15, the saved mode, a final wait |
| TomoTxmModel.EnergyPositioning | tomo/32id/txm.py:474-495 | the detector (constant magnification only), zone plate and monochromator are each set once, in that order, all before the first gap write |
| TomoTxmModel.RunWithPermitWarnsNothing | tomo/32id/txm_pv.py:102-116 | with the permit no step warns, so no run does |
| TomoTxmModel.EnergyMoveEnds | tomo/32id/txm.py:501-503 | with the permit, a move whose steps all succeed ends with two puts: the gap to E + 0.15, sent without waiting, then the saved DCM mode |
| TomoTxmModel.PlanEnergyMove | tomo/32id/txm.py:454-503 | a non-number raises TypeError and an out-of-range energy raises EnergyError, with no write; a monochromator reading of zero raises ZeroDivisionError and one that is not a number, or a detector reading that is not one, raises TypeError, all before any write; a move starts by setting the DCM mode to 1, in range only; a move the arithmetic does not cut short restores, as its next-to-last step, the mode the device showed before |
| TomoTxmModel.EnergyStepsEnds | tomo/32id/txm.py:471-503 | the steps of a move whose arithmetic succeeds are at least six, the first setting the DCM mode to 1 and the next to last restoring the mode read before |
| TomoTxmModel.RunAssignAwait | tomo/32id/txm.py:514-521 | a write then a wait: the wait runs only if the write ended normally |
| TomoTxmModel.ShutterPartRun | tomo/32id/txm.py:514-521 | with the permit, one enabled shutter's part that ends normally has sent one put, to that shutter's PV, and warned nothing |
| TomoTxmModel.CloseWithShutterAFails | tomo/32id/txm.py:550-553 | with the permit and shutter A enabled, closing never ends normally: the write raises, or the wait on the misspelled name raises KeyError; shutter B is not touched |
| TomoTxmModel.ShutterPutsFollowFlags | tomo/32id/txm.py:513-526 | with the permit, a shutter operation that ends normally has sent one put per enabled shutter, A's before B's, and warned nothing |
| TomoTxmModel.Txm.constructor | tomo/32id/txm.py:266-271 | a new instrument holds the given permit, prefix and shutter choices, with no queue, no puts and no warnings |
| TomoTxmModel.Txm.PvPut | tomo/32id/txm.py:305-313 | a queued put is sent without waiting and a fresh promise is appended, earlier ones for the PV staying; with no queue the caller's `wait` is passed on; the device stays the replay of the log |
| TomoTxmModel.Txm.SetPv | tomo/32id/txm_pv.py:97-116 | without a needed permit: no put, one warning, device and queue unchanged; otherwise the put with the descriptor's `wait` is stored, and a falsy reply raises PVError |
| TomoTxmModel.Txm.ReadPv | tomo/32id/txm_pv.py:83-95 | a read is the old-revision descriptor read on the current device, plus its cast warning |
| TomoTxmModel.Txm.WaitPv | tomo/32id/txm.py:386-403 | a name missing from the class dictionary raises KeyError; a match returns; giving up raises TimeoutError, which a timeout of -1 or less never does |
| TomoTxmModel.Txm.RunStep | tomo/32id/txm.py:495-503 | one step sends its puts and issues its warnings, ending as `StepStatus` says |
| TomoTxmModel.Txm.RunAll | tomo/32id/txm.py:471-503 | running steps in place ends, sends and warns exactly as the specification `RunSteps` says |
| TomoTxmModel.Txm.WaitPvsEnter | tomo/32id/txm.py:342-347 | entering a scope saves the queue and installs and yields an empty one |
| TomoTxmModel.Txm.WaitPvsExit | tomo/32id/txm.py:348-354 | with no queue installed, TypeError; otherwise a blocking exit returns only once every queued promise is complete, then restores the saved queue, and a non-blocking one restores it at once |
| TomoTxmModel.Txm.MoveEnergy | tomo/32id/txm.py:432-503 | without the permit: one warning and nothing else; with it the move is refused or runs as `PlanEnergyMove` says (a zero monochromator reading raising ZeroDivisionError before any write), an arithmetic failure raising after the steps that preceded it |
| TomoTxmModel.Txm.MoveEnergyBody | tomo/32id/txm.py:454-503 | the decorated body: refused moves, a zero monochromator reading among them, send nothing and raise; otherwise the steps run in order, and any failure after them is raised |
| TomoTxmModel.Txm.OpenShutters | tomo/32id/txm.py:506-540 | without the permit: one warning only; with it the enabled shutters are written and waited for, the flag becomes "A or B", and with neither enabled the `is_attached` check raises AttributeError |
| TomoTxmModel.Txm.CloseShutters | tomo/32id/txm.py:542-573 | without the permit: one warning only; with it the flag becomes False after the shutter steps; with shutter A enabled it never ends normally; with neither enabled it raises AttributeError |
| TomoTxmModel.Txm.Capture | tomo/32id/txm.py:728-791 | the shutter-consistency warning, the frame-type put, and the trigger for n frames unless that write raised |
| TomoScanLib.WaitPv | scanlib/tomo_scan_lib.py:80-96 | True exactly on a match, False exactly when the wait gives up, no answer when the readings run out |
| TomoScanLib.BinIsBits | scanlib/tomo_scan_lib.py:737-738 | `bin(x)[2:]` is x's binary form over its bit length, and x is below 2 to that length |
| TomoScanLib.PaddedBin | scanlib/tomo_scan_lib.py:737-740 | padding `bin(x)[2:]` with zeros to maxbits digits gives x's maxbits-digit binary form, for x < 2^maxbits |
| TomoScanLib.ParseReversedBits | scanlib/tomo_scan_lib.py:742-748 | parsing the reversed digits in base 2 gives the reference bit reversal |
| TomoScanLib.ParseBits | scanlib/tomo_scan_lib.py:748 | `int(s, 2)` of x's n digits is x, for x < 2^n |
| TomoScanLib.BitsOfParse | scanlib/tomo_scan_lib.py:748 | a binary string written back with as many digits is itself |
| TomoScanLib.BitReverseBound | scanlib/tomo_scan_lib.py:733-748 | the bit reversal of n bits is below 2^n |
| TomoScanLib.BitReverseProperties | scanlib/tomo_scan_lib.py:733-748 | for x < 2^n the result is below 2^n, its n-digit form is x's reversed, and reversing twice gives x |
| TomoScanLib.BitReversedDecimal | tomo/32id/tomo_scan_lib.py:385-416 | maxbits 0 returns None; a negative maxbits raises ValueError from `int('', 2)`, and so does a negative input, whose `b` of `-0b` reaches `int`; otherwise the loop reverses the maxbits leading bits of x, which for x < 2^maxbits is the reference bit reversal |
| TomoScanLib.PaddedPrefix | scanlib/tomo_scan_lib.py:733-743 | the first maxbits digits of the padded `bin(x)[2:]` are the maxbits-digit form of x's leading digits |
| TomoScanLib.LeadingOfNarrow | scanlib/tomo_scan_lib.py:735-736 | a number below 2^maxbits is its own maxbits leading digits, so for such inputs no digit is dropped |
| TomoScanLib.GenInterlacedViews | scanlib/tomo_scan_lib.py:791-806 | for any N > 0 and K ≥ 2 dividing N, N_p views, view i being (i mod L)·K + Br(⌊i / L⌋ mod K, ⌊log2 K⌋), before the 180/N scaling |
| TomoScanLib.ViewsArePermutation | scanlib/tomo_scan_lib.py:754-783 | with K a power of two ≥ 2 dividing N, the views of 0..N-1 lie in range, are pairwise distinct, and cover every index (`ViewSource` gives the preimage) |
| TomoScanLib.ViewInRange | scanlib/tomo_scan_lib.py:801-805 | for any K ≥ 2 dividing N, a power of two or not, each view of a frame is below N |
| TomoScanLib.ViewInjective | scanlib/tomo_scan_lib.py:801-805 | two indices of a frame with the same view are the same index |
| TomoScanLib.ViewSourceInverts | scanlib/tomo_scan_lib.py:801-805 | every index below N is the view of its `ViewSource` |
| TomoScanLib.ViewsRepeat | tomo/32id/tomo_scan_lib.py:419-428 | for any K ≥ 2 dividing N, the view of i + N is the view of i: angles repeat from frame to frame |
| ScanVerifier.VerifierSequence | scanlib/tomo_scan_lib.py:128-159 | the five look-ups build the sequence that `Entries` specifies, running index from -1 |
| ScanVerifier.EntriesAreRunningSums | scanlib/tomo_scan_lib.py:128-159 | entry j carries the tag of the j-th present block and the start index plus the counts of the present blocks up to it; absent keys add nothing |
| ScanVerifier.VerifierTags | scanlib/tomo_scan_lib.py:128-159 | the tags are those of the present keys, in table order |
| ScanVerifier.TotalProjections | tomo/32id/tomo_scan_lib.py:240-241 | the total is computed exactly when all five counts are present; a missing one is an error |
| ScanVerifier.VerifierEndsAtLastFrame | scanlib/tomo_scan_lib.py:128-159 | with all five counts present, the last entry is a white field at index total - 1 |
| ScanTools.ExpandPosition | scanlib/tools.py:31-40 | the result has length max(len, length), starts with the position and is padded with None |
| ScanTools.ExpandPositionIdempotent | scanlib/tools.py:39 | padding a padded position again changes nothing |
| ScanTools.ExpandLongPosition | scanlib/tools.py:39 | a position of at least `length` entries comes back unchanged |
| ScanTools.ArangeShape | scanlib/tools.py:90 | `arange` over integers gives start + i·step for each i, all short of the limit, the next one not |
| ScanTools.StopIncluded | scanlib/tools.py:86-90 | a stop reached by whole steps is among the values of `arange(start, stop + step, step)` |
| ScanTools.Unique | scanlib/tools.py:92 | the distinct elements, strictly ascending |
| ScanTools.SortedWithSameElements | scanlib/tools.py:92 | two strictly ascending lists with the same elements are equal |
| ScanTools.UniqueIsCanonical | scanlib/tools.py:92 | `Unique` is the one strictly ascending list with those elements |
| ScanTools.EnergyRange | scanlib/tools.py:74-93 | a zero step raises ZeroDivisionError and no ranges raise ValueError, each exactly then; a result is strictly ascending |
| ScanTools.ConcatenatedElements | scanlib/tools.py:90-91 | the concatenation holds exactly the values of the ranges |
| ScanTools.EnergyRangeContents | scanlib/tools.py:86-92 | the energies are exactly the values of the ranges, once each and ascending, so a shared endpoint appears once |
| ScanTools.RangesOf | scanlib/tools.py:63-68 | one range per step |
| ScanTools.EnergyRangeFromPoints | scanlib/tools.py:58-71 | ValueError when there is not exactly one more point than steps; otherwise `energy_range` of the consecutive ranges |
| ScanTools.FromPointsErrors | scanlib/tools.py:58-70 | with matching lengths, ValueError exactly when there are no steps, and ZeroDivisionError exactly when some step is zero |
| ScanTools.TwoRangeExample | scanlib/tools.py:43-71 | points 8300, 8500, 8700 with steps 100 and 50 give 8300, 8400, 8500, 8550, 8600, 8650, 8700 |
| ScanVariables.Split | scanlib/scan_variables.py:20-22 | `split(',')` gives commas + 1 pieces, none containing a comma |
| ScanVariables.JoinSplit | scanlib/scan_variables.py:22 | joining the pieces with the separator gives the string back |
| ScanVariables.ConvertAll | scanlib/scan_variables.py:30 | converts all items in order when every conversion succeeds; otherwise fails with an error that some item's conversion raised |
| ScanVariables.ParseListVariable | scanlib/scan_variables.py:20-31 | the parse succeeds exactly when every item (piece of a string, item of an iterable, or the value itself) converts, and a failure is the error some item's conversion raised |
| ScanVariables.ParseListShapes | scanlib/scan_variables.py:20-31 | a string gives one converted element per comma-separated piece, an iterable one per item, anything else exactly one, in order |
| ScanVariables.VariableDict.constructor | scanlib/scan_variables.py:34 | the dictionary starts with the given entries |
| ScanVariables.VariableDict.Update | scanlib/scan_variables.py:55-58 | every parsed key maps to its parsed value, other keys keep theirs, and the same dictionary object is returned |
| StepScan.UpdateThetaForMoreProj | aps_02bm/tomo_step_scan.py:74-79 | the nested loop builds `Repeated(orig, p)` |
| StepScan.RepeatedLength | aps_02bm/tomo_step_scan.py:74-79 | the result has len(orig)·P entries, none when P ≤ 0 |
| StepScan.RepeatedEntries | aps_02bm/tomo_step_scan.py:76-78 | entry k is orig[k / P]: each angle P times in a row, the original order kept |
| StepScan.RepeatedSmallCounts | aps_02bm/tomo_step_scan.py:77 | P = 1 gives the list back and P ≤ 0 gives the empty list |
| StepScan.TomoScanTheta | aps_02bm/tomo_step_scan.py:102-152 | the stage is moved to each angle in order, and each angle gets the same number of software triggers: the recursive filter's image count when it is on, else ProjectionsPerRot when above 1, else one; the returned angles are expanded only when ProjectionsPerRot > 1 |
| EnergyScan.CaptureEnergyFrames | aps_32id/run/energy_scan.py:72-115 | the loop with its `correct_backlash` flag makes the calls of `Frames`, one pass per energy |
| EnergyScan.PassShape | aps_32id/run/energy_scan.py:84-115 | every pass has the same number of calls |
| EnergyScan.FramesLength | aps_32id/run/energy_scan.py:81-115 | the passes of k energies make k passes' worth of calls |
| EnergyScan.FramesLayout | aps_32id/run/energy_scan.py:81-115 | the pass of energy index idx occupies positions idx·L to (idx+1)·L of the sweep |
| EnergyScan.PassOrder | aps_32id/run/energy_scan.py:84-115 | at an even index: sample position, energy move, projections, out position, white field; at an odd index the reverse; in the scoped revision the second move is a whole `wait_pvs` scope |
| EnergyScan.PassCounts | aps_32id/run/energy_scan.py:91-115 | a pass moves the energy once, correcting backlash only at index 0, and captures twice `num_recursive_images` frames |
| EnergyScan.SweepCounts | aps_32id/run/energy_scan.py:80-115 | a sweep moves to every energy once, in order, correcting backlash only at the first, and captures 2·`num_recursive_images` frames per energy |
| EnergyScan.AcquisitionCaptured | aps_32id/run/energy_scan.py:173-202 | an acquisition captures `num_recursive_images` frames for each of the `total_projections` announced, when `n_pre_dark` ≥ 0 |
| EnergyScan.AcquisitionMoves | aps_32id/run/energy_scan.py:196-202 | the energy moves of an acquisition are those of one sweep |
| EnergyScan.AcquisitionLayout | aps_32id/run/energy_scan.py:189-202 | the shutters are closed before the dark frames (only when `n_pre_dark` > 0), opened before the first pass and closed after the last |
| EnergyScan.PreDarkCaptured | aps_32id/run/energy_scan.py:189-192 | the pre-dark block captures n_pre_dark·num_recursive_images frames, only when n_pre_dark > 0 |
| EnergyScan.RepetitionCounts | aps_32id/run/energy_scan.py:185-202 | each repetition is a fresh sweep whose first energy corrects backlash again, capturing `num_recursive_images`·`total_projections` frames |
| EnergyScan.RepetitionsMoves | aps_32id/run/energy_scan.py:185-202 | n repetitions make n copies of the sweep's energy moves |
| EnergyScan.RepetitionsCaptured | aps_32id/run/energy_scan.py:185-202 | n repetitions capture n times the frames of one |
| EnergyScan.RunEnergyScan | aps_32id/run/energy_scan.py:118-219 | the NanoTXM is built when none is given, then inside `run_scan` the detector set-up and the repetitions, then the energy write, whose OSError becomes a warning; with no repetition the file name is unbound and NameError escapes |
| EnergyScan.EnergyScanNew | aps_32id/run/energy_scan_new.py:75-188 | a permit fails the assertion; with no `txm` the constructor call raises TypeError; otherwise one acquisition with no `run_scan`, an OSError on the energy write becoming a warning |
| EnergyScan.EnergyScanNewMain | aps_32id/run/energy_scan_new.py:229-235 | `main` passes `SHUTTER_PERMIT`, which is True, so the scan stops at its assertion before any instrument call |
| EnergyScan.TomoEnergyScan | tomo/32id/energy_scan.py:107-109 | the constructor call with `is_attached` raises TypeError before any other call |
| EnergyScan.TomoEnergyScanBody | tomo/32id/energy_scan.py:107-165 | with the constructor call the script evidently means: set-up, one acquisition whose repositioning runs in a blocking `wait_pvs` scope, then the energy write, an OSError from which escapes |

## Left out

- The EPICS client: `pv_get`, `_pv_put` and `epics_PV` are replaced by the
  in-memory device map of `tests/tools.py`. How the device answers a put is
  a fixed map from PV name to reply.
- `as_string`: it is kept in the descriptor, but the in-memory device
  ignores it.
- Wall-clock time and `time.sleep`: read j of a `wait_pv` happens j poll
  intervals after the start. The readings are a finite sequence, and a
  wait still undecided when they run out ends as StillPolling (Exhausted).
- Asynchronous completion: the put callbacks of the EPICS client thread
  arrive as rounds of PV names (`fired`). `wait_pvs` stops with
  StillPolling when the rounds run out.
- Floating-point optics in `move_energy` (wavelength, focal length, square
  roots, magnification): abstracted as a function that either fails
  (guarded or not) or gives the detector and zone-plate targets. Numbers
  are exact reals.
- The PV name tables: only the descriptors the modelled operations use are
  declared. A `wait_pv` on any other name raises as an unknown attribute
  would.
- Aliasing of the yielded queue: `TomoTxmModel.Txm.WaitPvsEnter` returns
  the new empty queue by value, not as a shared list.
- `_trigger_projections`, `setup_detector`, `setup_hdf_writer`,
  `reset_ccd`, `enable_fast_shutter`, `disable_fast_shutter`: not
  modelled. A trigger is recorded as its frame count, the scripts'
  set-up calls as call records, and of the fast-shutter calls only the
  flag is kept.
- NanoTxmModel.NanoTxm.RunScanExit: the `reset_ccd` writes are not part of
  the teardown log, so the teardown contract states the exposure puts as
  the last ones without the CCD reset before them.
- The energy-scan scripts: modelled as the sequence of instrument calls
  each makes, with each call assumed to return normally.
  In this form a call does not fail, and the device is not threaded
  through.
- HDF5 file I/O: whether the energy write raises OSError is a parameter
  (`saveFails`). Logging, the command-line parsing of `main` and
  `update_variable_dict`, and the remote verifier's SSH launch are not
  modelled.
- `MicroTXM`, `MicroCT`, `capture_tomogram*`, the fly, step and mosaic
  scan scripts, and the old `exposure_time` of tomo/32id/txm.py: not part
  of this model.
- Energies in `ScanTools` are integers. NumPy's floating-point `arange` is
  not modelled.
- The 180/N scaling of `gen_interlaced_views` is left out: the views are
  the unscaled indices.
- `wait_pvs` on a body that raises: the exit is not reached, so the saved
  queue is not restored. This is modelled by not calling
  `WaitPvsExit`, not as an exception path.
- TomoScanLib.GenInterlacedViews: requires N > 0 and K >= 2 dividing N.
  For K not dividing N, `N/K` floors under Python 2 and is fractional
  under Python 3, giving fractional views; for K = 1, `bitreversed_decimal`
  returns None and the view becomes NaN; N = 0 raises ZeroDivisionError
  at `180/N`. None of these is modelled.
- Common.FloatOf: text is parsed as an ASCII decimal literal. The
  spellings `inf`, `nan` and `infinity`, digit-group underscores,
  non-ASCII digits and non-ASCII whitespace are not modelled, and neither
  is rounding to the nearest double: the value is the exact rational.
- Comparisons follow Python 3: comparing None or a string with a number
  raises TypeError. Under Python 2 such comparisons succeed (None and
  numbers sort before strings), so `6.4 <= None <= 30` in the range checks
  of `move_energy` (for example tomo/32id/txm.py:454) is False and ends in
  EnergyError instead. This concerns NanoTxmModel.PlanEnergyMove,
  TomoTxmModel.PlanEnergyMove and the `max` of ExposureOf, which raises
  under Python 3 where Python 2 would pick one of the values.
- Python 2 iteration (`iteritems`, `has_key`): the model uses the
  dictionary semantics they have.

## Findings

| source | as written | input that shows it | evidently intended | confidence | as-written member | corrected member |
|---|---|---|---|---|---|---|
| tomo/32id/energy_scan.py:107-109 | `TXM(is_attached=is_attached, ...)`, but `TXM.__init__` (tomo/32id/txm.py:266-267) takes no `is_attached` | any call of `energy_scan` | `TXM(has_permit=has_permit, ioc_prefix=IOC_PREFIX, use_shutter_A=False, use_shutter_B=True)` | not executed | EnergyScan.TomoEnergyScan | EnergyScan.TomoEnergyScanBody |
| scanlib/txm_pv.py:55 | `if obj.has_permit and False:` never calls the wrapped method | a decorated method called with `has_permit=True` | call it when `obj.has_permit` holds, as the doc-comment's example (lines 42-44) and the tomo revision say | not executed | PvDescriptor.PermitDecoratorsDiffer | PvDescriptor.TomoPermitRequired |
