# cuepoint-media, modelled in Dafny

The repository's core is an Angular directive that tracks the cuepoints of an
HTML media element. A cuepoint is a timestamped, named marker of kind
`event`, `nav` or `both`. It may carry a `func` closure. The directive exists in
two variants, which are modelled side by side:

- `projects/cuepoint-media-ng` (module `CuepointMediaNg`, file `directive_ng.dfy`):
  - seeks by name or by index;
  - its nav confirmation window is `[target - tolerance, target + tolerance)`;
  - it forgets the last fired cuepoint on `playing` only when that cuepoint lies
    more than `tolerance` ahead of the play position.
- `projects/cuepoint-media` (module `CuepointMedia`, file `directive.dfy`), the older variant:
  - seeks by name only;
  - its nav confirmation window is `[target - 0.2, target + tolerance)`;
  - its rewind test compares against `currentTime - tolerance`.

Both variants keep the same state:
- the cuepoint list, sorted in place by time, and its cached `length`;
- `mode` (`event` or `nav`);
- `curCuepoint` (the last cuepoint that fired);
- `navCuepoint` (the seek target);
- `hasListeners`.

Each directive is a class with these fields. Each source method has a method of
the same name, with two exceptions. Each block of `ngOnChanges` is its own method
(`SetCuepoints`, `ListenChanged`, and `GoToChanged` or `GoToNameChanged`,
`GoToIndexChanged`, `GoToTimeChanged`), which `NgOnChanges` calls in order. The
newer variant's `seekCuepoint` is split by the type of its argument into
`SeekCuepointByName` and `SeekCuepointByIndex`. The older variant's class also
keeps a `bound` flag for whether `ngOnInit` has run (see below), and its
`ChangesUnbound` method, which matches no source method, runs the listen and
`goTo` blocks as they behave before `ngOnInit`. Every method promises `State() == F(old(State()), …)`,
where `F` is a pure step function on the value `Tracking.Tracker`. The
properties are lemmas about those step functions. Steps whose code is the same
in both variants live once, in `tracking.dfy`: the hit handler, the frame scan,
listener toggling, the `seeked` handler and the nav timer, whose window's lower
edge each variant passes in. `cuepoint.dfy` holds the cuepoint
record, the in-place sort and lookup by name.

The directive's effects on its host are appended, in order, to an `effects`
log. The log records:
- the emitted event and the `func` call;
- `requestAnimationFrame` and `cancelAnimationFrame`;
- `setInterval` and `clearInterval` of the nav timer;
- every write of `media.currentTime`;
- a `TypeError` that escapes a handler (`Threw`).

Each host callback is a step that is called explicitly. It takes as parameters
what it reads from the media element: `currentTime`, `paused`, `ended`, and the
`tolerance` input. Times are `real`. A cuepoint carries an explicit `id`, so
datatype equality stands for the reference identity that `update` uses to skip
the last fired cuepoint.

Behaviours of the code worth knowing, each with the lemma that shows it:
- Only the last fired cuepoint is suppressed. Two event cuepoints closer together
  than the tolerance therefore fire alternately while the position is inside
  both windows (`Tracking.CloseCuepointsAlternate`). The cuepoint that fired
  last is never fired again by the next `update` call
  (`Tracking.NoRefireOnNextSample`). One display frame may run several `update`
  calls (next item), so the same cuepoint can fire again within one frame
  (`Tracking.SameFrameRefire`).
- In the newer variant, an index seek out of range is not a no-op. It enters nav
  mode with no target (`CuepointMediaNg.SeekByIndexIsUnconditional`). After that,
  no frame or media event fires anything or leaves nav mode until an input
  changes (`CuepointMediaNg.StrandedNavModeStaysSilent`). A name seek that misses,
  or that finds an `event` cuepoint, clears the target but keeps the mode. So in
  that variant event mode always comes without a target, but nav mode may lack
  one (`CuepointMediaNg.RunKeepsEventModeUntargeted`). In the older variant nav
  mode and a present target always go together
  (`CuepointMedia.RunKeepsModeMatchingTarget`, `CuepointMedia.LifecycleKeepsModeMatchingTarget`).
- The nav window of the newer variant is `[target - tolerance, target + tolerance)`.
  With tolerance 0.3 and a target at 20.0, the position 19.71 is inside the window
  (`CuepointMediaNg.NavWindowExamples`).
- While listening, an `update` that fires requests two animation frames: one from
  `onCuepoint` and one from `update` itself; one that does not fire requests one
  (`Tracking.FiringSampleArmsTwice`). A nav hit also requests a frame from
  `onCuepoint` while the frame loop keeps re-arming, and a `playing` event during
  playback requests one while a loop is still running. So a firing `update`, a
  nav hit and a `playing` event during playback each add one frame loop. All of
  them stop at the first paused or ended frame (`Tracking.StoppedSampleIsInert`),
  or at the first frame after listening is switched off, because switching off
  cancels only the last requested frame. That last frame still scans and may
  fire (`Tracking.UnlistenedSampleDoesNotRearm`,
  `Tracking.LastFrameAfterUnlistenStillFires`).
- In the older variant, pausing and resuming inside a cuepoint's window fires that
  cuepoint again (`CuepointMedia.ResumeInsideWindowRefires`).
- The older variant sets `media` only in `ngOnInit`, and Angular delivers the first
  `ngOnChanges` before `ngOnInit`. A first change that switches listening on sets
  `hasListeners` and then throws, so no listener is attached and no frame is
  requested. The next `listen` change, to false, only cancels a frame that was
  never requested; tracking starts once `listen` is switched on again
  (`CuepointMedia.ListenBeforeInitStallsTracking`). A first
  `goTo` to a nav cuepoint sets the target and nav mode, then throws before the
  seek (`CuepointMedia.GoToBeforeInitSkipsSeek`). The newer variant sets `media` in
  its constructor and has no such window.

## Model

| member | source | states |
|---|---|---|
| `CuepointData.SortByTime` | projects/cuepoint-media-ng/src/lib/cuepoint-media.directive.ts:89 | the list afterwards is non-decreasing by time and a permutation (same multiset) of the list before |
| `CuepointData.FindByName` | projects/cuepoint-media-ng/src/lib/cuepoint-media.directive.ts:122-123 | `find` by name: the result is the first position holding that name, and None means no cuepoint has it |
| `Tracking.FirstEligible` | projects/cuepoint-media-ng/src/lib/cuepoint-media.directive.ts:184-194 | the forward scan's choice: an eligible position (not the last fired, kind event or both, `time <= currentTime < time + tolerance`) with no eligible one before it, or None when none is eligible |
| `Tracking.HitEmitsOnce` | projects/cuepoint-media-ng/src/lib/cuepoint-media.directive.ts:111-118 | `onCuepoint` makes the hit the last fired cuepoint, emits it exactly once and sets event mode; the list and the nav target are unchanged |
| `Tracking.HitCallsFuncIffPresent` | projects/cuepoint-media-ng/src/lib/cuepoint-media.directive.ts:114-115 | the emit comes first, and the `func` call follows it exactly when the cuepoint has a `func` |
| `Tracking.StoppedSampleIsInert` | projects/cuepoint-media-ng/src/lib/cuepoint-media.directive.ts:180 | while paused or ended, `update` changes no state, fires nothing and does not re-arm |
| `Tracking.SampleFiresLowestEligible` | projects/cuepoint-media-ng/src/lib/cuepoint-media.directive.ts:179-197 | one `update` fires at most one cuepoint; it fires exactly when it runs in event mode and some cuepoint is eligible, and the one fired is the lowest-index eligible cuepoint |
| `Tracking.NoRefireOnNextSample` | projects/cuepoint-media-ng/src/lib/cuepoint-media.directive.ts:187 | right after a hit, the next `update` fires nothing or fires a different cuepoint |
| `Tracking.FirstEligibleIsEarliest` | projects/cuepoint-media-ng/src/lib/cuepoint-media.directive.ts:184-192 | on a list sorted by time, the cuepoint the scan picks has the earliest time among the eligible ones |
| `Tracking.CloseCuepointsAlternate` | projects/cuepoint-media-ng/src/lib/cuepoint-media.directive.ts:184-192 | cuepoints at 5.0 and 5.1 with tolerance 0.3, sampled at 5.0, 5.1 and 5.15, fire a, b, a: only the last fired cuepoint is skipped |
| `Tracking.SameFrameRefire` | projects/cuepoint-media-ng/src/lib/cuepoint-media.directive.ts:111-197 | with event cuepoints at 5.0 and 5.1, the firing `update` at 5.0 leaves two frame requests; two `update` calls at 5.1 then fire b and then a again, for emitted [a, b, a] |
| `Tracking.UnlistenedSampleDoesNotRearm` | projects/cuepoint-media-ng/src/lib/cuepoint-media.directive.ts:179-197 | an `update` that runs after listening was switched off requests no frame: it adds nothing, or exactly the firing of one eligible cuepoint |
| `Tracking.LastFrameAfterUnlistenStillFires` | projects/cuepoint-media-ng/src/lib/cuepoint-media.directive.ts:147-197 | `removeListeners` cancels only the held frame; a pending `update` at 5.0 still emits a cuepoint at 5.0 after listening is switched off, and ends with the emit rather than a frame request |
| `Tracking.FiringSampleArmsTwice` | projects/cuepoint-media-ng/src/lib/cuepoint-media.directive.ts:179-197 | while listening, an `update` that fires ends with two frame requests (one from `onCuepoint` at :117, one at :196) |
| `Tracking.ListenIdempotent` | projects/cuepoint-media-ng/src/lib/cuepoint-media.directive.ts:93-96 | the listen toggle leaves `hasListeners` equal to the requested value, and applying it twice is the same as once |
| `Tracking.NavTickFiresIffInWindow` | projects/cuepoint-media-ng/src/lib/cuepoint-media.directive.ts:161-170 | with a target, the timer fires it exactly when `target - below <= currentTime < target + tolerance` (`below` is the tolerance here and 0.2 in projects/cuepoint-media/src/lib/cuepoint-media.directive.ts:110), then clears the target and sets event mode; outside the window nothing changes; with no target it only stops the timer |
| `Tracking.NavHitNotRepeated` | projects/cuepoint-media-ng/src/lib/cuepoint-media.directive.ts:161-170 | after a nav hit, the next `update` fires nothing or a cuepoint other than the target |
| `Tracking.EventWindowExamples` | projects/cuepoint-media-ng/src/lib/cuepoint-media.directive.ts:189 | with tolerance 0.3, a cuepoint at 10.0 does not match at 9.9 or 10.3, and matches at 10.0 and 10.29 |
| `CuepointMediaNg.NavWindowExamples` | projects/cuepoint-media-ng/src/lib/cuepoint-media.directive.ts:163 | with tolerance 0.3 around 20.0, the nav window holds 19.7, 19.71 and 20.29, and not 19.69 or 20.3 |
| `CuepointMediaNg.SeekByNameTargetsFirstNamed` | projects/cuepoint-media-ng/src/lib/cuepoint-media.directive.ts:120-132 | a name seek targets the first cuepoint with that name exactly when it is of kind nav or both, then enters nav mode and seeks to its time; otherwise the target is cleared and the mode and position are unchanged |
| `CuepointMediaNg.SeekByIndexIsUnconditional` | projects/cuepoint-media-ng/src/lib/cuepoint-media.directive.ts:120-132 | an index seek always enters nav mode and keeps the list, the last hit and the listeners; in range, it targets and seeks to that cuepoint whatever its kind; out of range, it leaves no target and does not seek |
| `CuepointMediaNg.PlayingClearsOnlyAfterRewind` | projects/cuepoint-media-ng/src/lib/cuepoint-media.directive.ts:172-177 | `playing` forgets the last fired cuepoint exactly when its time is greater than `currentTime + tolerance`, fires nothing, and leaves mode, target and list alone |
| `CuepointMediaNg.ResumeDoesNotRefire` | projects/cuepoint-media-ng/src/lib/cuepoint-media.directive.ts:174 | resuming at a position no more than the tolerance before the last fired cuepoint keeps it suppressed for the next `update` call (one frame may run several) |
| `CuepointMediaNg.FalsyControlsIgnored` | projects/cuepoint-media-ng/src/lib/cuepoint-media.directive.ts:98-108 | an empty name, index 0 and time 0 are ignored by `ngOnChanges` |
| `CuepointMediaNg.StepKeepsEventModeUntargeted` | projects/cuepoint-media-ng/src/lib/cuepoint-media.directive.ts:86-197 | every handler keeps the invariant that event mode has no nav target |
| `CuepointMediaNg.RunKeepsEventModeUntargeted` | projects/cuepoint-media-ng/src/lib/cuepoint-media.directive.ts:86-197 | the same invariant holds after any sequence of inputs |
| `CuepointMediaNg.StrandedNavModeStaysSilent` | projects/cuepoint-media-ng/src/lib/cuepoint-media.directive.ts:156-197 | from nav mode with no target, any sequence of frames, seeked events, timer ticks and playing events fires nothing and stays in nav mode |
| `CuepointMediaNg.RunConcat` | projects/cuepoint-media-ng/src/lib/cuepoint-media.directive.ts:86-197 | running two input sequences one after the other is running their concatenation |
| `CuepointMediaNg.TwoMarkerPlayback` | projects/cuepoint-media-ng/src/lib/cuepoint-media.directive.ts:179-197 | with an event cuepoint "a" at 5 and a nav cuepoint "b" at 15, listening switched on while paused and playback started at 0, frames at 4.9, 5.0, 5.2 and 8.0 fire "a" once and never "b" |
| `CuepointMediaNg.TwoMarkerNavigation` | projects/cuepoint-media-ng/src/lib/cuepoint-media.directive.ts:120-170 | then a name seek to "b" seeks to 15.0, and after `seeked` the timer at 15.1 fires "b" once and returns to event mode |
| `CuepointMediaNg.TwoMarkerScenario` | projects/cuepoint-media-ng/src/lib/cuepoint-media.directive.ts:86-197 | the whole run emits exactly [a, b], ends in event mode with no target, and seeks to 15.0 |
| `CuepointMediaNg.CuepointMediaDirective.constructor` | projects/cuepoint-media-ng/src/lib/cuepoint-media.directive.ts:57-66 | starts in event mode with no cuepoints, no last hit, no target and no listeners |
| `CuepointMediaNg.CuepointMediaDirective.NgOnChanges` | projects/cuepoint-media-ng/src/lib/cuepoint-media.directive.ts:86-109 | a new list becomes the field, sorted in place and a permutation of what was passed; then `State() == CuepointMediaNg.OnChanges(…)`: the listen, name, index and time blocks in order |
| `CuepointMediaNg.CuepointMediaDirective.SetCuepoints` | projects/cuepoint-media-ng/src/lib/cuepoint-media.directive.ts:88-91 | the passed array becomes the list, sorted by time, a permutation of its old contents, with `length` equal to its size |
| `CuepointMediaNg.CuepointMediaDirective.ListenChanged` | projects/cuepoint-media-ng/src/lib/cuepoint-media.directive.ts:93-96 | `State() == CuepointMediaNg.ListenChange(old(State()), cpListen, paused)`: adds listeners only when asked to listen and not listening, and removes them only in the opposite case |
| `CuepointMediaNg.CuepointMediaDirective.GoToNameChanged` | projects/cuepoint-media-ng/src/lib/cuepoint-media.directive.ts:98-100 | `State() == CuepointMediaNg.NameChange(old(State()), goToName)`: seeks by name only for a non-empty name |
| `CuepointMediaNg.CuepointMediaDirective.GoToIndexChanged` | projects/cuepoint-media-ng/src/lib/cuepoint-media.directive.ts:102-104 | `State() == CuepointMediaNg.IndexChange(old(State()), goToIndex)`: seeks by index only for a nonzero index |
| `CuepointMediaNg.CuepointMediaDirective.GoToTimeChanged` | projects/cuepoint-media-ng/src/lib/cuepoint-media.directive.ts:106-108 | `State() == CuepointMediaNg.TimeChange(old(State()), goToTime)`: writes a nonzero time to the media position and does nothing else |
| `CuepointMediaNg.CuepointMediaDirective.OnCuepoint` | projects/cuepoint-media-ng/src/lib/cuepoint-media.directive.ts:111-118 | `State() == Tracking.Hit(old(State()), cuepoint)`: the hit step, whose promises `Tracking.HitEmitsOnce` and `Tracking.HitCallsFuncIffPresent` state |
| `CuepointMediaNg.CuepointMediaDirective.SeekCuepointByName` | projects/cuepoint-media-ng/src/lib/cuepoint-media.directive.ts:120-132 | `State() == CuepointMediaNg.SeekByName(old(State()), name)`, characterised by `CuepointMediaNg.SeekByNameTargetsFirstNamed` |
| `CuepointMediaNg.CuepointMediaDirective.SeekCuepointByIndex` | projects/cuepoint-media-ng/src/lib/cuepoint-media.directive.ts:120-132 | `State() == CuepointMediaNg.SeekByIndex(old(State()), i)`, characterised by `CuepointMediaNg.SeekByIndexIsUnconditional` |
| `CuepointMediaNg.CuepointMediaDirective.AddListeners` | projects/cuepoint-media-ng/src/lib/cuepoint-media.directive.ts:137-145 | `State() == Tracking.AddListeners(old(State()), paused)`: sets `hasListeners` and requests a frame unless paused |
| `CuepointMediaNg.CuepointMediaDirective.RemoveListeners` | projects/cuepoint-media-ng/src/lib/cuepoint-media.directive.ts:147-154 | `State() == Tracking.RemoveListeners(old(State()))`: clears `hasListeners` and cancels the pending frame |
| `CuepointMediaNg.CuepointMediaDirective.OnMediaSeeked` | projects/cuepoint-media-ng/src/lib/cuepoint-media.directive.ts:156-159 | `State() == Tracking.Seeked(old(State()))`: starts the nav timer exactly when in nav mode with a target |
| `CuepointMediaNg.CuepointMediaDirective.OnNavTimer` | projects/cuepoint-media-ng/src/lib/cuepoint-media.directive.ts:161-170 | `State() == Tracking.NavTick(old(State()), currentTime, tolerance, tolerance)`: the symmetric window, characterised by `Tracking.NavTickFiresIffInWindow` |
| `CuepointMediaNg.CuepointMediaDirective.OnMediaPlaying` | projects/cuepoint-media-ng/src/lib/cuepoint-media.directive.ts:172-177 | `State() == CuepointMediaNg.Playing(old(State()), currentTime, tolerance)`, characterised by `CuepointMediaNg.PlayingClearsOnlyAfterRewind` |
| `CuepointMediaNg.CuepointMediaDirective.Update` | projects/cuepoint-media-ng/src/lib/cuepoint-media.directive.ts:179-197 | the scan over `index` with its early exit yields `Tracking.Sample` of the old state (characterised by `Tracking.SampleFiresLowestEligible`); when it scans, `index` ends at the fired position, or at `length` if nothing fired; otherwise `index` is unchanged |
| `CuepointMedia.NavWindowLowerEdgeFixed` | projects/cuepoint-media/src/lib/cuepoint-media.directive.ts:110 | with tolerance 0.5 around 20.0, the window opens at 19.8 (0.2 before), not at 19.5, and closes before 20.5 |
| `CuepointMedia.SeekByNameTargetsFirstNamed` | projects/cuepoint-media/src/lib/cuepoint-media.directive.ts:71-79 | a name seek changes state exactly when the first cuepoint with that name is of kind nav or both, and then targets it, enters nav mode and seeks to its time; otherwise nothing changes, an earlier target included |
| `CuepointMedia.PlayingClearsUnlessWellBehind` | projects/cuepoint-media/src/lib/cuepoint-media.directive.ts:119-124 | `playing` forgets the last fired cuepoint exactly when its time is greater than `currentTime - tolerance`, and fires nothing |
| `CuepointMedia.ResumeInsideWindowRefires` | projects/cuepoint-media/src/lib/cuepoint-media.directive.ts:121 | a cuepoint at 10.0 that fired at 10.0 fires again after a pause and resume at 10.1 |
| `CuepointMedia.EmptyGoToIgnored` | projects/cuepoint-media/src/lib/cuepoint-media.directive.ts:57-59 | an empty `goTo` name does not seek |
| `CuepointMedia.StepKeepsModeMatchingTarget` | projects/cuepoint-media/src/lib/cuepoint-media.directive.ts:45-144 | every handler keeps nav mode and a present target together: one holds exactly when the other does |
| `CuepointMedia.RunKeepsModeMatchingTarget` | projects/cuepoint-media/src/lib/cuepoint-media.directive.ts:45-144 | the same invariant holds after any sequence of inputs |
| `CuepointMedia.ListenBeforeInitStallsTracking` | projects/cuepoint-media/src/lib/cuepoint-media.directive.ts:52-101 | a first change switching listening on before `ngOnInit` sets `hasListeners` and logs only the throw (no frame, no seek); the next change, to false, only logs a cancel, and switching on again then attaches and requests a frame unless paused |
| `CuepointMedia.GoToBeforeInitSkipsSeek` | projects/cuepoint-media/src/lib/cuepoint-media.directive.ts:71-79 | a `goTo` before `ngOnInit` changes the state exactly when a bound seek would, and then to the same target and nav mode, with the throw logged in place of the `Seek` |
| `CuepointMedia.LifecycleKeepsModeMatchingTarget` | projects/cuepoint-media/src/lib/cuepoint-media.directive.ts:32-144 | starting with a first change before `ngOnInit`, nav mode and a present target go together after any later sequence of inputs |
| `CuepointMedia.CuepointMediaDirective.constructor` | projects/cuepoint-media/src/lib/cuepoint-media.directive.ts:16-30 | starts in event mode with no cuepoints, no last hit, no target and no listeners, before `ngOnInit` (`bound` false) |
| `CuepointMedia.CuepointMediaDirective.NgOnChanges` | projects/cuepoint-media/src/lib/cuepoint-media.directive.ts:45-60 | a new list becomes the field, sorted in place and a permutation of what was passed; once bound, `State() == CuepointMedia.OnChanges(…)` (listen, then `goTo`); before `ngOnInit`, `State() == CuepointMedia.OnChangesUnbound(…)`, which stops at the first use of `media` |
| `CuepointMedia.CuepointMediaDirective.NgOnInit` | projects/cuepoint-media/src/lib/cuepoint-media.directive.ts:32-43 | binds the media element (`bound`) and leaves the tracked state unchanged |
| `CuepointMedia.CuepointMediaDirective.ChangesUnbound` | projects/cuepoint-media/src/lib/cuepoint-media.directive.ts:52-59 | `State() == CuepointMedia.UnboundBlocks(old(State()), listen, goTo)`: the listen and `goTo` blocks run until `addListeners` (:86-87), `removeListeners` (:96-97) or `seekCuepoint` (:75-77) first touch the undefined `media` and throw |
| `CuepointMedia.CuepointMediaDirective.SetCuepoints` | projects/cuepoint-media/src/lib/cuepoint-media.directive.ts:47-50 | the passed array becomes the list, sorted by time, a permutation of its old contents, with `length` equal to its size |
| `CuepointMedia.CuepointMediaDirective.ListenChanged` | projects/cuepoint-media/src/lib/cuepoint-media.directive.ts:52-55 | `State() == CuepointMedia.ListenChange(old(State()), listen, paused)`: adds or removes listeners only on a real transition |
| `CuepointMedia.CuepointMediaDirective.GoToChanged` | projects/cuepoint-media/src/lib/cuepoint-media.directive.ts:57-59 | `State() == CuepointMedia.GoToChange(old(State()), goTo)`: seeks by name only for a non-empty name |
| `CuepointMedia.CuepointMediaDirective.OnCuepoint` | projects/cuepoint-media/src/lib/cuepoint-media.directive.ts:62-69 | `State() == Tracking.Hit(old(State()), cuepoint)`: the hit step, whose promises `Tracking.HitEmitsOnce` and `Tracking.HitCallsFuncIffPresent` state |
| `CuepointMedia.CuepointMediaDirective.SeekCuepoint` | projects/cuepoint-media/src/lib/cuepoint-media.directive.ts:71-79 | `State() == CuepointMedia.SeekByName(old(State()), name)`, characterised by `CuepointMedia.SeekByNameTargetsFirstNamed` |
| `CuepointMedia.CuepointMediaDirective.AddListeners` | projects/cuepoint-media/src/lib/cuepoint-media.directive.ts:84-92 | `State() == Tracking.AddListeners(old(State()), paused)`: sets `hasListeners` and requests a frame unless paused |
| `CuepointMedia.CuepointMediaDirective.RemoveListeners` | projects/cuepoint-media/src/lib/cuepoint-media.directive.ts:94-101 | `State() == Tracking.RemoveListeners(old(State()))`: clears `hasListeners` and cancels the pending frame |
| `CuepointMedia.CuepointMediaDirective.OnMediaSeeked` | projects/cuepoint-media/src/lib/cuepoint-media.directive.ts:103-106 | `State() == Tracking.Seeked(old(State()))`: starts the nav timer exactly when in nav mode with a target |
| `CuepointMedia.CuepointMediaDirective.OnNavTimer` | projects/cuepoint-media/src/lib/cuepoint-media.directive.ts:108-117 | `State() == Tracking.NavTick(old(State()), currentTime, NavLowerEdge, tolerance)`: the window opens 0.2 before the target, characterised by `Tracking.NavTickFiresIffInWindow` |
| `CuepointMedia.CuepointMediaDirective.OnMediaPlaying` | projects/cuepoint-media/src/lib/cuepoint-media.directive.ts:119-124 | `State() == CuepointMedia.Playing(old(State()), currentTime, tolerance)`, characterised by `CuepointMedia.PlayingClearsUnlessWellBehind` |
| `CuepointMedia.CuepointMediaDirective.Update` | projects/cuepoint-media/src/lib/cuepoint-media.directive.ts:126-144 | the scan over `index` with its early exit yields `Tracking.Sample` of the old state (characterised by `Tracking.SampleFiresLowestEligible`); when it scans, `index` ends at the fired position, or at `length` if nothing fired; otherwise `index` is unchanged |

## Left out

- Angular wiring is not modelled: `@Directive`, `@Input`, `@Output`, `SimpleChanges`, `ElementRef` and `cuepoint-media.module.ts`. A `changes` object is a record of optional fields. A present field means that input changed, and it holds the new value.
- `CuepointMedia.CuepointMediaDirective.NgOnInit` models only that `media` becomes bound. The callbacks it creates and the platform sniffing are not modelled. What Angular does after a first `ngOnChanges` throws (whether and when it still calls `ngOnInit`) is host behaviour and not modelled; the class lets `NgOnInit` be called at any time.
- `Run` in both variants models the directive once the media element is bound (the older variant's one earlier change is `CuepointMedia.OnChangesUnbound`). It delivers media events whatever the subscription; the host delivers `seeked` and `playing` only while listeners are attached. After the older variant's pre-`ngOnInit` throw, `hasListeners` is true while nothing is attached, which `Run` does not capture.
- DOM event subscription is not modelled. `addEventListener`/`removeEventListener` for `seeked`, `seeking` and `playing` are reduced to the `hasListeners` flag.
- Platform detection is not modelled. The `isAndroid` flag only decides whether `seeking` is also subscribed.
- Scheduling is modelled only as entries in the effects log. `requestAnimationFrame`, `cancelAnimationFrame`, `setInterval` and `clearInterval` appear there. The handles `rafID` and `navTimer` are not kept, and loops do not run by themselves. Each callback is a step that is called explicitly. So the model shows that two frame loops get requested, but not that both then keep running.
- The media element is not modelled. `currentTime`, `paused` and `ended` are parameters of each step. A write to `currentTime` is a `Seek` entry in the log. It does not change the position a later step receives.
- `tolerance` is a parameter of each step, not a field: it is an input that may change at any time. Each step receives the input's current value, which is 0.3 unless the host binds another.
- The body of a cuepoint's `func` is not modelled. The log records only that it was called, and the model assumes it returns. A `func` that throws would skip `mode = 'event'` and both frame requests, which stops the frame loop.
- `console.log` calls are not modelled.
- Times are exact reals. IEEE rounding of `time ± tolerance`, NaN and infinities are not modelled.
- An index is an `int`. A non-integer or NaN index (which JavaScript would read as `undefined` or as falsy) is not modelled.
- A `cuepoints` input changed to `null` or `undefined` is not modelled. The source would then hold a null list with a stale `length`, and the next scan would throw. In the model, such a change leaves the previous list in place.
- Reading the list before any list was given is not modelled. The source throws there; the model starts with an empty list.
- Changes that the caller makes to the shared array after it was sorted are not modelled. `Valid()` assumes the array stays as sorted.
- `CuepointData.SortByTime`: its contract states sorted by time and the same cuepoints, but not stability. `Array.prototype.sort` is stable, so tied cuepoints keep their input order and `update` fires the earlier-given one first. The insertion sort swaps only on a strict `>`, so it keeps that order as well, but this is not proved.
- The field `eventCuepoint` is a local variable of `Update`. The source writes it only inside the scan and never reads it elsewhere.
