/** The newer cuepoint-media directive (`a13CuepointMedia`): seeks by name or by
    index, a nav confirmation window symmetric around the target, and a rewind
    test that clears the last fired cuepoint only once it lies more than the
    tolerance ahead of the play position. */
module CuepointMediaNg {
  import opened CuepointData
  import opened Tracking

  /** `seekCuepoint(name)`: the first cuepoint with that name becomes the target
      when it is of kind nav or both, and the media seeks to it; otherwise the
      target is cleared and the mode is left as it was. */
  function SeekByName(s: Tracker, name: string): Tracker
  {
    var k := FindByName(s.cuepoints, 0, name);
    if k.Some? && (s.cuepoints[k.value].kind == Nav || s.cuepoints[k.value].kind == Both) then
      var target := s.cuepoints[k.value];
      s.(nav := Some(target), mode := NavMode, effects := s.effects + [Seek(target.time)])
    else
      s.(nav := None)
  }

  /** `seekCuepoint(index)`: any index enters nav mode; the media seeks only when
      the index is in range, whatever the kind of the cuepoint there. */
  function SeekByIndex(s: Tracker, index: int): Tracker
  {
    if 0 <= index < |s.cuepoints| then
      var target := s.cuepoints[index];
      s.(nav := Some(target), mode := NavMode, effects := s.effects + [Seek(target.time)])
    else
      s.(nav := None, mode := NavMode)
  }

  /** `onMediaPlaying`: forget the last fired cuepoint when the play position is
      now more than the tolerance behind it, then re-arm. */
  function Playing(s: Tracker, currentTime: real, tolerance: real): Tracker
  {
    var s1 := if s.cur.Some? && s.cur.value.time > currentTime + tolerance then s.(cur := None) else s;
    Rearm(s1)
  }

  /** The `cpListen` block of `ngOnChanges`: present means the input changed. */
  function ListenChange(s: Tracker, cpListen: Option<bool>, paused: bool): Tracker
  {
    if cpListen.Some? then Listen(s, cpListen.value, paused) else s
  }

  /** The `goToName` block: only a truthy (non-empty) name seeks. */
  function NameChange(s: Tracker, goToName: Option<string>): Tracker
  {
    if goToName.Some? && goToName.value != "" then SeekByName(s, goToName.value) else s
  }

  /** The `goToIndex` block: only a truthy (nonzero) index seeks. */
  function IndexChange(s: Tracker, goToIndex: Option<int>): Tracker
  {
    if goToIndex.Some? && goToIndex.value != 0 then SeekByIndex(s, goToIndex.value) else s
  }

  /** The `goToTime` block: a truthy (nonzero) time is written to the media as is. */
  function TimeChange(s: Tracker, goToTime: Option<real>): Tracker
  {
    if goToTime.Some? && goToTime.value != 0.0 then s.(effects := s.effects + [Seek(goToTime.value)]) else s
  }

  /** `ngOnChanges`: install the new list, if any (the directive sorts it in
      place first; nothing below depends on its order), then run the listen,
      name, index and time blocks in that order. */
  function OnChanges(s: Tracker, newList: Option<seq<Cuepoint>>, cpListen: Option<bool>,
                     goToName: Option<string>, goToIndex: Option<int>, goToTime: Option<real>,
                     paused: bool): Tracker
  {
    var s0 := if newList.Some? then s.(cuepoints := newList.value) else s;
    TimeChange(IndexChange(NameChange(ListenChange(s0, cpListen, paused), goToName), goToIndex), goToTime)
  }

  /** Everything the host can deliver to the directive. `newList` is the list
      a `cuepoints` change installs, as it stands after sorting. */
  datatype Input =
    | Frame(currentTime: real, paused: bool, ended: bool, tolerance: real)
    | SeekedEvent
    | NavTimerTick(currentTime: real, tolerance: real)
    | PlayingEvent(currentTime: real, tolerance: real)
    | Changed(newList: Option<seq<Cuepoint>>, cpListen: Option<bool>, goToName: Option<string>,
              goToIndex: Option<int>, goToTime: Option<real>, paused: bool)

  function Step(s: Tracker, input: Input): Tracker
  {
    match input
    case Frame(t, paused, ended, tol) => Sample(s, t, paused, ended, tol)
    case SeekedEvent => Seeked(s)
    case NavTimerTick(t, tol) => NavTick(s, t, tol, tol)
    case PlayingEvent(t, tol) => Playing(s, t, tol)
    case Changed(newList, listen, name, index, time, paused) => OnChanges(s, newList, listen, name, index, time, paused)
  }

  function Run(s: Tracker, inputs: seq<Input>): Tracker
    decreases |inputs|
  {
    if inputs == [] then s else Run(Step(s, inputs[0]), inputs[1..])
  }

  // ---------------------------------------------------------------------------
  // Properties

  /** The nav window of this variant is `[target - tolerance, target + tolerance)`.
      With tolerance 0.3 around a target at 20.0 it opens at
      19.7 inclusive (so 19.71 already matches) and closes before 20.3. */
  lemma NavWindowExamples()
    ensures !InNavWindow(20.0, 19.69, 0.3, 0.3)
    ensures InNavWindow(20.0, 19.7, 0.3, 0.3) && InNavWindow(20.0, 19.71, 0.3, 0.3) && InNavWindow(20.0, 20.29, 0.3, 0.3)
    ensures !InNavWindow(20.0, 20.3, 0.3, 0.3)
  {
  }

  /** A name seek enters nav mode and seeks exactly when the first cuepoint with
      that name exists and is of kind nav or both; otherwise it clears the target
      and leaves the mode and the position alone. */
  lemma SeekByNameTargetsFirstNamed(s: Tracker, name: string)
    ensures var r := SeekByName(s, name);
      r.cuepoints == s.cuepoints && r.cur == s.cur && r.hasListeners == s.hasListeners
    ensures var r := SeekByName(s, name);
      r.nav.Some? ==>
        exists k :: 0 <= k < |s.cuepoints| && r.nav.value == s.cuepoints[k] &&
          s.cuepoints[k].name == name && s.cuepoints[k].kind != Event &&
          (forall j :: 0 <= j < k ==> s.cuepoints[j].name != name) &&
          r.mode == NavMode && r.effects == s.effects + [Seek(s.cuepoints[k].time)]
    ensures var r := SeekByName(s, name);
      r.nav.None? <==>
        (forall k :: 0 <= k < |s.cuepoints| ==> s.cuepoints[k].name != name) ||
        (exists k :: 0 <= k < |s.cuepoints| && s.cuepoints[k].name == name && s.cuepoints[k].kind == Event &&
           forall j :: 0 <= j < k ==> s.cuepoints[j].name != name)
    ensures var r := SeekByName(s, name);
      r.nav.None? ==> r.mode == s.mode && r.effects == s.effects
  {
  }

  /** Any nonzero index enters nav mode; only an index in range seeks, to that
      cuepoint's time, whatever its kind. */
  lemma SeekByIndexIsUnconditional(s: Tracker, index: int)
    ensures var r := SeekByIndex(s, index);
      r.mode == NavMode && r.cur == s.cur && r.cuepoints == s.cuepoints && r.hasListeners == s.hasListeners
    ensures var r := SeekByIndex(s, index);
      0 <= index < |s.cuepoints| ==> r.nav == Some(s.cuepoints[index]) && r.effects == s.effects + [Seek(s.cuepoints[index].time)]
    ensures var r := SeekByIndex(s, index);
      !(0 <= index < |s.cuepoints|) ==> r.nav == None && r.effects == s.effects
  {
  }

  /** On playback (re)start the last fired cuepoint is forgotten exactly when it
      lies more than the tolerance ahead of the play position. */
  lemma PlayingClearsOnlyAfterRewind(s: Tracker, currentTime: real, tolerance: real)
    ensures var r := Playing(s, currentTime, tolerance);
      r.cur == (if s.cur.Some? && s.cur.value.time > currentTime + tolerance then None else s.cur)
    ensures var r := Playing(s, currentTime, tolerance);
      r.mode == s.mode && r.nav == s.nav && r.cuepoints == s.cuepoints && Emitted(r.effects) == Emitted(s.effects)
  {
    var s1 := if s.cur.Some? && s.cur.value.time > currentTime + tolerance then s.(cur := None) else s;
    RearmEmitsNothing(s1);
  }

  /** Resuming playback anywhere not more than the tolerance before the last
      fired cuepoint keeps it suppressed: the next `update` call does not fire it again. */
  lemma ResumeDoesNotRefire(s: Tracker, cp: Cuepoint, currentTime: real, tolerance: real)
    requires s.cur == Some(cp) && cp.time <= currentTime + tolerance
    ensures var p := Playing(s, currentTime, tolerance); var r := Sample(p, currentTime, false, false, tolerance);
      Emitted(r.effects) == Emitted(p.effects) ||
      exists k :: 0 <= k < |s.cuepoints| && s.cuepoints[k] != cp && Emitted(r.effects) == Emitted(p.effects) + [s.cuepoints[k]]
  {
    var p := Playing(s, currentTime, tolerance);
    assert p.cur == Some(cp) && p.cuepoints == s.cuepoints;
    SampleFiresLowestEligible(p, currentTime, false, false, tolerance);
  }

  /** The index and time inputs act only on truthy values: 0 is ignored, as is
      an empty name. */
  lemma FalsyControlsIgnored(s: Tracker, paused: bool)
    ensures OnChanges(s, None, None, Some(""), Some(0), Some(0.0), paused) == s
  {
  }

  /** In event mode there is never a nav target: every input keeps that. */
  lemma StepKeepsEventModeUntargeted(s: Tracker, input: Input)
    requires s.mode == EventMode ==> s.nav.None?
    ensures var r := Step(s, input); r.mode == EventMode ==> r.nav.None?
  {
    match input {
      case Changed(newList, listen, name, index, time, paused) =>
        var s0 := if newList.Some? then s.(cuepoints := newList.value) else s;
        var s1 := ListenChange(s0, listen, paused);
        assert s1.mode == s.mode && s1.nav == s.nav;
        var s2 := NameChange(s1, name);
        assert s2.mode == EventMode ==> s2.nav.None?;
        var s3 := IndexChange(s2, index);
        assert s3.mode == EventMode ==> s3.nav.None?;
        assert Step(s, input) == TimeChange(s3, time);
      case _ =>
    }
  }

  lemma {:induction false} RunKeepsEventModeUntargeted(s: Tracker, inputs: seq<Input>)
    requires s.mode == EventMode ==> s.nav.None?
    ensures var r := Run(s, inputs); r.mode == EventMode ==> r.nav.None?
    decreases |inputs|
  {
    if inputs != [] {
      StepKeepsEventModeUntargeted(s, inputs[0]);
      RunKeepsEventModeUntargeted(Step(s, inputs[0]), inputs[1..]);
    }
  }

  /** Nav mode with no target, which an index seek out of range leaves behind,
      is a dead end: until an input changes, no host event fires anything or
      leaves nav mode. The seeked handler starts no timer, frames do not scan,
      and the timer (if one runs) only stops itself. */
  lemma {:induction false} StrandedNavModeStaysSilent(s: Tracker, inputs: seq<Input>)
    requires s.mode == NavMode && s.nav.None?
    requires forall i :: 0 <= i < |inputs| ==> !inputs[i].Changed?
    ensures var r := Run(s, inputs);
      r.mode == NavMode && r.nav.None? && Emitted(r.effects) == Emitted(s.effects)
    decreases |inputs|
  {
    if inputs != [] {
      var next := Step(s, inputs[0]);
      match inputs[0] {
        case Frame(t, paused, ended, tol) =>
          if !paused && !ended { RearmEmitsNothing(s); }
        case SeekedEvent =>
        case NavTimerTick(t, tol) =>
          EmittedAppend(s.effects, [ClearNavTimer]);
        case PlayingEvent(t, tol) =>
          PlayingClearsOnlyAfterRewind(s, t, tol);
      }
      assert next.mode == NavMode && next.nav.None? && Emitted(next.effects) == Emitted(s.effects);
      StrandedNavModeStaysSilent(next, inputs[1..]);
    }
  }

  lemma {:induction false} RunConcat(s: Tracker, xs: seq<Input>, ys: seq<Input>)
    ensures Run(s, xs + ys) == Run(Run(s, xs), ys)
    decreases |xs|
  {
    if xs == [] {
      assert xs + ys == ys;
    } else {
      assert (xs + ys)[0] == xs[0] && (xs + ys)[1..] == xs[1..] + ys;
      RunConcat(Step(s, xs[0]), xs[1..], ys);
    }
  }

  /** First half of the scenario below: listening is switched on while paused
      with the list [a, b], playback starts at 0, and frames at 4.9, 5.0, 5.2
      and 8.0 fire "a" once and never "b". */
  lemma TwoMarkerPlayback(a: Cuepoint, b: Cuepoint)
    requires a == Cuepoint(1, 5.0, Event, "a", false) && b == Cuepoint(2, 15.0, Nav, "b", false)
    ensures var r := Run(Initial(), [
        Changed(Some([a, b]), Some(true), None, None, None, true), PlayingEvent(0.0, 0.3),
        Frame(4.9, false, false, 0.3), Frame(5.0, false, false, 0.3),
        Frame(5.2, false, false, 0.3), Frame(8.0, false, false, 0.3)]);
      r.cuepoints == [a, b] && r.mode == EventMode && r.nav.None? && r.cur == Some(a) && Emitted(r.effects) == [a]
  {
    var inputs := [
        Changed(Some([a, b]), Some(true), None, None, None, true), PlayingEvent(0.0, 0.3),
        Frame(4.9, false, false, 0.3), Frame(5.0, false, false, 0.3),
        Frame(5.2, false, false, 0.3), Frame(8.0, false, false, 0.3)];
    var s0 := Step(Initial(), inputs[0]);
    assert s0 == Initial().(cuepoints := [a, b], hasListeners := true);
    var p := Step(s0, inputs[1]);
    assert p == s0.(effects := [RequestFrame]);
    assert FirstEligible([a, b], 0, None, 4.9, 0.3) == None;
    var s1 := Step(p, inputs[2]);
    assert s1 == p.(effects := [RequestFrame, RequestFrame]);
    assert FirstEligible([a, b], 0, None, 5.0, 0.3) == Some(0);
    var s2 := Step(s1, inputs[3]);
    assert s2 == Rearm(Hit(s1, a));
    assert FirstEligible([a, b], 0, Some(a), 5.2, 0.3) == None;
    var s3 := Step(s2, inputs[4]);
    assert s3 == Rearm(s2);
    assert FirstEligible([a, b], 0, Some(a), 8.0, 0.3) == None;
    var s4 := Step(s3, inputs[5]);
    assert s4 == Rearm(s3);
    assert Run(s4, inputs[6..]) == s4;
    assert Run(s3, inputs[5..]) == Run(s4, inputs[6..]);
    assert Run(s2, inputs[4..]) == Run(s3, inputs[5..]);
    assert Run(s1, inputs[3..]) == Run(s2, inputs[4..]);
    assert Run(p, inputs[2..]) == Run(s1, inputs[3..]);
    assert Run(s0, inputs[1..]) == Run(p, inputs[2..]);
    assert Run(Initial(), inputs) == Run(s0, inputs[1..]);
    EmittedNone(s1.effects);
    HitEmitsOnce(s1, a);
    RearmEmitsNothing(Hit(s1, a));
    RearmEmitsNothing(s2);
    RearmEmitsNothing(s3);
  }

  /** Second half: from event mode with "a" last fired, a seek to "b" moves the
      media to 15, and once seeked the confirmation timer at 15.1 fires "b". */
  lemma TwoMarkerNavigation(s: Tracker, a: Cuepoint, b: Cuepoint)
    requires a == Cuepoint(1, 5.0, Event, "a", false) && b == Cuepoint(2, 15.0, Nav, "b", false)
    requires s.cuepoints == [a, b] && s.mode == EventMode && s.nav.None? && s.cur == Some(a)
    ensures var r := Run(s, [Changed(None, None, Some("b"), None, None, false), SeekedEvent, NavTimerTick(15.1, 0.3)]);
      Emitted(r.effects) == Emitted(s.effects) + [b] && r.mode == EventMode && r.nav.None? &&
      |r.effects| > |s.effects| && r.effects[|s.effects|] == Seek(15.0)
  {
    var inputs := [Changed(None, None, Some("b"), None, None, false), SeekedEvent, NavTimerTick(15.1, 0.3)];
    assert FindByName([a, b], 0, "b") == Some(1);
    var s5 := Step(s, inputs[0]);
    assert s5 == s.(nav := Some(b), mode := NavMode, effects := s.effects + [Seek(15.0)]);
    var s6 := Step(s5, inputs[1]);
    assert s6 == s5.(effects := s5.effects + [StartNavTimer]);
    var s7 := Step(s6, inputs[2]);
    assert s7 == Hit(s6, b).(nav := None);
    assert Run(s7, inputs[3..]) == s7;
    assert Run(s6, inputs[2..]) == Run(s7, inputs[3..]);
    assert Run(s5, inputs[1..]) == Run(s6, inputs[2..]);
    assert Run(s, inputs) == Run(s5, inputs[1..]);
    EmittedAppend(s.effects, [Seek(15.0)]);
    EmittedAppend(s5.effects, [StartNavTimer]);
    HitEmitsOnce(s6, b);
    assert s7.effects[|s.effects|] == s5.effects[|s.effects|];
  }

  /** An end-to-end scenario: an event cuepoint "a" at 5
      and a nav cuepoint "b" at 15, tolerance 0.3. Playing from 0 (listening
      switched on while paused, then a `playing` event) fires "a" once
      and never "b"; seeking to "b" at 8 moves the media to 15, and the
      confirmation timer at 15.1 fires "b" and returns to event mode. */
  lemma TwoMarkerScenario(a: Cuepoint, b: Cuepoint)
    requires a == Cuepoint(1, 5.0, Event, "a", false) && b == Cuepoint(2, 15.0, Nav, "b", false)
    ensures var r := Run(Initial(), [
        Changed(Some([a, b]), Some(true), None, None, None, true), PlayingEvent(0.0, 0.3),
        Frame(4.9, false, false, 0.3), Frame(5.0, false, false, 0.3),
        Frame(5.2, false, false, 0.3), Frame(8.0, false, false, 0.3),
        Changed(None, None, Some("b"), None, None, false),
        SeekedEvent, NavTimerTick(15.1, 0.3)]);
      Emitted(r.effects) == [a, b] && r.mode == EventMode && r.nav.None? && Seek(15.0) in r.effects
  {
    var play := [
        Changed(Some([a, b]), Some(true), None, None, None, true), PlayingEvent(0.0, 0.3),
        Frame(4.9, false, false, 0.3), Frame(5.0, false, false, 0.3),
        Frame(5.2, false, false, 0.3), Frame(8.0, false, false, 0.3)];
    var seek := [Changed(None, None, Some("b"), None, None, false), SeekedEvent, NavTimerTick(15.1, 0.3)];
    RunConcat(Initial(), play, seek);
    assert play + seek == [
        Changed(Some([a, b]), Some(true), None, None, None, true), PlayingEvent(0.0, 0.3),
        Frame(4.9, false, false, 0.3), Frame(5.0, false, false, 0.3),
        Frame(5.2, false, false, 0.3), Frame(8.0, false, false, 0.3),
        Changed(None, None, Some("b"), None, None, false),
        SeekedEvent, NavTimerTick(15.1, 0.3)];
    TwoMarkerPlayback(a, b);
    TwoMarkerNavigation(Run(Initial(), play), a, b);
  }

  // ---------------------------------------------------------------------------
  // The directive

  /** The `changes` argument of `ngOnChanges`: a field is present when that
      input changed, holding its new value. */
  datatype Changes = Changes(cuepoints: Option<array<Cuepoint>>, cpListen: Option<bool>,
                             goToName: Option<string>, goToIndex: Option<int>, goToTime: Option<real>)

  class CuepointMediaDirective {
    var cuepoints: array<Cuepoint>
    var length: int
    var index: int
    var mode: Mode
    var curCuepoint: Option<Cuepoint>
    var navCuepoint: Option<Cuepoint>
    var hasListeners: bool
    var effects: seq<Effect>

    ghost predicate Valid()
      reads this, cuepoints
    {
      length == cuepoints.Length && SortedByTime(cuepoints[..])
    }

    function State(): Tracker
      reads this, cuepoints
    {
      Tracker(cuepoints[..], mode, curCuepoint, navCuepoint, hasListeners, effects)
    }

    constructor ()
      ensures Valid() && State() == Initial()
    {
      cuepoints := new Cuepoint[0];
      length := 0;
      index := 0;
      mode := EventMode;
      curCuepoint := None;
      navCuepoint := None;
      hasListeners := false;
      effects := [];
    }

    method NgOnChanges(changes: Changes, paused: bool)
      requires Valid()
      modifies this, if changes.cuepoints.Some? then {changes.cuepoints.value} else {}
      ensures Valid()
      ensures changes.cuepoints.Some? ==>
        cuepoints == changes.cuepoints.value && multiset(cuepoints[..]) == old(multiset(changes.cuepoints.value[..]))
      ensures changes.cuepoints.None? ==> cuepoints == old(cuepoints)
      ensures index == old(index)
      ensures State() == OnChanges(old(State()), if changes.cuepoints.Some? then Some(cuepoints[..]) else None,
                                   changes.cpListen, changes.goToName, changes.goToIndex, changes.goToTime, paused)
    {
      if changes.cuepoints.Some? {
        SetCuepoints(changes.cuepoints.value);
      }
      ghost var s0 := State();
      ListenChanged(changes.cpListen, paused);
      GoToNameChanged(changes.goToName);
      GoToIndexChanged(changes.goToIndex);
      GoToTimeChanged(changes.goToTime);
      assert cuepoints[..] == s0.cuepoints;
    }

    /** A truthy `cuepoints` change: the new array becomes the list, sorted in
        place by time, and its size is cached in `length`. */
    method SetCuepoints(a: array<Cuepoint>)
      modifies this, a
      ensures Valid() && cuepoints == a && index == old(index)
      ensures multiset(a[..]) == old(multiset(a[..]))
      ensures State() == old(State()).(cuepoints := a[..])
    {
      cuepoints := a;
      SortByTime(cuepoints);
      length := cuepoints.Length;
    }

    /** A `cpListen` change: add or remove listeners only on a real transition. */
    method ListenChanged(cpListen: Option<bool>, paused: bool)
      requires Valid()
      modifies this
      ensures Valid() && cuepoints == old(cuepoints) && index == old(index)
      ensures State() == ListenChange(old(State()), cpListen, paused)
    {
      if cpListen.Some? {
        if cpListen.value && !hasListeners {
          AddListeners(paused);
        } else if !cpListen.value && hasListeners {
          RemoveListeners();
        }
      }
    }

    method GoToNameChanged(goToName: Option<string>)
      requires Valid()
      modifies this
      ensures Valid() && cuepoints == old(cuepoints) && index == old(index)
      ensures State() == NameChange(old(State()), goToName)
    {
      if goToName.Some? && goToName.value != "" {
        SeekCuepointByName(goToName.value);
      }
    }

    method GoToIndexChanged(goToIndex: Option<int>)
      requires Valid()
      modifies this
      ensures Valid() && cuepoints == old(cuepoints) && index == old(index)
      ensures State() == IndexChange(old(State()), goToIndex)
    {
      if goToIndex.Some? && goToIndex.value != 0 {
        SeekCuepointByIndex(goToIndex.value);
      }
    }

    method GoToTimeChanged(goToTime: Option<real>)
      requires Valid()
      modifies this
      ensures Valid() && cuepoints == old(cuepoints) && index == old(index)
      ensures State() == TimeChange(old(State()), goToTime)
    {
      if goToTime.Some? && goToTime.value != 0.0 {
        effects := effects + [Seek(goToTime.value)];
      }
    }

    method OnCuepoint(cuepoint: Cuepoint)
      requires Valid()
      modifies this
      ensures Valid() && cuepoints == old(cuepoints) && index == old(index)
      ensures State() == Hit(old(State()), cuepoint)
    {
      curCuepoint := Some(cuepoint);
      effects := effects + [Emit(cuepoint)];
      if cuepoint.hasFunc {
        effects := effects + [CallFunc(cuepoint)];
      }
      mode := EventMode;
      if hasListeners {
        effects := effects + [RequestFrame];
      }
    }

    method SeekCuepointByName(name: string)
      requires Valid()
      modifies this
      ensures Valid() && cuepoints == old(cuepoints) && index == old(index)
      ensures State() == SeekByName(old(State()), name)
    {
      var found := FindByName(cuepoints[..], 0, name);
      navCuepoint := if found.Some? then Some(cuepoints[found.value]) else None;
      if navCuepoint.Some? && (navCuepoint.value.kind == Nav || navCuepoint.value.kind == Both) {
        mode := NavMode;
        effects := effects + [Seek(navCuepoint.value.time)];
      } else {
        navCuepoint := None;
      }
    }

    method SeekCuepointByIndex(i: int)
      requires Valid()
      modifies this
      ensures Valid() && cuepoints == old(cuepoints) && index == old(index)
      ensures State() == SeekByIndex(old(State()), i)
    {
      navCuepoint := if 0 <= i < cuepoints.Length then Some(cuepoints[i]) else None;
      mode := NavMode;
      if navCuepoint.Some? {
        effects := effects + [Seek(navCuepoint.value.time)];
      }
    }

    method AddListeners(paused: bool)
      requires Valid()
      modifies this
      ensures Valid() && cuepoints == old(cuepoints) && index == old(index)
      ensures State() == Tracking.AddListeners(old(State()), paused)
    {
      hasListeners := true;
      if !paused {
        effects := effects + [RequestFrame];
      }
    }

    method RemoveListeners()
      requires Valid()
      modifies this
      ensures Valid() && cuepoints == old(cuepoints) && index == old(index)
      ensures State() == Tracking.RemoveListeners(old(State()))
    {
      hasListeners := false;
      effects := effects + [CancelFrame];
    }

    method OnMediaSeeked()
      requires Valid()
      modifies this
      ensures Valid() && cuepoints == old(cuepoints) && index == old(index)
      ensures State() == Seeked(old(State()))
    {
      if mode == NavMode && navCuepoint.Some? {
        effects := effects + [StartNavTimer];
      }
    }

    method OnNavTimer(currentTime: real, tolerance: real)
      requires Valid()
      modifies this
      ensures Valid() && cuepoints == old(cuepoints) && index == old(index)
      ensures State() == NavTick(old(State()), currentTime, tolerance, tolerance)
    {
      if navCuepoint.Some? {
        if currentTime >= navCuepoint.value.time - tolerance && currentTime < navCuepoint.value.time + tolerance {
          OnCuepoint(navCuepoint.value);
          navCuepoint := None;
        }
      } else {
        effects := effects + [ClearNavTimer];
      }
    }

    method OnMediaPlaying(currentTime: real, tolerance: real)
      requires Valid()
      modifies this
      ensures Valid() && cuepoints == old(cuepoints) && index == old(index)
      ensures State() == Playing(old(State()), currentTime, tolerance)
    {
      if curCuepoint.Some? && curCuepoint.value.time > currentTime + tolerance {
        curCuepoint := None;
      }
      if hasListeners {
        effects := effects + [RequestFrame];
      }
    }

    /** The frame callback: the forward scan over `index` with an early exit
        at the first eligible cuepoint. */
    method Update(currentTime: real, paused: bool, ended: bool, tolerance: real)
      requires Valid()
      modifies this
      ensures Valid() && cuepoints == old(cuepoints)
      ensures State() == Sample(old(State()), currentTime, paused, ended, tolerance)
      ensures !paused && !ended && old(length) != 0 && old(mode) == EventMode ==>
        index == match FirstEligible(cuepoints[..], 0, old(curCuepoint), currentTime, tolerance)
                 case None => length
                 case Some(k) => k
      ensures paused || ended || old(length) == 0 || old(mode) != EventMode ==> index == old(index)
    {
      if paused || ended {
        return;
      }
      if length != 0 && mode == EventMode {
        index := 0;
        while length > index
          invariant 0 <= index <= length
          invariant Valid() && cuepoints == old(cuepoints)
          invariant State() == old(State())
          invariant FirstEligible(cuepoints[..], 0, curCuepoint, currentTime, tolerance)
                 == FirstEligible(cuepoints[..], index, curCuepoint, currentTime, tolerance)
        {
          var eventCuepoint := cuepoints[index];
          if Some(eventCuepoint) != curCuepoint && (eventCuepoint.kind == Event || eventCuepoint.kind == Both) {
            if currentTime >= eventCuepoint.time && currentTime < eventCuepoint.time + tolerance {
              OnCuepoint(eventCuepoint);
              break;
            }
          }
          index := index + 1;
        }
      }
      if hasListeners {
        effects := effects + [RequestFrame];
      }
    }
  }
}
