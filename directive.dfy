/** The older cuepoint-media directive (`libCuepointMedia`): seeks by name
    only, a nav confirmation window whose lower edge is fixed at 0.2 seconds
    before the target, and a rewind test that compares against
    `currentTime - tolerance`. */
module CuepointMedia {
  import opened CuepointData
  import opened Tracking

  /** How far before the target the nav confirmation window opens: a fixed
      0.2 seconds, whatever the tolerance. */
  const NavLowerEdge: real := 0.2

  /** `seekCuepoint(name)`: only when the first cuepoint with that name is of
      kind nav or both does it become the target, with nav mode and a seek;
      otherwise nothing changes, not even an earlier target. */
  function SeekByName(s: Tracker, name: string): Tracker
  {
    var k := FindByName(s.cuepoints, 0, name);
    if k.Some? && (s.cuepoints[k.value].kind == Nav || s.cuepoints[k.value].kind == Both) then
      var target := s.cuepoints[k.value];
      s.(nav := Some(target), mode := NavMode, effects := s.effects + [Seek(target.time)])
    else
      s
  }

  /** `onMediaPlaying`: forget the last fired cuepoint when it lies after
      `currentTime - tolerance`, then re-arm. */
  function Playing(s: Tracker, currentTime: real, tolerance: real): Tracker
  {
    var s1 := if s.cur.Some? && s.cur.value.time > currentTime - tolerance then s.(cur := None) else s;
    Rearm(s1)
  }

  /** The `listen` block of `ngOnChanges`: present means the input changed. */
  function ListenChange(s: Tracker, listen: Option<bool>, paused: bool): Tracker
  {
    if listen.Some? then Listen(s, listen.value, paused) else s
  }

  /** The `goTo` block: only a truthy (non-empty) name seeks. */
  function GoToChange(s: Tracker, goTo: Option<string>): Tracker
  {
    if goTo.Some? && goTo.value != "" then SeekByName(s, goTo.value) else s
  }

  /** `ngOnChanges` once `ngOnInit` has bound the media element: install the
      new list, if any (the directive sorts it in place first; nothing below
      depends on its order), then run the listen and goTo blocks. */
  function OnChanges(s: Tracker, newList: Option<seq<Cuepoint>>, listen: Option<bool>, goTo: Option<string>, paused: bool): Tracker
  {
    var s0 := if newList.Some? then s.(cuepoints := newList.value) else s;
    GoToChange(ListenChange(s0, listen, paused), goTo)
  }

  /** The listen and goTo blocks of `ngOnChanges` before `ngOnInit`, while
      `media` is still undefined: each runs up to its first use of `media`,
      where a TypeError ends the handler. Adding listeners sets the flag first
      and removing them clears it first; a seek to a nav or both cuepoint sets
      the target and nav mode first, but never writes the position. */
  function UnboundBlocks(s: Tracker, listen: Option<bool>, goTo: Option<string>): Tracker
  {
    if listen.Some? && listen.value && !s.hasListeners then
      s.(hasListeners := true, effects := s.effects + [Threw])
    else if listen.Some? && !listen.value && s.hasListeners then
      s.(hasListeners := false, effects := s.effects + [Threw])
    else if goTo.Some? && goTo.value != "" then
      var k := FindByName(s.cuepoints, 0, goTo.value);
      if k.Some? && (s.cuepoints[k.value].kind == Nav || s.cuepoints[k.value].kind == Both) then
        s.(nav := Some(s.cuepoints[k.value]), mode := NavMode, effects := s.effects + [Threw])
      else s
    else s
  }

  /** `ngOnChanges` before `ngOnInit`: the new list is installed (sorting it
      does not touch `media`), then the blocks run until the first throw. */
  function OnChangesUnbound(s: Tracker, newList: Option<seq<Cuepoint>>, listen: Option<bool>, goTo: Option<string>): Tracker
  {
    UnboundBlocks(if newList.Some? then s.(cuepoints := newList.value) else s, listen, goTo)
  }

  /** Everything the host can deliver to the directive once `ngOnInit` has
      run. `newList` is the list a `cuepoints` change installs, as it stands
      after sorting. */
  datatype Input =
    | Frame(currentTime: real, paused: bool, ended: bool, tolerance: real)
    | SeekedEvent
    | NavTimerTick(currentTime: real, tolerance: real)
    | PlayingEvent(currentTime: real, tolerance: real)
    | Changed(newList: Option<seq<Cuepoint>>, listen: Option<bool>, goTo: Option<string>, paused: bool)

  function Step(s: Tracker, input: Input): Tracker
  {
    match input
    case Frame(t, paused, ended, tol) => Sample(s, t, paused, ended, tol)
    case SeekedEvent => Seeked(s)
    case NavTimerTick(t, tol) => NavTick(s, t, NavLowerEdge, tol)
    case PlayingEvent(t, tol) => Playing(s, t, tol)
    case Changed(newList, listen, goTo, paused) => OnChanges(s, newList, listen, goTo, paused)
  }

  function Run(s: Tracker, inputs: seq<Input>): Tracker
    decreases |inputs|
  {
    if inputs == [] then s else Run(Step(s, inputs[0]), inputs[1..])
  }

  // ---------------------------------------------------------------------------
  // Properties

  /** The nav window of this variant is `[target - 0.2, target + tolerance)`.
      Its lower edge stays 0.2 seconds before the target
      whatever the tolerance: with tolerance 0.5 and a target at 20.0, 19.6 is
      outside and 19.8 inside. */
  lemma NavWindowLowerEdgeFixed()
    ensures !InNavWindow(20.0, 19.6, NavLowerEdge, 0.5) && InNavWindow(20.0, 19.8, NavLowerEdge, 0.5)
    ensures InNavWindow(20.0, 20.4, NavLowerEdge, 0.5) && !InNavWindow(20.0, 20.5, NavLowerEdge, 0.5)
  {
  }

  /** A name seek acts exactly when the first cuepoint with that name exists and
      is of kind nav or both: then it targets it, enters nav mode and seeks to
      its time; otherwise the state is unchanged. */
  lemma SeekByNameTargetsFirstNamed(s: Tracker, name: string)
    ensures var r := SeekByName(s, name);
      r != s ==>
        exists k :: 0 <= k < |s.cuepoints| && r == s.(nav := Some(s.cuepoints[k]), mode := NavMode,
                                                      effects := s.effects + [Seek(s.cuepoints[k].time)]) &&
          s.cuepoints[k].name == name && s.cuepoints[k].kind != Event &&
          forall j :: 0 <= j < k ==> s.cuepoints[j].name != name
    ensures var r := SeekByName(s, name);
      r == s <==>
        (forall k :: 0 <= k < |s.cuepoints| ==> s.cuepoints[k].name != name) ||
        (exists k :: 0 <= k < |s.cuepoints| && s.cuepoints[k].name == name && s.cuepoints[k].kind == Event &&
           forall j :: 0 <= j < k ==> s.cuepoints[j].name != name)
  {
  }

  /** On playback (re)start the last fired cuepoint is forgotten exactly when it
      lies after `currentTime - tolerance`. */
  lemma PlayingClearsUnlessWellBehind(s: Tracker, currentTime: real, tolerance: real)
    ensures var r := Playing(s, currentTime, tolerance);
      r.cur == (if s.cur.Some? && s.cur.value.time > currentTime - tolerance then None else s.cur)
    ensures var r := Playing(s, currentTime, tolerance);
      r.mode == s.mode && r.nav == s.nav && r.cuepoints == s.cuepoints && Emitted(r.effects) == Emitted(s.effects)
  {
    var s1 := if s.cur.Some? && s.cur.value.time > currentTime - tolerance then s.(cur := None) else s;
    RearmEmitsNothing(s1);
  }

  /** Because the rewind test compares against `currentTime - tolerance`, a
      pause and resume inside a cuepoint's window forgets it, and the next `update`
      call fires it again: a cuepoint at 10.0 fired at 10.0 fires once more when
      playback resumes at 10.1. */
  lemma ResumeInsideWindowRefires(cp: Cuepoint)
    requires cp == Cuepoint(1, 10.0, Event, "intro", false)
    ensures var s0 := Initial().(cuepoints := [cp]);
      var s1 := Sample(s0, 10.0, false, false, 0.3);
      var s2 := Playing(s1, 10.1, 0.3);
      var s3 := Sample(s2, 10.1, false, false, 0.3);
      Emitted(s3.effects) == [cp, cp]
  {
    var s0 := Initial().(cuepoints := [cp]);
    assert FirstEligible([cp], 0, None, 10.0, 0.3) == Some(0);
    var s1 := Sample(s0, 10.0, false, false, 0.3);
    assert s1 == Hit(s0, cp);
    HitEmitsOnce(s0, cp);
    var s2 := Playing(s1, 10.1, 0.3);
    PlayingClearsUnlessWellBehind(s1, 10.1, 0.3);
    assert s2.cur == None;
    assert FirstEligible([cp], 0, None, 10.1, 0.3) == Some(0);
    var s3 := Sample(s2, 10.1, false, false, 0.3);
    assert s3 == Hit(s2, cp);
    HitEmitsOnce(s2, cp);
  }

  /** Only a truthy `goTo` seeks: an empty name is ignored. */
  lemma EmptyGoToIgnored(s: Tracker, paused: bool)
    ensures OnChanges(s, None, None, Some(""), paused) == s
  {
  }

  /** Nav mode and a present target go together: every input keeps that. */
  lemma StepKeepsModeMatchingTarget(s: Tracker, input: Input)
    requires (s.mode == NavMode) == s.nav.Some?
    ensures var r := Step(s, input); (r.mode == NavMode) == r.nav.Some?
  {
  }

  lemma {:induction false} RunKeepsModeMatchingTarget(s: Tracker, inputs: seq<Input>)
    requires (s.mode == NavMode) == s.nav.Some?
    ensures var r := Run(s, inputs); (r.mode == NavMode) == r.nav.Some?
    decreases |inputs|
  {
    if inputs != [] {
      StepKeepsModeMatchingTarget(s, inputs[0]);
      RunKeepsModeMatchingTarget(Step(s, inputs[0]), inputs[1..]);
    }
  }

  /** Switching listening on before `ngOnInit` sets the flag and then throws:
      no listener is attached, no frame is requested and the goTo block is
      skipped. The next `listen` change, to false, then only cancels a frame
      that was never requested; the frame loop first starts when `listen` is
      switched on once more (and playback is running). */
  lemma ListenBeforeInitStallsTracking(s: Tracker, newList: Option<seq<Cuepoint>>, goTo: Option<string>,
                                       paused: bool, paused': bool)
    requires !s.hasListeners
    ensures var r := OnChangesUnbound(s, newList, Some(true), goTo);
      r.hasListeners && r.effects == s.effects + [Threw] && r.mode == s.mode && r.nav == s.nav && r.cur == s.cur
    ensures var r := OnChangesUnbound(s, newList, Some(true), goTo);
      var off := OnChanges(r, None, Some(false), None, paused);
      var on := OnChanges(off, None, Some(true), None, paused');
      !off.hasListeners && off.effects == r.effects + [CancelFrame] &&
      on.hasListeners && on.effects == off.effects + (if paused' then [] else [RequestFrame])
  {
  }

  /** A goTo before `ngOnInit` does what a seek does afterwards, except that
      the write of the position throws: the state is that of `SeekByName` with
      the thrown error in place of the `Seek`, and a name that selects no nav
      or both cuepoint changes nothing, as after `ngOnInit`. */
  lemma GoToBeforeInitSkipsSeek(s: Tracker, name: string)
    requires name != ""
    ensures var r := OnChangesUnbound(s, None, None, Some(name)); var b := SeekByName(s, name);
      (b == s <==> r == s) &&
      (b != s ==> r.nav == b.nav && r.mode == NavMode && b.nav.Some? &&
                  r == b.(effects := s.effects + [Threw]) && b.effects == s.effects + [Seek(b.nav.value.time)])
  {
  }

  /** The first change, even when it arrives before `ngOnInit`, keeps nav mode
      and a present target together; so does every host event after it. */
  lemma {:induction false} LifecycleKeepsModeMatchingTarget(
    newList: Option<seq<Cuepoint>>, listen: Option<bool>, goTo: Option<string>, inputs: seq<Input>)
    ensures var r := Run(OnChangesUnbound(Initial(), newList, listen, goTo), inputs);
      (r.mode == NavMode) == r.nav.Some?
  {
    var first := OnChangesUnbound(Initial(), newList, listen, goTo);
    assert (first.mode == NavMode) == first.nav.Some?;
    RunKeepsModeMatchingTarget(first, inputs);
  }

  // ---------------------------------------------------------------------------
  // The directive

  /** The `changes` argument of `ngOnChanges`: a field is present when that
      input changed, holding its new value. */
  datatype Changes = Changes(cuepoints: Option<array<Cuepoint>>, listen: Option<bool>, goTo: Option<string>)

  class CuepointMediaDirective {
    var cuepoints: array<Cuepoint>
    var length: int
    var index: int
    var mode: Mode
    var curCuepoint: Option<Cuepoint>
    var navCuepoint: Option<Cuepoint>
    var hasListeners: bool
    var effects: seq<Effect>
    var bound: bool   // `media` has been set by `ngOnInit`

    ghost predicate Valid()
      reads this, cuepoints
    {
      length == cuepoints.Length && SortedByTime(cuepoints[..])
    }

    function State(): Tracker
      reads this, cuepoints
    {
      Tracker(cuepoints[..], mode, curCuepoint, navCuepoint, hasListeners, effects)
    }

    constructor ()
      ensures Valid() && State() == Initial() && !bound
    {
      cuepoints := new Cuepoint[0];
      length := 0;
      index := 0;
      mode := EventMode;
      curCuepoint := None;
      navCuepoint := None;
      hasListeners := false;
      effects := [];
      bound := false;
    }

    /** `ngOnInit`: binds the media element and the callbacks; the tracked
        state is unchanged. */
    method NgOnInit()
      requires Valid()
      modifies this
      ensures Valid() && cuepoints == old(cuepoints) && index == old(index)
      ensures bound && State() == old(State())
    {
      bound := true;
    }

    method NgOnChanges(changes: Changes, paused: bool)
      requires Valid()
      modifies this, if changes.cuepoints.Some? then {changes.cuepoints.value} else {}
      ensures Valid()
      ensures changes.cuepoints.Some? ==>
        cuepoints == changes.cuepoints.value && multiset(cuepoints[..]) == old(multiset(changes.cuepoints.value[..]))
      ensures changes.cuepoints.None? ==> cuepoints == old(cuepoints)
      ensures index == old(index) && bound == old(bound)
      ensures bound ==>
        State() == OnChanges(old(State()), if changes.cuepoints.Some? then Some(cuepoints[..]) else None,
                             changes.listen, changes.goTo, paused)
      ensures !bound ==>
        State() == OnChangesUnbound(old(State()), if changes.cuepoints.Some? then Some(cuepoints[..]) else None,
                                    changes.listen, changes.goTo)
    {
      if changes.cuepoints.Some? {
        SetCuepoints(changes.cuepoints.value);
      }
      ghost var s0 := State();
      if bound {
        ListenChanged(changes.listen, paused);
        GoToChanged(changes.goTo);
      } else {
        ChangesUnbound(changes.listen, changes.goTo);
      }
      assert cuepoints[..] == s0.cuepoints;
    }

    /** A truthy `cuepoints` change: the new array becomes the list, sorted in
        place by time, and its size is cached in `length`. */
    method SetCuepoints(a: array<Cuepoint>)
      modifies this, a
      ensures Valid() && cuepoints == a && index == old(index) && bound == old(bound)
      ensures multiset(a[..]) == old(multiset(a[..]))
      ensures State() == old(State()).(cuepoints := a[..])
    {
      cuepoints := a;
      SortByTime(cuepoints);
      length := cuepoints.Length;
    }

    /** A `listen` change: add or remove listeners only on a real transition. */
    method ListenChanged(listen: Option<bool>, paused: bool)
      requires Valid()
      modifies this
      ensures Valid() && cuepoints == old(cuepoints) && index == old(index) && bound == old(bound)
      ensures State() == ListenChange(old(State()), listen, paused)
    {
      if listen.Some? {
        if listen.value && !hasListeners {
          AddListeners(paused);
        } else if !listen.value && hasListeners {
          RemoveListeners();
        }
      }
    }

    method GoToChanged(goTo: Option<string>)
      requires Valid()
      modifies this
      ensures Valid() && cuepoints == old(cuepoints) && index == old(index) && bound == old(bound)
      ensures State() == GoToChange(old(State()), goTo)
    {
      if goTo.Some? && goTo.value != "" {
        SeekCuepoint(goTo.value);
      }
    }

    /** The listen and goTo blocks while `media` is undefined: the same code,
        stopped where it first touches `media`. */
    method ChangesUnbound(listen: Option<bool>, goTo: Option<string>)
      requires Valid()
      modifies this
      ensures Valid() && cuepoints == old(cuepoints) && index == old(index) && bound == old(bound)
      ensures State() == UnboundBlocks(old(State()), listen, goTo)
    {
      if listen.Some? {
        if listen.value && !hasListeners {
          hasListeners := true;
          effects := effects + [Threw];
          return;
        } else if !listen.value && hasListeners {
          hasListeners := false;
          effects := effects + [Threw];
          return;
        }
      }
      if goTo.Some? && goTo.value != "" {
        var found := FindByName(cuepoints[..], 0, goTo.value);
        if found.Some? && (cuepoints[found.value].kind == Nav || cuepoints[found.value].kind == Both) {
          navCuepoint := Some(cuepoints[found.value]);
          mode := NavMode;
          effects := effects + [Threw];
        }
      }
    }

    method OnCuepoint(cuepoint: Cuepoint)
      requires Valid()
      modifies this
      ensures Valid() && cuepoints == old(cuepoints) && index == old(index) && bound == old(bound)
      ensures State() == Hit(old(State()), cuepoint)
    {
      curCuepoint := Some(cuepoint);
      effects := effects + [Emit(cuepoint)];
      if cuepoint.hasFunc {
        effects := effects + [CallFunc(cuepoint)];
      }
      mode := EventMode;
      if hasListeners {
        effects := effects + [RequestFrame];
      }
    }

    method SeekCuepoint(name: string)
      requires Valid()
      modifies this
      ensures Valid() && cuepoints == old(cuepoints) && index == old(index) && bound == old(bound)
      ensures State() == SeekByName(old(State()), name)
    {
      var found := FindByName(cuepoints[..], 0, name);
      if found.Some? && (cuepoints[found.value].kind == Nav || cuepoints[found.value].kind == Both) {
        navCuepoint := Some(cuepoints[found.value]);
        mode := NavMode;
        effects := effects + [Seek(cuepoints[found.value].time)];
      }
    }

    method AddListeners(paused: bool)
      requires Valid()
      modifies this
      ensures Valid() && cuepoints == old(cuepoints) && index == old(index) && bound == old(bound)
      ensures State() == Tracking.AddListeners(old(State()), paused)
    {
      hasListeners := true;
      if !paused {
        effects := effects + [RequestFrame];
      }
    }

    method RemoveListeners()
      requires Valid()
      modifies this
      ensures Valid() && cuepoints == old(cuepoints) && index == old(index) && bound == old(bound)
      ensures State() == Tracking.RemoveListeners(old(State()))
    {
      hasListeners := false;
      effects := effects + [CancelFrame];
    }

    method OnMediaSeeked()
      requires Valid()
      modifies this
      ensures Valid() && cuepoints == old(cuepoints) && index == old(index) && bound == old(bound)
      ensures State() == Seeked(old(State()))
    {
      if mode == NavMode && navCuepoint.Some? {
        effects := effects + [StartNavTimer];
      }
    }

    method OnNavTimer(currentTime: real, tolerance: real)
      requires Valid()
      modifies this
      ensures Valid() && cuepoints == old(cuepoints) && index == old(index) && bound == old(bound)
      ensures State() == NavTick(old(State()), currentTime, NavLowerEdge, tolerance)
    {
      if navCuepoint.Some? {
        if currentTime >= navCuepoint.value.time - NavLowerEdge && currentTime < navCuepoint.value.time + tolerance {
          OnCuepoint(navCuepoint.value);
          navCuepoint := None;
        }
      } else {
        effects := effects + [ClearNavTimer];
      }
    }

    method OnMediaPlaying(currentTime: real, tolerance: real)
      requires Valid()
      modifies this
      ensures Valid() && cuepoints == old(cuepoints) && index == old(index) && bound == old(bound)
      ensures State() == Playing(old(State()), currentTime, tolerance)
    {
      if curCuepoint.Some? && curCuepoint.value.time > currentTime - tolerance {
        curCuepoint := None;
      }
      if hasListeners {
        effects := effects + [RequestFrame];
      }
    }

    /** The frame callback: the forward scan over `index` with an early exit
        at the first eligible cuepoint. */
    method Update(currentTime: real, paused: bool, ended: bool, tolerance: real)
      requires Valid()
      modifies this
      ensures Valid() && cuepoints == old(cuepoints) && bound == old(bound)
      ensures State() == Sample(old(State()), currentTime, paused, ended, tolerance)
      ensures !paused && !ended && old(length) != 0 && old(mode) == EventMode ==>
        index == match FirstEligible(cuepoints[..], 0, old(curCuepoint), currentTime, tolerance)
                 case None => length
                 case Some(k) => k
      ensures paused || ended || old(length) == 0 || old(mode) != EventMode ==> index == old(index)
    {
      if paused || ended {
        return;
      }
      if length != 0 && mode == EventMode {
        index := 0;
        while length > index
          invariant 0 <= index <= length
          invariant Valid() && cuepoints == old(cuepoints) && bound == old(bound)
          invariant State() == old(State())
          invariant FirstEligible(cuepoints[..], 0, curCuepoint, currentTime, tolerance)
                 == FirstEligible(cuepoints[..], index, curCuepoint, currentTime, tolerance)
        {
          var eventCuepoint := cuepoints[index];
          if Some(eventCuepoint) != curCuepoint && (eventCuepoint.kind == Event || eventCuepoint.kind == Both) {
            if currentTime >= eventCuepoint.time && currentTime < eventCuepoint.time + tolerance {
              OnCuepoint(eventCuepoint);
              break;
            }
          }
          index := index + 1;
        }
      }
      if hasListeners {
        effects := effects + [RequestFrame];
      }
    }
  }
}
