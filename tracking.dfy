/** The tracker state shared by both directive variants, and the steps whose
    code is the same in both: the hit handler `onCuepoint`, the per-frame scan
    `update`, listener toggling, the `seeked` handler and the nav timer (whose
    window's lower edge each variant supplies). Each step is a
    function from the state before to the state after; the directive classes
    run them on their fields. */
module Tracking {
  import opened CuepointData

  /** `mode: 'event' | 'nav'`. */
  datatype Mode = EventMode | NavMode

  /** The fields a step reads or writes, plus the host effects issued so far. */
  datatype Tracker = Tracker(
    cuepoints: seq<Cuepoint>,
    mode: Mode,
    cur: Option<Cuepoint>,       // curCuepoint: the last cuepoint that fired
    nav: Option<Cuepoint>,       // navCuepoint: the seek target being confirmed
    hasListeners: bool,
    effects: seq<Effect>)

  /** The state a directive starts in: no cuepoints, event mode, no listeners. */
  function Initial(): Tracker
  {
    Tracker([], EventMode, None, None, false, [])
  }

  /** The half-open event window `[time, time + tolerance)`: it never looks back. */
  predicate InEventWindow(time: real, currentTime: real, tolerance: real)
  {
    currentTime >= time && currentTime < time + tolerance
  }

  /** A cuepoint `update` may fire: not the last fired one (by identity),
      of kind event or both, and its window holds the current time. */
  predicate EventEligible(cp: Cuepoint, cur: Option<Cuepoint>, currentTime: real, tolerance: real)
  {
    Some(cp) != cur && (cp.kind == Event || cp.kind == Both) && InEventWindow(cp.time, currentTime, tolerance)
  }

  /** The first eligible position at or after `from`, as the forward scan finds it. */
  function FirstEligible(cps: seq<Cuepoint>, from: nat, cur: Option<Cuepoint>, currentTime: real, tolerance: real): (r: Option<nat>)
    requires from <= |cps|
    ensures r.Some? ==> from <= r.value < |cps| && EventEligible(cps[r.value], cur, currentTime, tolerance)
    ensures r.Some? ==> forall j :: from <= j < r.value ==> !EventEligible(cps[j], cur, currentTime, tolerance)
    ensures r.None? ==> forall j :: from <= j < |cps| ==> !EventEligible(cps[j], cur, currentTime, tolerance)
    decreases |cps| - from
  {
    if from == |cps| then None
    else if EventEligible(cps[from], cur, currentTime, tolerance) then Some(from)
    else FirstEligible(cps, from + 1, cur, currentTime, tolerance)
  }

  /** `if (this.hasListeners) requestAnimationFrame(update)`. */
  function Rearm(s: Tracker): Tracker
  {
    if s.hasListeners then s.(effects := s.effects + [RequestFrame]) else s
  }

  /** What one hit hands to the host: the emitted event, then the `func` call if any. */
  function Fired(cp: Cuepoint): seq<Effect>
  {
    [Emit(cp)] + (if cp.hasFunc then [CallFunc(cp)] else [])
  }

  /** `onCuepoint`: remember the hit, emit it, call its function, return to event mode, re-arm. */
  function Hit(s: Tracker, cp: Cuepoint): Tracker
  {
    Rearm(s.(cur := Some(cp), effects := s.effects + Fired(cp), mode := EventMode))
  }

  /** `update`: nothing at all while paused or ended; otherwise, in event mode
      with a non-empty list, fire the first eligible cuepoint, then re-arm. */
  function Sample(s: Tracker, currentTime: real, paused: bool, ended: bool, tolerance: real): Tracker
  {
    if paused || ended then s
    else
      var scanned :=
        if |s.cuepoints| > 0 && s.mode == EventMode then
          match FirstEligible(s.cuepoints, 0, s.cur, currentTime, tolerance)
          case None => s
          case Some(k) => Hit(s, s.cuepoints[k])
        else s;
      Rearm(scanned)
  }

  /** `addListeners`: subscribe, and start the frame loop unless paused. */
  function AddListeners(s: Tracker, paused: bool): Tracker
  {
    s.(hasListeners := true, effects := s.effects + (if !paused then [RequestFrame] else []))
  }

  /** `removeListeners`: unsubscribe and cancel the pending frame. */
  function RemoveListeners(s: Tracker): Tracker
  {
    s.(hasListeners := false, effects := s.effects + [CancelFrame])
  }

  /** A change of the listen input: listeners are added or removed only on a real transition. */
  function Listen(s: Tracker, listen: bool, paused: bool): Tracker
  {
    if listen && !s.hasListeners then AddListeners(s, paused)
    else if !listen && s.hasListeners then RemoveListeners(s)
    else s
  }

  /** `onMediaSeeked`: start the nav confirmation timer when navigating to a target. */
  function Seeked(s: Tracker): Tracker
  {
    if s.mode == NavMode && s.nav.Some? then s.(effects := s.effects + [StartNavTimer]) else s
  }

  /** The nav confirmation window `[time - below, time + tolerance)`. The two
      variants differ only in `below`: the tolerance in the newer one, a fixed
      0.2 seconds in the older one. */
  predicate InNavWindow(time: real, currentTime: real, below: real, tolerance: real)
  {
    currentTime >= time - below && currentTime < time + tolerance
  }

  /** `onNavTimer`: fire the target once the play position is inside its window
      and drop the target; with no target, stop the timer. */
  function NavTick(s: Tracker, currentTime: real, below: real, tolerance: real): Tracker
  {
    match s.nav
    case None => s.(effects := s.effects + [ClearNavTimer])
    case Some(target) =>
      if InNavWindow(target.time, currentTime, below, tolerance) then Hit(s, target).(nav := None)
      else s
  }

  // ---------------------------------------------------------------------------
  // Properties of the shared steps

  /** Examples of the event window: with tolerance 0.3 a cuepoint at
      10.0 matches from 10.0 up to, but not including, 10.3. */
  lemma EventWindowExamples()
    ensures !InEventWindow(10.0, 9.9, 0.3)
    ensures InEventWindow(10.0, 10.0, 0.3) && InEventWindow(10.0, 10.29, 0.3)
    ensures !InEventWindow(10.0, 10.3, 0.3)
  {
  }

  /** A hit hands exactly one cuepoint to the emitter. */
  lemma FiredEmitsOnce(cp: Cuepoint)
    ensures Emitted(Fired(cp)) == [cp]
  {
    if cp.hasFunc {
      assert Fired(cp) == [Emit(cp), CallFunc(cp)];
      assert Fired(cp)[1..] == [CallFunc(cp)];
      assert Emitted([CallFunc(cp)]) == [] by {
        assert [CallFunc(cp)][1..] == [];
      }
    } else {
      assert Fired(cp) == [Emit(cp)];
      assert Fired(cp)[1..] == [];
    }
  }

  /** A hit records the cuepoint as the last fired one, emits it exactly once
      and returns to event mode; the list and the nav target are untouched. */
  lemma HitEmitsOnce(s: Tracker, cp: Cuepoint)
    ensures var r := Hit(s, cp);
      r.cur == Some(cp) && r.mode == EventMode && r.nav == s.nav && r.cuepoints == s.cuepoints &&
      r.hasListeners == s.hasListeners && Emitted(r.effects) == Emitted(s.effects) + [cp]
  {
    var mid := s.(cur := Some(cp), effects := s.effects + Fired(cp), mode := EventMode);
    EmittedAppend(s.effects, Fired(cp));
    FiredEmitsOnce(cp);
    RearmEmitsNothing(mid);
  }

  /** The hit calls the cuepoint's function right after emitting it, exactly
      when the cuepoint has one. */
  lemma HitCallsFuncIffPresent(s: Tracker, cp: Cuepoint)
    ensures var r := Hit(s, cp);
      |r.effects| > |s.effects| && r.effects[|s.effects|] == Emit(cp) &&
      (cp.hasFunc <==> |r.effects| > |s.effects| + 1 && r.effects[|s.effects| + 1] == CallFunc(cp))
  {
  }

  /** A stopped sample (paused or ended) changes nothing and does not re-arm. */
  lemma StoppedSampleIsInert(s: Tracker, currentTime: real, tolerance: real)
    ensures Sample(s, currentTime, true, false, tolerance) == s
    ensures Sample(s, currentTime, false, true, tolerance) == s
  {
  }

  /** One sample fires at most one cuepoint. It fires one exactly when it is
      running in event mode and some cuepoint is eligible, and then it is the
      lowest-index eligible one. */
  lemma SampleFiresLowestEligible(s: Tracker, currentTime: real, paused: bool, ended: bool, tolerance: real)
    ensures var r := Sample(s, currentTime, paused, ended, tolerance);
      (paused || ended || s.mode != EventMode ||
       forall k :: 0 <= k < |s.cuepoints| ==> !EventEligible(s.cuepoints[k], s.cur, currentTime, tolerance))
      ==> Emitted(r.effects) == Emitted(s.effects)
    ensures var r := Sample(s, currentTime, paused, ended, tolerance);
      (!paused && !ended && s.mode == EventMode &&
       exists k :: 0 <= k < |s.cuepoints| && EventEligible(s.cuepoints[k], s.cur, currentTime, tolerance))
      ==> exists k :: 0 <= k < |s.cuepoints| &&
            Emitted(r.effects) == Emitted(s.effects) + [s.cuepoints[k]] &&
            EventEligible(s.cuepoints[k], s.cur, currentTime, tolerance) &&
            forall j :: 0 <= j < k ==> !EventEligible(s.cuepoints[j], s.cur, currentTime, tolerance)
  {
    if !paused && !ended {
      var scanned :=
        if |s.cuepoints| > 0 && s.mode == EventMode then
          match FirstEligible(s.cuepoints, 0, s.cur, currentTime, tolerance)
          case None => s
          case Some(k) => Hit(s, s.cuepoints[k])
        else s;
      assert Sample(s, currentTime, paused, ended, tolerance) == Rearm(scanned);
      RearmEmitsNothing(scanned);
      if |s.cuepoints| > 0 && s.mode == EventMode {
        match FirstEligible(s.cuepoints, 0, s.cur, currentTime, tolerance)
        case None =>
        case Some(k) =>
          HitEmitsOnce(s, s.cuepoints[k]);
      }
    }
  }

  /** Re-arming only asks for a frame; it emits nothing. */
  lemma RearmEmitsNothing(s: Tracker)
    ensures Emitted(Rearm(s).effects) == Emitted(s.effects)
    ensures Rearm(s).(effects := s.effects) == s
  {
    if s.hasListeners {
      EmittedAppend(s.effects, [RequestFrame]);
    }
  }

  /** The cuepoint that just fired is never fired again by the next sample. */
  lemma NoRefireOnNextSample(s: Tracker, cp: Cuepoint, currentTime: real, paused: bool, ended: bool, tolerance: real)
    ensures var h := Hit(s, cp); var r := Sample(h, currentTime, paused, ended, tolerance);
      Emitted(r.effects) == Emitted(h.effects) ||
      exists k :: 0 <= k < |s.cuepoints| && s.cuepoints[k] != cp && Emitted(r.effects) == Emitted(h.effects) + [s.cuepoints[k]]
  {
    SampleFiresLowestEligible(Hit(s, cp), currentTime, paused, ended, tolerance);
  }

  /** In a list sorted by time, the cuepoint the scan fires is also the
      earliest-timed eligible one. */
  lemma FirstEligibleIsEarliest(cps: seq<Cuepoint>, cur: Option<Cuepoint>, currentTime: real, tolerance: real)
    requires SortedByTime(cps)
    ensures var r := FirstEligible(cps, 0, cur, currentTime, tolerance);
      r.Some? ==> forall j :: 0 <= j < |cps| && EventEligible(cps[j], cur, currentTime, tolerance) ==> cps[r.value].time <= cps[j].time
  {
  }

  /** Only the last fired cuepoint is suppressed, so two event cuepoints closer
      together than the tolerance fire alternately while the play position is
      inside both windows: samples at 5.0, 5.1 and 5.15 fire a, b and a again. */
  lemma CloseCuepointsAlternate(a: Cuepoint, b: Cuepoint)
    requires a == Cuepoint(1, 5.0, Event, "a", false) && b == Cuepoint(2, 5.1, Event, "b", false)
    ensures var s0 := Initial().(cuepoints := [a, b]);
      var s1 := Sample(s0, 5.0, false, false, 0.3);
      var s2 := Sample(s1, 5.1, false, false, 0.3);
      var s3 := Sample(s2, 5.15, false, false, 0.3);
      Emitted(s3.effects) == [a, b, a]
  {
    var s0 := Initial().(cuepoints := [a, b]);
    assert FirstEligible(s0.cuepoints, 0, None, 5.0, 0.3) == Some(0);
    var s1 := Sample(s0, 5.0, false, false, 0.3);
    assert s1 == Hit(s0, a);
    HitEmitsOnce(s0, a);
    assert FirstEligible(s0.cuepoints, 0, Some(a), 5.1, 0.3) == Some(1);
    var s2 := Sample(s1, 5.1, false, false, 0.3);
    assert s2 == Hit(s1, b);
    HitEmitsOnce(s1, b);
    assert FirstEligible(s0.cuepoints, 0, Some(b), 5.15, 0.3) == Some(0);
    var s3 := Sample(s2, 5.15, false, false, 0.3);
    assert s3 == Hit(s2, a);
    HitEmitsOnce(s2, a);
  }

  /** Because a firing sample leaves two frame requests behind (see below),
      one display frame can run `update` twice. With event cuepoints at 5.0 and
      5.1 and tolerance 0.3, the frame at 5.0 fires a; at 5.1 the first pending
      call fires b and the second, in the same frame, fires a again. */
  lemma SameFrameRefire(a: Cuepoint, b: Cuepoint)
    requires a == Cuepoint(1, 5.0, Event, "a", false) && b == Cuepoint(2, 5.1, Event, "b", false)
    ensures var s0 := Initial().(cuepoints := [a, b], hasListeners := true);
      var s1 := Sample(s0, 5.0, false, false, 0.3);
      var s2 := Sample(s1, 5.1, false, false, 0.3);
      var s3 := Sample(s2, 5.1, false, false, 0.3);
      s1.effects[|s1.effects| - 2..] == [RequestFrame, RequestFrame] &&
      Emitted(s2.effects) == [a, b] && Emitted(s3.effects) == [a, b, a]
  {
    var s0 := Initial().(cuepoints := [a, b], hasListeners := true);
    assert FirstEligible(s0.cuepoints, 0, None, 5.0, 0.3) == Some(0);
    var s1 := Sample(s0, 5.0, false, false, 0.3);
    assert s1 == Rearm(Hit(s0, a));
    HitEmitsOnce(s0, a);
    RearmEmitsNothing(Hit(s0, a));
    assert FirstEligible(s0.cuepoints, 0, Some(a), 5.1, 0.3) == Some(1);
    var s2 := Sample(s1, 5.1, false, false, 0.3);
    assert s2 == Rearm(Hit(s1, b));
    HitEmitsOnce(s1, b);
    RearmEmitsNothing(Hit(s1, b));
    assert FirstEligible(s0.cuepoints, 0, Some(b), 5.1, 0.3) == Some(0);
    var s3 := Sample(s2, 5.1, false, false, 0.3);
    assert s3 == Rearm(Hit(s2, a));
    HitEmitsOnce(s2, a);
    RearmEmitsNothing(Hit(s2, a));
  }

  /** A sample that fires while listening asks for two frames: one from the
      hit handler and one from the scan itself, so a second frame loop starts. */
  lemma FiringSampleArmsTwice(s: Tracker, currentTime: real, tolerance: real)
    requires s.hasListeners && s.mode == EventMode
    requires FirstEligible(s.cuepoints, 0, s.cur, currentTime, tolerance).Some?
    ensures var r := Sample(s, currentTime, false, false, tolerance);
      |r.effects| >= 2 && r.effects[|r.effects| - 2..] == [RequestFrame, RequestFrame]
  {
  }

  /** The nav timer fires the target exactly when the play position is inside
      its window, and then drops the target; with no target it only stops the
      timer. */
  lemma NavTickFiresIffInWindow(s: Tracker, currentTime: real, below: real, tolerance: real)
    ensures var r := NavTick(s, currentTime, below, tolerance);
      s.nav.None? ==> r == s.(effects := s.effects + [ClearNavTimer]) && Emitted(r.effects) == Emitted(s.effects)
    ensures var r := NavTick(s, currentTime, below, tolerance);
      s.nav.Some? && InNavWindow(s.nav.value.time, currentTime, below, tolerance) ==>
        r.nav == None && r.cur == s.nav && r.mode == EventMode && r.cuepoints == s.cuepoints &&
        Emitted(r.effects) == Emitted(s.effects) + [s.nav.value]
    ensures var r := NavTick(s, currentTime, below, tolerance);
      s.nav.Some? && !InNavWindow(s.nav.value.time, currentTime, below, tolerance) ==> r == s
  {
    match s.nav
    case None =>
      EmittedAppend(s.effects, [ClearNavTimer]);
    case Some(target) =>
      HitEmitsOnce(s, target);
  }

  /** After a nav hit the target is the last fired cuepoint, so the next
      `update` call does not fire it a second time. */
  lemma NavHitNotRepeated(s: Tracker, currentTime: real, below: real, t: real, paused: bool, ended: bool, tolerance: real)
    requires s.nav.Some? && InNavWindow(s.nav.value.time, currentTime, below, tolerance)
    ensures var h := NavTick(s, currentTime, below, tolerance); var r := Sample(h, t, paused, ended, tolerance);
      Emitted(r.effects) == Emitted(h.effects) ||
      exists k :: 0 <= k < |s.cuepoints| && s.cuepoints[k] != s.nav.value &&
        Emitted(r.effects) == Emitted(h.effects) + [s.cuepoints[k]]
  {
    var h := NavTick(s, currentTime, below, tolerance);
    assert h.cur == Some(s.nav.value) && h.cuepoints == s.cuepoints;
    SampleFiresLowestEligible(h, t, paused, ended, tolerance);
  }

  /** A pending `update` that runs after listening was switched off still
      scans and may fire, but it requests no further frame: the new effects
      are nothing, or exactly one eligible cuepoint's firing. */
  lemma UnlistenedSampleDoesNotRearm(s: Tracker, currentTime: real, tolerance: real)
    requires !s.hasListeners
    ensures var r := Sample(s, currentTime, false, false, tolerance);
      !r.hasListeners &&
      (r.effects == s.effects ||
       exists k :: 0 <= k < |s.cuepoints| && EventEligible(s.cuepoints[k], s.cur, currentTime, tolerance) &&
         r.effects == s.effects + Fired(s.cuepoints[k]))
  {
  }

  /** Switching listening off cancels only one pending frame. Another pending
      `update` still runs once, fires a cuepoint at 5.0 and then stops: the
      last effect is the emit, not a frame request. */
  lemma LastFrameAfterUnlistenStillFires(a: Cuepoint)
    requires a == Cuepoint(1, 5.0, Event, "a", false)
    ensures var s := Initial().(cuepoints := [a], hasListeners := true);
      var off := Listen(s, false, false);
      var r := Sample(off, 5.0, false, false, 0.3);
      Emitted(r.effects) == [a] && r.effects[|r.effects| - 1] == Emit(a)
  {
    var s := Initial().(cuepoints := [a], hasListeners := true);
    var off := Listen(s, false, false);
    assert off.effects == [CancelFrame];
    assert FirstEligible([a], 0, None, 5.0, 0.3) == Some(0);
    var r := Sample(off, 5.0, false, false, 0.3);
    assert r.effects == [CancelFrame, Emit(a)];
    assert Emitted(r.effects) == Emitted([Emit(a)]) by {
      assert r.effects[1..] == [Emit(a)];
    }
    assert [Emit(a)][1..] == [];
  }

  /** Listening is idempotent: repeating the same value changes nothing. */
  lemma ListenIdempotent(s: Tracker, listen: bool, paused: bool, paused': bool)
    ensures Listen(Listen(s, listen, paused), listen, paused') == Listen(s, listen, paused)
    ensures Listen(s, listen, paused).hasListeners == listen
  {
  }
}
