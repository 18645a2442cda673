/** Cuepoint records, the ordered marker list, lookup by name, and the log of
    what the tracker hands to its host (emitted events, function calls,
    frame and timer requests, writes of the media position). */
module CuepointData {

  datatype Option<T> = None | Some(value: T)

  /** The `kind` of a cuepoint: which modes may fire it. */
  datatype Kind = Event | Nav | Both

  /** One cuepoint. `id` stands for the object's identity: the tracker compares
      cuepoints by reference, so two entries with the same `id` are the same
      object. `hasFunc` records whether the optional `func` closure is present. */
  datatype Cuepoint = Cuepoint(id: nat, time: real, kind: Kind, name: string, hasFunc: bool)

  /** What the tracker does to the outside world, in the order it does it. */
  datatype Effect =
    | Emit(cp: Cuepoint)        // cuepointEvent.emit(cp)
    | CallFunc(cp: Cuepoint)    // cp.func() invoked
    | RequestFrame              // requestAnimationFrame(update)
    | CancelFrame               // cancelAnimationFrame(rafID)
    | StartNavTimer             // setInterval(onNavTimer, 17)
    | ClearNavTimer             // clearInterval(navTimer)
    | Seek(time: real)          // media.currentTime := time
    | Threw                     // a TypeError escapes the handler: `media` is still undefined

  /** The cuepoints handed to the event emitter, in order. */
  function Emitted(effects: seq<Effect>): seq<Cuepoint>
  {
    if effects == [] then []
    else (if effects[0].Emit? then [effects[0].cp] else []) + Emitted(effects[1..])
  }

  lemma {:induction false} EmittedAppend(a: seq<Effect>, b: seq<Effect>)
    ensures Emitted(a + b) == Emitted(a) + Emitted(b)
  {
    if a == [] {
      assert a + b == b;
    } else {
      assert (a + b)[0] == a[0] && (a + b)[1..] == a[1..] + b;
      EmittedAppend(a[1..], b);
    }
  }

  /** Only `Emit` entries reach the listener: a log with no `Emit` emits nothing. */
  lemma {:induction false} EmittedNone(effects: seq<Effect>)
    requires forall i :: 0 <= i < |effects| ==> !effects[i].Emit?
    ensures Emitted(effects) == []
  {
    if effects != [] {
      EmittedNone(effects[1..]);
    }
  }

  ghost predicate SortedByTime(s: seq<Cuepoint>)
  {
    forall i, j :: 0 <= i < j < |s| ==> s[i].time <= s[j].time
  }

  /** Exchanges two entries of the list. */
  method Swap(a: array<Cuepoint>, i: int, j: int)
    requires 0 <= i < a.Length && 0 <= j < a.Length
    modifies a
    ensures a[i] == old(a[j]) && a[j] == old(a[i])
    ensures forall k :: 0 <= k < a.Length && k != i && k != j ==> a[k] == old(a[k])
    ensures multiset(a[..]) == old(multiset(a[..]))
  {
    a[i], a[j] := a[j], a[i];
  }

  /** The in-place `sort((a, b) => a.time - b.time)`: afterwards the array is
      non-decreasing by time and holds the same cuepoints. Ties may end up in
      any order; the comparator promises nothing about them. */
  method SortByTime(a: array<Cuepoint>)
    modifies a
    ensures SortedByTime(a[..])
    ensures multiset(a[..]) == old(multiset(a[..]))
  {
    var i := 0;
    while i < a.Length
      invariant 0 <= i <= a.Length
      invariant SortedByTime(a[..i])
      invariant multiset(a[..]) == old(multiset(a[..]))
    {
      var j := i;
      while j > 0 && a[j - 1].time > a[j].time
        invariant 0 <= j <= i
        invariant forall k, l :: 0 <= k < l <= i && l != j && k != j ==> a[k].time <= a[l].time
        invariant forall l :: j < l <= i ==> a[j].time <= a[l].time
        invariant multiset(a[..]) == old(multiset(a[..]))
      {
        Swap(a, j - 1, j);
        j := j - 1;
      }
      i := i + 1;
    }
  }

  /** `cuepoints.find(cp => cp.name === name)`, scanning from `from`: the
      position of the first cuepoint with that name, or None. */
  function FindByName(cps: seq<Cuepoint>, from: nat, name: string): (r: Option<nat>)
    requires from <= |cps|
    ensures r.Some? ==> from <= r.value < |cps| && cps[r.value].name == name
    ensures r.Some? ==> forall j :: from <= j < r.value ==> cps[j].name != name
    ensures r.None? ==> forall j :: from <= j < |cps| ==> cps[j].name != name
    decreases |cps| - from
  {
    if from == |cps| then None
    else if cps[from].name == name then Some(from)
    else FindByName(cps, from + 1, name)
  }
}
