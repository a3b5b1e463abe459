/**
 * The track store: five typed tracks of `numSlots` slots each, per-track
 * volumes and the stored loop length, with the drop, clear and add-bars
 * edits of the editor.
 */
module TrackStore {
  import opened Common
  import opened Types
  import opened Grid

  datatype TrackType = Drums | Bass | Melody | Fills | SFX

  /** `TRACK_TYPES`, in the order the store iterates them. */
  const TrackTypes: seq<TrackType> := [Drums, Bass, Melody, Fills, SFX]

  /** The position of a track type in `TRACK_TYPES`: every type is listed. */
  function TypeIndex(t: TrackType): (k: nat)
    ensures k < |TrackTypes| && TrackTypes[k] == t
  {
    match t
    case Drums => 0
    case Bass => 1
    case Melody => 2
    case Fills => 3
    case SFX => 4
  }

  /** `TypeIndex` inverts indexing into `TRACK_TYPES`: the five types are distinct. */
  lemma TypeIndexOf(k: nat)
    requires k < |TrackTypes|
    ensures TypeIndex(TrackTypes[k]) == k
  {
  }

  /** Slot count of a fresh store. */
  const InitialSlots: nat := 16

  /** `Array(n).fill(null)`. */
  function Blank(n: nat): (r: seq<Option<Sample>>)
    ensures |r| == n && forall j :: 0 <= j < n ==> r[j] == None
  {
    seq(n, _ => None)
  }

  /** The run of a placed head and the requested drop run intersect: `max(starts) < min(ends)`. */
  predicate Overlaps(slots: seq<Option<Sample>>, h: nat, slotIndex: nat, duration: nat)
  {
    var sampleEnd := EndSlot(slots, h);
    var dropEnd := slotIndex + duration;
    (if h >= slotIndex then h else slotIndex) < (if sampleEnd <= dropEnd then sampleEnd else dropEnd)
  }

  /** The drop is accepted: the run fits in the grid and meets no run the slot walk visits. */
  predicate CanDrop(slots: seq<Option<Sample>>, numSlots: nat, slotIndex: nat, duration: nat)
  {
    var hs := Heads(slots, numSlots, 0);
    slotIndex + duration <= numSlots && forall k :: 0 <= k < |hs| ==> !Overlaps(slots, hs[k], slotIndex, duration)
  }

  /** `{ ...sample, instanceId }`. */
  function Stamped(sample: Sample, instanceId: string): Sample
  {
    sample.(instanceId := Some(instanceId))
  }

  /** The `handleDrop` walk: visits the heads left to right and stops at the first overlap. */
  method DropAllowed(slots: seq<Option<Sample>>, numSlots: nat, slotIndex: nat, duration: nat) returns (ok: bool)
    ensures ok == CanDrop(slots, numSlots, slotIndex, duration)
  {
    if slotIndex + duration > numSlots {
      return false;
    }
    var currentPos := 0;
    ghost var visited: seq<nat> := [];
    while currentPos < numSlots
      invariant Heads(slots, numSlots, 0) == visited + Heads(slots, numSlots, currentPos)
      invariant forall k :: 0 <= k < |visited| ==> !Overlaps(slots, visited[k], slotIndex, duration)
      decreases numSlots - currentPos
    {
      HeadsStep(slots, numSlots, visited, currentPos);
      var currentSample := SlotAt(slots, currentPos);
      if currentSample.Some? {
        var span := Span(currentSample.value);
        var sampleEnd := currentPos + span;
        var dropEnd := slotIndex + duration;
        if (if currentPos >= slotIndex then currentPos else slotIndex) < (if sampleEnd <= dropEnd then sampleEnd else dropEnd) {
          assert Heads(slots, numSlots, 0)[|visited|] == currentPos;
          return false;
        }
        visited := visited + [currentPos];
        currentPos := currentPos + span;
      } else {
        currentPos := currentPos + 1;
      }
    }
    assert visited == Heads(slots, numSlots, 0);
    return true;
  }

  /** Two runs are disjoint: the placed one at `j` ends before the drop starts, or starts after it ends. */
  predicate Disjoint(slots: seq<Option<Sample>>, j: nat, slotIndex: nat, duration: nat)
    requires j < |slots| && slots[j].Some?
  {
    j + Span(slots[j].value) <= slotIndex || slotIndex + duration <= j
  }

  /**
   * On a grid that keeps the placement invariant, a drop is accepted exactly
   * when its run fits and is disjoint from every placed run.
   */
  lemma CanDropIffDisjoint(slots: seq<Option<Sample>>, numSlots: nat, slotIndex: nat, duration: nat)
    requires Placed(slots, numSlots) && duration >= 1
    ensures CanDrop(slots, numSlots, slotIndex, duration) <==>
      slotIndex + duration <= numSlots &&
      forall j :: 0 <= j < |slots| && slots[j].Some? ==> Disjoint(slots, j, slotIndex, duration)
  {
    var hs := Heads(slots, numSlots, 0);
    if CanDrop(slots, numSlots, slotIndex, duration) {
      forall j | 0 <= j < |slots| && slots[j].Some? ensures Disjoint(slots, j, slotIndex, duration) {
        HeadsOfPlaced(slots, numSlots, 0, j);
        var k :| 0 <= k < |hs| && hs[k] == j;
        assert !Overlaps(slots, hs[k], slotIndex, duration);
      }
    }
    if slotIndex + duration <= numSlots &&
       forall j :: 0 <= j < |slots| && slots[j].Some? ==> Disjoint(slots, j, slotIndex, duration)
    {
      forall k | 0 <= k < |hs| ensures !Overlaps(slots, hs[k], slotIndex, duration) {
        assert hs[k] in hs;
        HeadIsOccupied(slots, numSlots, 0, hs[k]);
        assert Disjoint(slots, hs[k], slotIndex, duration);
      }
    }
  }

  /** An accepted drop lands on an empty slot and keeps the placement invariant. */
  lemma DropKeepsPlaced(slots: seq<Option<Sample>>, numSlots: nat, slotIndex: nat, sample: Sample)
    requires Placed(slots, numSlots) && |slots| == numSlots
    requires CanDrop(slots, numSlots, slotIndex, Span(sample))
    ensures slotIndex < |slots| && slots[slotIndex] == None
    ensures Placed(slots[slotIndex := Some(sample)], numSlots)
  {
    CanDropIffDisjoint(slots, numSlots, slotIndex, Span(sample));
  }

  /** `s?.instanceId === instanceId`. */
  predicate HasInstance(slot: Option<Sample>, instanceId: string)
  {
    slot.Some? && slot.value.instanceId == Some(instanceId)
  }

  /** `findIndex` from position `i`: the first slot holding the instance. */
  function FindInstance(slots: seq<Option<Sample>>, instanceId: string, i: nat): (r: Option<nat>)
    ensures r.Some? ==> (
      && i <= r.value < |slots| && HasInstance(slots[r.value], instanceId)
      && forall j :: i <= j < r.value ==> !HasInstance(slots[j], instanceId))
    ensures r.None? ==> forall j :: i <= j < |slots| ==> !HasInstance(slots[j], instanceId)
    decreases |slots| - i
  {
    if i >= |slots| then None
    else if HasInstance(slots[i], instanceId) then Some(i)
    else FindInstance(slots, instanceId, i + 1)
  }

  /**
   * Nulling `duration` slots from `start`; assigning past the end of a
   * JavaScript array lengthens it, so the result covers `start + duration`.
   */
  function ClearRun(slots: seq<Option<Sample>>, start: nat, duration: nat): (r: seq<Option<Sample>>)
    ensures |r| == if |slots| >= start + duration then |slots| else start + duration
  {
    var n := if |slots| >= start + duration then |slots| else start + duration;
    seq(n, j requires 0 <= j => if start <= j < start + duration || j >= |slots| then None else slots[j])
  }

  /** The track after `handleClear`: the first instance's run is nulled; an unknown instance changes nothing. */
  function Cleared(slots: seq<Option<Sample>>, instanceId: string): seq<Option<Sample>>
  {
    match FindInstance(slots, instanceId, 0)
    case None => slots
    case Some(idx) => ClearRun(slots, idx, Span(slots[idx].value))
  }

  /** The clearing loop of `handleClear`, on a copy of the track. */
  method ClearSlots(slots: seq<Option<Sample>>, start: nat, duration: nat) returns (newSlots: seq<Option<Sample>>)
    requires start < |slots|
    ensures newSlots == ClearRun(slots, start, duration)
  {
    newSlots := slots;
    var i := 0;
    while i < duration
      invariant 0 <= i <= duration
      invariant newSlots == ClearRun(slots, start, i)
    {
      ClearRunStep(slots, start, i);
      if start + i < |newSlots| {
        newSlots := newSlots[start + i := None];
      } else {
        newSlots := newSlots + [None];
      }
      i := i + 1;
    }
  }

  lemma ClearRunStep(slots: seq<Option<Sample>>, start: nat, i: nat)
    requires start < |slots|
    ensures var cur := ClearRun(slots, start, i);
      start + i <= |cur| &&
      ClearRun(slots, start, i + 1) == if start + i < |cur| then cur[start + i := None] else cur + [None]
  {
  }

  /**
   * On a grid that keeps the placement invariant, clearing removes exactly
   * the first slot holding the instance: the rest of its run is already empty.
   */
  lemma ClearedOfPlaced(slots: seq<Option<Sample>>, numSlots: nat, instanceId: string)
    requires Placed(slots, numSlots) && |slots| == numSlots
    ensures FindInstance(slots, instanceId, 0).None? ==> Cleared(slots, instanceId) == slots
    ensures FindInstance(slots, instanceId, 0).Some? ==>
      Cleared(slots, instanceId) == slots[FindInstance(slots, instanceId, 0).value := None]
  {
    match FindInstance(slots, instanceId, 0)
    case None =>
    case Some(idx) =>
      var r := ClearRun(slots, idx, Span(slots[idx].value));
      assert forall j :: 0 <= j < |slots| ==> r[j] == slots[idx := None][j];
  }

  /** Clearing keeps the placement invariant. */
  lemma ClearKeepsPlaced(slots: seq<Option<Sample>>, numSlots: nat, instanceId: string)
    requires Placed(slots, numSlots) && |slots| == numSlots
    ensures |Cleared(slots, instanceId)| == numSlots && Placed(Cleared(slots, instanceId), numSlots)
  {
    ClearedOfPlaced(slots, numSlots, instanceId);
  }

  /**
   * Dropping a sample under a fresh instance id and then clearing that id
   * gives back the track as it was.
   */
  lemma DropThenClear(slots: seq<Option<Sample>>, numSlots: nat, slotIndex: nat, sample: Sample, instanceId: string)
    requires Placed(slots, numSlots) && |slots| == numSlots
    requires CanDrop(slots, numSlots, slotIndex, Span(sample))
    requires forall j :: 0 <= j < |slots| ==> !HasInstance(slots[j], instanceId)
    ensures Cleared(slots[slotIndex := Some(Stamped(sample, instanceId))], instanceId) == slots
  {
    DropKeepsPlaced(slots, numSlots, slotIndex, Stamped(sample, instanceId));
    var dropped := slots[slotIndex := Some(Stamped(sample, instanceId))];
    assert HasInstance(dropped[slotIndex], instanceId);
    assert FindInstance(dropped, instanceId, 0) == Some(slotIndex);
    ClearedOfPlaced(dropped, numSlots, instanceId);
    assert dropped[slotIndex := None] == slots;
  }

  /** Appending empty bars changes neither the placement invariant nor which slots the walk visits. */
  lemma {:induction false} HeadsOfExtended(slots: seq<Option<Sample>>, amount: nat, i: nat)
    ensures Heads(slots + Blank(amount), |slots| + amount, i) == Heads(slots, |slots|, i)
    decreases |slots| + amount - i
  {
    var ext := slots + Blank(amount);
    assert SlotAt(ext, i) == SlotAt(slots, i) by {
      if i < |ext| {
        assert i < |slots| ==> ext[i] == slots[i];
        assert i >= |slots| ==> ext[i] == Blank(amount)[i - |slots|];
      }
    }
    if i < |slots| {
      match SlotAt(slots, i)
      case None => HeadsOfExtended(slots, amount, i + 1);
      case Some(s) => HeadsOfExtended(slots, amount, i + Span(s));
    } else if i < |slots| + amount {
      HeadsOfExtended(slots, amount, i + 1);
    }
  }

  lemma ExtendKeepsPlaced(slots: seq<Option<Sample>>, numSlots: nat, amount: nat)
    requires Placed(slots, numSlots) && |slots| == numSlots
    ensures Placed(slots + Blank(amount), numSlots + amount)
  {
  }

  /** The loop of `addSlots` over `TRACK_TYPES`, on a copy of the record. */
  method Widened(trackSlots: map<TrackType, seq<Option<Sample>>>, amount: nat)
    returns (newTrackSlots: map<TrackType, seq<Option<Sample>>>)
    requires forall t: TrackType :: t in trackSlots
    ensures forall t: TrackType :: t in newTrackSlots && newTrackSlots[t] == trackSlots[t] + Blank(amount)
  {
    newTrackSlots := trackSlots;
    var k := 0;
    while k < |TrackTypes|
      invariant 0 <= k <= |TrackTypes|
      invariant forall t: TrackType :: t in newTrackSlots
      invariant forall t: TrackType ::
        newTrackSlots[t] == if TypeIndex(t) < k then trackSlots[t] + Blank(amount) else trackSlots[t]
    {
      var t := TrackTypes[k];
      TypeIndexOf(k);
      newTrackSlots := newTrackSlots[t := newTrackSlots[t] + Blank(amount)];
      k := k + 1;
    }
  }

  class Store {
    var numSlots: nat
    var trackSlots: map<TrackType, seq<Option<Sample>>>
    var volumes: map<TrackType, real>
    var totalDuration: real

    /** Every track type has a track of `numSlots` slots that keeps the placement invariant, and a volume. */
    ghost predicate Valid()
      reads this
    {
      && (forall t: TrackType :: t in trackSlots && t in volumes)
      && (forall t :: t in trackSlots ==> |trackSlots[t]| == numSlots && Placed(trackSlots[t], numSlots))
    }

    /** Sixteen empty slots per track, every volume 1, loop length 0. */
    constructor ()
      ensures Valid()
      ensures numSlots == InitialSlots && totalDuration == 0.0
      ensures forall t: TrackType :: trackSlots[t] == Blank(InitialSlots) && volumes[t] == 1.0
    {
      numSlots := InitialSlots;
      trackSlots := map t: TrackType | t in TrackTypes :: Blank(InitialSlots);
      volumes := map t: TrackType | t in TrackTypes :: 1.0;
      totalDuration := 0.0;
      new;
      forall t: TrackType ensures t in TrackTypes {
        assert TrackTypes[TypeIndex(t)] == t;
      }
    }

    /**
     * `handleDrop`: places the sample, stamped with a fresh instance id, at
     * `slotIndex` when the run fits and meets no placed run; otherwise
     * nothing changes.
     */
    method HandleDrop(trackType: TrackType, slotIndex: nat, sample: Sample, freshId: string) returns (placed: bool)
      requires Valid()
      modifies this
      ensures Valid()
      ensures numSlots == old(numSlots) && volumes == old(volumes) && totalDuration == old(totalDuration)
      ensures placed == CanDrop(old(trackSlots[trackType]), numSlots, slotIndex, Span(sample))
      ensures trackSlots == if placed
        then old(trackSlots)[trackType := old(trackSlots[trackType])[slotIndex := Some(Stamped(sample, freshId))]]
        else old(trackSlots)
    {
      var duration := if sample.duration == 0 then 1 else sample.duration;
      var currentSlots := trackSlots[trackType];
      placed := DropAllowed(currentSlots, numSlots, slotIndex, duration);
      if placed {
        DropKeepsPlaced(currentSlots, numSlots, slotIndex, Stamped(sample, freshId));
        trackSlots := trackSlots[trackType := currentSlots[slotIndex := Some(Stamped(sample, freshId))]];
      }
    }

    /** `handleClear`: nulls the run of the first slot holding the instance. */
    method HandleClear(trackType: TrackType, instanceId: string)
      requires Valid()
      modifies this
      ensures Valid()
      ensures trackSlots == old(trackSlots)[trackType := Cleared(old(trackSlots[trackType]), instanceId)]
      ensures numSlots == old(numSlots) && volumes == old(volumes) && totalDuration == old(totalDuration)
    {
      var newSlots := trackSlots[trackType];
      ClearKeepsPlaced(newSlots, numSlots, instanceId);
      var sampleIndex := FindInstance(newSlots, instanceId, 0);
      if sampleIndex.Some? {
        var sample := newSlots[sampleIndex.value].value;
        var duration := if sample.duration == 0 then 1 else sample.duration;
        newSlots := ClearSlots(newSlots, sampleIndex.value, duration);
      }
      trackSlots := trackSlots[trackType := newSlots];
    }

    /** `addSlots`: every track gets `amount` empty slots at its end. */
    method AddSlots(amount: nat)
      requires Valid()
      modifies this
      ensures Valid()
      ensures numSlots == old(numSlots) + amount
      ensures forall t: TrackType :: trackSlots[t] == old(trackSlots[t]) + Blank(amount)
      ensures volumes == old(volumes) && totalDuration == old(totalDuration)
    {
      var newTrackSlots := Widened(trackSlots, amount);
      forall t: TrackType ensures Placed(newTrackSlots[t], numSlots + amount) {
        ExtendKeepsPlaced(trackSlots[t], numSlots, amount);
      }
      trackSlots := newTrackSlots;
      numSlots := numSlots + amount;
    }

    method SetTotalDuration(duration: real)
      modifies this
      ensures totalDuration == duration
      ensures numSlots == old(numSlots) && trackSlots == old(trackSlots) && volumes == old(volumes)
      ensures old(Valid()) ==> Valid()
    {
      totalDuration := duration;
    }

    /** `setVolume`: the store's half; the engine's gain ramp is `Engine.SetTrackVolume`. */
    method SetVolume(trackType: TrackType, volume: real)
      modifies this
      ensures volumes == old(volumes)[trackType := volume]
      ensures numSlots == old(numSlots) && trackSlots == old(trackSlots) && totalDuration == old(totalDuration)
      ensures old(Valid()) ==> Valid()
    {
      volumes := volumes[trackType := volume];
    }
  }
}
