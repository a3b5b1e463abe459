/**
 * The composition records the engine reads from the track store: placed
 * samples, tracks of slots, and the snapshot (tracks, slot count, solo,
 * stored total duration, project key).
 */
module Types {
  import opened Common

  /** Tempo of every composition. */
  const Bpm: real := 90.0

  /** Seconds per slot (one 4-beat measure): `(60 / BPM) * 4`, i.e. 8/3 s. */
  const MeasureDuration: real := 8.0 / 3.0

  lemma MeasureDurationFromTempo()
    ensures MeasureDuration == (60.0 / Bpm) * 4.0
  {
  }

  /**
   * A placed sample. `duration` is in slots and `offset` a fraction of a slot;
   * a missing `offset` is 0 and a missing `key` / `instanceId` is `None`.
   */
  datatype Sample = Sample(
    url: string,
    duration: nat,
    offset: real,
    key: Option<string>,
    instanceId: Option<string>)

  datatype Track = Track(id: string, volume: real, isMuted: bool, slots: seq<Option<Sample>>)

  /** The slice of the track store the engine reads. */
  datatype Snapshot = Snapshot(
    tracks: seq<Track>,
    numSlots: nat,
    soloedTrackId: Option<string>,
    totalDuration: real,
    projectKey: Option<string>)

  /** `sample.duration || 1`: a zero duration counts as one slot. */
  function Span(s: Sample): (n: nat)
    ensures n >= 1
    ensures s.duration > 0 ==> n == s.duration
  {
    if s.duration == 0 then 1 else s.duration
  }

  /** `slots[i]`; an index past the end reads `undefined`, i.e. an empty slot. */
  function SlotAt(slots: seq<Option<Sample>>, i: nat): Option<Sample>
  {
    if i < |slots| then slots[i] else None
  }

  predicate Occupied(slots: seq<Option<Sample>>, i: nat)
  {
    SlotAt(slots, i).Some?
  }

  /**
   * End (exclusive) of the run of slots a sample placed at `i` covers; for an
   * empty slot, the next slot. This is where the slot walk goes after `i`.
   */
  function EndSlot(slots: seq<Option<Sample>>, i: nat): (e: nat)
    ensures e > i
  {
    match SlotAt(slots, i)
    case Some(s) => i + Span(s)
    case None => i + 1
  }

  /**
   * One step of the slot walk as written, where `duration` may be any integer:
   * `i += duration || 1` at an occupied slot, `i++` at an empty one.
   * `durations[i]` is the duration of the sample at slot `i`, `None` when empty.
   */
  function RawNextSlot(durations: seq<Option<int>>, i: int): int
  {
    if 0 <= i < |durations| && durations[i].Some? then
      i + (if durations[i].value == 0 then 1 else durations[i].value)
    else i + 1
  }

  /** `steps` steps of the walk as written, from slot `i`. */
  function RawWalk(durations: seq<Option<int>>, i: int, steps: nat): int
    decreases steps
  {
    if steps == 0 then i else RawWalk(durations, RawNextSlot(durations, i), steps - 1)
  }

  /** A two-slot track whose slot 0 is empty and whose slot 1 holds a sample of duration -1. */
  const NegativeRun: seq<Option<int>> := [None, Some(-1)]

  /**
   * On that track the walk as written bounces between slots 0 and 1 and never
   * reaches the end of the grid, however many steps it takes.
   */
  lemma {:induction false} RawWalkNeverEnds(i: int, steps: nat)
    requires i == 0 || i == 1
    ensures 0 <= RawWalk(NegativeRun, i, steps) < |NegativeRun|
    decreases steps
  {
    if steps > 0 {
      RawWalkNeverEnds(RawNextSlot(NegativeRun, i), steps - 1);
    }
  }

  /**
   * The editor's placement invariant for a track of `numSlots` slots: every
   * placed run fits inside the grid and no two runs overlap.
   */
  ghost predicate Placed(slots: seq<Option<Sample>>, numSlots: nat)
  {
    && (forall i :: 0 <= i < |slots| && slots[i].Some? ==> i + Span(slots[i].value) <= numSlots)
    && (forall i, j :: 0 <= i < j < |slots| && slots[i].Some? && slots[j].Some? ==> i + Span(slots[i].value) <= j)
  }
}

/**
 * The left-to-right slot walk that `scheduleTrack`, the export loop and
 * `handleDrop` all perform: an occupied slot is visited and the walk jumps
 * past its `duration || 1` slots; an empty slot advances it by one.
 */
module Grid {
  import opened Common
  import opened Types

  /** The occupied slots the walk visits from slot `i`, in order ("heads"). */
  function Heads(slots: seq<Option<Sample>>, numSlots: nat, i: nat): seq<nat>
    decreases numSlots - i
  {
    if i >= numSlots then []
    else match SlotAt(slots, i)
      case None => Heads(slots, numSlots, i + 1)
      case Some(s) => [i] + Heads(slots, numSlots, i + Span(s))
  }

  /**
   * One step of the walk: from slot `i` it records `i` and jumps over the run
   * of an occupied slot, or moves to the next slot of an empty one.
   */
  lemma HeadsStep(slots: seq<Option<Sample>>, numSlots: nat, visited: seq<nat>, i: nat)
    requires i < numSlots && Heads(slots, numSlots, 0) == visited + Heads(slots, numSlots, i)
    ensures SlotAt(slots, i).Some? ==>
      Heads(slots, numSlots, 0) == (visited + [i]) + Heads(slots, numSlots, i + Span(SlotAt(slots, i).value))
    ensures SlotAt(slots, i).None? ==> Heads(slots, numSlots, 0) == visited + Heads(slots, numSlots, i + 1)
  {
    if SlotAt(slots, i).Some? {
      var rest := Heads(slots, numSlots, i + Span(SlotAt(slots, i).value));
      assert visited + ([i] + rest) == (visited + [i]) + rest;
    }
  }

  /** Every head lies in `[i, numSlots)`, is occupied, and starts at or after the end of the previous run. */
  lemma {:induction false} HeadsWellFormed(slots: seq<Option<Sample>>, numSlots: nat, i: nat)
    ensures forall k :: 0 <= k < |Heads(slots, numSlots, i)| ==>
      var h := Heads(slots, numSlots, i)[k]; i <= h < numSlots && Occupied(slots, h)
    ensures forall k :: 0 < k < |Heads(slots, numSlots, i)| ==>
      EndSlot(slots, Heads(slots, numSlots, i)[k - 1]) <= Heads(slots, numSlots, i)[k]
    decreases numSlots - i
  {
    if i < numSlots {
      match SlotAt(slots, i)
      case None => HeadsWellFormed(slots, numSlots, i + 1);
      case Some(s) => HeadsWellFormed(slots, numSlots, i + Span(s));
    }
  }

  /** Membership form of the bounds: a head is an occupied slot in `[i, numSlots)`. */
  lemma HeadIsOccupied(slots: seq<Option<Sample>>, numSlots: nat, i: nat, h: nat)
    requires h in Heads(slots, numSlots, i)
    ensures i <= h < numSlots && Occupied(slots, h)
  {
    HeadsWellFormed(slots, numSlots, i);
    var k :| 0 <= k < |Heads(slots, numSlots, i)| && Heads(slots, numSlots, i)[k] == h;
  }

  /** The walk never visits a slot strictly inside a placed run it has visited. */
  lemma {:induction false} HeadsSkipRuns(slots: seq<Option<Sample>>, numSlots: nat, i: nat, h: nat, j: nat)
    requires h in Heads(slots, numSlots, i)
    requires h < j < EndSlot(slots, h)
    ensures j !in Heads(slots, numSlots, i)
    decreases numSlots - i
  {
    if i < numSlots {
      match SlotAt(slots, i)
      case None => HeadsSkipRuns(slots, numSlots, i + 1, h, j);
      case Some(s) =>
        var rest := Heads(slots, numSlots, i + Span(s));
        if h == i {
          if j in rest { HeadIsOccupied(slots, numSlots, i + Span(s), j); }
        } else {
          assert h in rest;
          HeadIsOccupied(slots, numSlots, i + Span(s), h);
          HeadsSkipRuns(slots, numSlots, i + Span(s), h, j);
        }
    }
  }

  /**
   * Every occupied slot in `[i, numSlots)` is either visited or covered by the
   * run of an earlier visited slot.
   */
  lemma {:induction false} HeadsCover(slots: seq<Option<Sample>>, numSlots: nat, i: nat, j: nat)
    requires i <= j < numSlots && Occupied(slots, j)
    ensures j in Heads(slots, numSlots, i) ||
            exists h :: h in Heads(slots, numSlots, i) && h < j < EndSlot(slots, h)
    decreases numSlots - i
  {
    match SlotAt(slots, i)
    case None => HeadsCover(slots, numSlots, i + 1, j);
    case Some(s) =>
      if j >= i + Span(s) {
        HeadsCover(slots, numSlots, i + Span(s), j);
      } else if j > i {
        assert i in Heads(slots, numSlots, i) && i < j < EndSlot(slots, i);
      }
  }

  /** Under the placement invariant the walk visits exactly the occupied slots. */
  lemma HeadsOfPlaced(slots: seq<Option<Sample>>, numSlots: nat, i: nat, j: nat)
    requires Placed(slots, numSlots)
    ensures j in Heads(slots, numSlots, i) <==> i <= j < numSlots && Occupied(slots, j)
  {
    if j in Heads(slots, numSlots, i) {
      HeadIsOccupied(slots, numSlots, i, j);
    } else if i <= j < numSlots && Occupied(slots, j) {
      HeadsCover(slots, numSlots, i, j);
    }
  }
}
