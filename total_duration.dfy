/**
 * The derived loop length: the furthest end slot `i + (duration || 1)` over
 * every placed sample of every track, times the measure length.
 */
module TotalDuration {
  import opened Common
  import opened Types
  import Schedule

  function Max(a: nat, b: nat): nat
  {
    if a >= b then a else b
  }

  /** The end slot a slot contributes: `i + (duration || 1)` when occupied, nothing (0) otherwise. */
  function EndOf(slot: Option<Sample>, i: nat): nat
  {
    match slot
    case Some(s) => i + Span(s)
    case None => 0
  }

  /** The largest end slot among the slots of one track (0 when none is occupied). */
  function SlotsMaxEnd(slots: seq<Option<Sample>>): nat
  {
    if slots == [] then 0
    else Max(SlotsMaxEnd(slots[..|slots| - 1]), EndOf(slots[|slots| - 1], |slots| - 1))
  }

  /** `maxEndSlot`: the largest end slot over all tracks (0 when nothing is placed). */
  function MaxEndSlot(tracks: seq<Track>): nat
  {
    if tracks == [] then 0
    else Max(MaxEndSlot(tracks[..|tracks| - 1]), SlotsMaxEnd(tracks[|tracks| - 1].slots))
  }

  /** `maxEndSlot * measureDuration`, in seconds. */
  function TotalSeconds(tracks: seq<Track>): real
  {
    MaxEndSlot(tracks) as real * MeasureDuration
  }

  /** True when some track holds a sample. */
  ghost predicate AnyPlaced(tracks: seq<Track>)
  {
    exists k, i :: 0 <= k < |tracks| && 0 <= i < |tracks[k].slots| && tracks[k].slots[i].Some?
  }

  /** The nested loops of the hook, accumulating `maxEndSlot`. */
  method ComputeTotalDuration(tracks: seq<Track>) returns (maxEndSlot: nat, totalDuration: real)
    ensures maxEndSlot == MaxEndSlot(tracks)
    ensures totalDuration == maxEndSlot as real * MeasureDuration
  {
    maxEndSlot := 0;
    var k := 0;
    while k < |tracks|
      invariant 0 <= k <= |tracks|
      invariant maxEndSlot == MaxEndSlot(tracks[..k])
    {
      var slots := tracks[k].slots;
      var i := 0;
      while i < |slots|
        invariant 0 <= i <= |slots|
        invariant maxEndSlot == Max(MaxEndSlot(tracks[..k]), SlotsMaxEnd(slots[..i]))
      {
        SlotsMaxEndSnoc(slots, i);
        if slots[i].Some? {
          var endSlot := i + (if slots[i].value.duration == 0 then 1 else slots[i].value.duration);
          if endSlot > maxEndSlot {
            maxEndSlot := endSlot;
          }
        }
        i := i + 1;
      }
      assert slots[..i] == slots;
      MaxEndSlotSnoc(tracks, k);
      k := k + 1;
    }
    assert tracks[..k] == tracks;
    totalDuration := maxEndSlot as real * MeasureDuration;
  }

  lemma SlotsMaxEndSnoc(slots: seq<Option<Sample>>, i: nat)
    requires i < |slots|
    ensures SlotsMaxEnd(slots[..i + 1]) == Max(SlotsMaxEnd(slots[..i]), EndOf(slots[i], i))
  {
    assert slots[..i + 1][..i] == slots[..i];
  }

  lemma MaxEndSlotSnoc(tracks: seq<Track>, k: nat)
    requires k < |tracks|
    ensures MaxEndSlot(tracks[..k + 1]) == Max(MaxEndSlot(tracks[..k]), SlotsMaxEnd(tracks[k].slots))
  {
    assert tracks[..k + 1][..k] == tracks[..k];
  }

  lemma {:induction false} SlotsMaxEndBound(slots: seq<Option<Sample>>, i: nat)
    requires i < |slots| && slots[i].Some?
    ensures SlotsMaxEnd(slots) >= i + Span(slots[i].value)
    decreases |slots|
  {
    if i < |slots| - 1 {
      SlotsMaxEndBound(slots[..|slots| - 1], i);
    }
  }

  /** Every placed sample ends at or before `maxEndSlot`. */
  lemma {:induction false} MaxEndSlotBound(tracks: seq<Track>, k: nat, i: nat)
    requires k < |tracks| && i < |tracks[k].slots| && tracks[k].slots[i].Some?
    ensures MaxEndSlot(tracks) >= i + Span(tracks[k].slots[i].value)
    decreases |tracks|
  {
    if k < |tracks| - 1 {
      MaxEndSlotBound(tracks[..|tracks| - 1], k, i);
    } else {
      SlotsMaxEndBound(tracks[k].slots, i);
    }
  }

  lemma {:induction false} SlotsMaxEndAttained(slots: seq<Option<Sample>>)
    ensures SlotsMaxEnd(slots) == 0 ||
      exists i :: 0 <= i < |slots| && slots[i].Some? && SlotsMaxEnd(slots) == i + Span(slots[i].value)
  {
    if slots != [] {
      var init := slots[..|slots| - 1];
      SlotsMaxEndAttained(init);
      if SlotsMaxEnd(slots) != EndOf(slots[|slots| - 1], |slots| - 1) && SlotsMaxEnd(slots) != 0 {
        var i :| 0 <= i < |init| && init[i].Some? && SlotsMaxEnd(init) == i + Span(init[i].value);
        assert slots[i] == init[i];
      }
    }
  }

  /** `maxEndSlot` is 0 or the end slot of some placed sample. */
  lemma {:induction false} MaxEndSlotAttained(tracks: seq<Track>)
    ensures MaxEndSlot(tracks) == 0 ||
      exists k, i :: 0 <= k < |tracks| && 0 <= i < |tracks[k].slots| && tracks[k].slots[i].Some? &&
        MaxEndSlot(tracks) == i + Span(tracks[k].slots[i].value)
  {
    if tracks != [] {
      var init := tracks[..|tracks| - 1];
      var last := |tracks| - 1;
      MaxEndSlotAttained(init);
      SlotsMaxEndAttained(tracks[last].slots);
      if MaxEndSlot(tracks) == SlotsMaxEnd(tracks[last].slots) {
        if MaxEndSlot(tracks) != 0 {
          var i :| 0 <= i < |tracks[last].slots| && tracks[last].slots[i].Some? &&
            SlotsMaxEnd(tracks[last].slots) == i + Span(tracks[last].slots[i].value);
        }
      } else if MaxEndSlot(tracks) != 0 {
        var k, i :| 0 <= k < |init| && 0 <= i < |init[k].slots| && init[k].slots[i].Some? &&
          MaxEndSlot(init) == i + Span(init[k].slots[i].value);
        assert tracks[k] == init[k];
      }
    }
  }

  /** The loop length is never negative, and it is zero exactly when no track holds a sample. */
  lemma TotalSecondsZeroIffEmpty(tracks: seq<Track>)
    ensures TotalSeconds(tracks) >= 0.0
    ensures TotalSeconds(tracks) == 0.0 <==> !AnyPlaced(tracks)
  {
    MaxEndSlotAttained(tracks);
    if AnyPlaced(tracks) {
      var k, i :| 0 <= k < |tracks| && 0 <= i < |tracks[k].slots| && tracks[k].slots[i].Some?;
      MaxEndSlotBound(tracks, k, i);
    }
  }

  /** Under the placement invariant the loop never extends past the grid. */
  lemma MaxEndSlotWithinGrid(tracks: seq<Track>, numSlots: nat)
    requires forall k :: 0 <= k < |tracks| ==> Placed(tracks[k].slots, numSlots)
    ensures MaxEndSlot(tracks) <= numSlots
  {
    MaxEndSlotAttained(tracks);
  }

  /**
   * With the stored total equal to the derived one, every placed sample
   * without a positive intra-slot offset ends inside the loop, so one loop
   * iteration of the scheduler covers it completely.
   */
  lemma SamplesEndWithinLoop(tracks: seq<Track>, k: nat, i: nat)
    requires k < |tracks| && i < |tracks[k].slots| && tracks[k].slots[i].Some?
    requires tracks[k].slots[i].value.offset <= 0.0
    ensures Schedule.SampleStart(tracks[k].slots[i].value, i) + Schedule.SampleLength(tracks[k].slots[i].value)
              <= TotalSeconds(tracks)
  {
    var s := tracks[k].slots[i].value;
    MaxEndSlotBound(tracks, k, i);
    EndsBy(s, i, MaxEndSlot(tracks));
    TotalSecondsIsScaled(tracks);
  }

  lemma TotalSecondsIsScaled(tracks: seq<Track>)
    ensures TotalSeconds(tracks) == MaxEndSlot(tracks) as real * MeasureDuration
  {
  }

  /** A sample whose slots end by slot `n` has finished playing by `n` measures. */
  lemma EndsBy(s: Sample, i: nat, n: nat)
    requires s.offset <= 0.0 && i + Span(s) <= n
    ensures Schedule.SampleStart(s, i) + Schedule.SampleLength(s) <= n as real * MeasureDuration
  {
    var start := i as real + s.offset;
    assert start + Span(s) as real <= n as real;
    calc {
      Schedule.SampleStart(s, i) + Schedule.SampleLength(s);
      start * MeasureDuration + Span(s) as real * MeasureDuration;
      (start + Span(s) as real) * MeasureDuration;
    <=
      n as real * MeasureDuration;
    }
  }
}
