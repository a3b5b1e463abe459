/**
 * The loop scheduler of the audio engine: `scheduleTrack` walks a track's
 * slots and turns each placed sample whose buffer is decoded into a
 * time-stamped play command, classified against the looped playhead as
 * future, in progress or past; `schedulePlayback` does so for every audible
 * track. Host audio nodes are plain `Source` records here.
 */
module Schedule {
  import opened Common
  import opened JsMath
  import opened Types
  import opened Grid

  /**
   * A `source.start(startAt, offset, length)` call on a buffer source that
   * plays `url` through the gain node of track `trackId`.
   */
  datatype Source = Source(url: string, trackId: string, startAt: real, offset: real, length: real)

  /** `totalDuration > 0 ? elapsedTime % totalDuration : elapsedTime`. */
  function Looped(elapsed: real, total: real): (t: real)
    ensures total > 0.0 && elapsed >= 0.0 ==> 0.0 <= t < total
    ensures total > 0.0 && 0.0 <= elapsed < total ==> t == elapsed
    ensures total <= 0.0 ==> t == elapsed
  {
    if total > 0.0 then
      JsRemRange(elapsed, total);
      JsRemSmall(elapsed, total);
      JsRem(elapsed, total)
    else elapsed
  }

  /** Timeline position of a sample placed at slot `i`: `(i + (offset || 0)) * measure`. */
  function SampleStart(s: Sample, i: nat): real
  {
    (i as real + s.offset) * MeasureDuration
  }

  /** Timeline length of a sample: `(duration || 1) * measure`. */
  function SampleLength(s: Sample): (len: real)
    ensures len >= MeasureDuration > 0.0
  {
    Span(s) as real * MeasureDuration
  }

  /**
   * What a correct play command for the sample at slot `i` means: it starts
   * no earlier than `now`, plays the sample from `offset` to its end, and the
   * sample position it starts at is the timeline position the playhead
   * reaches at that instant, which is the later of the sample's start and the
   * playhead.
   */
  ghost predicate PlaysRemainder(src: Source, id: string, s: Sample, i: nat, now: real, looped: real)
  {
    var start := SampleStart(s, i);
    && src.url == s.url && src.trackId == id
    && src.startAt >= now
    && src.offset >= 0.0 && src.length > 0.0
    && src.offset + src.length == SampleLength(s)
    && looped + (src.startAt - now) == start + src.offset
    && start + src.offset == (if start >= looped then start else looped)
  }

  /** The three-way classification of `scheduleTrack` for one placed sample. */
  function Classify(id: string, s: Sample, i: nat, now: real, looped: real): (r: Option<Source>)
    ensures r.Some? <==> SampleStart(s, i) + SampleLength(s) > looped
    ensures r.Some? ==> PlaysRemainder(r.value, id, s, i, now, looped)
  {
    var start := SampleStart(s, i);
    var len := SampleLength(s);
    if start >= looped then
      Some(Source(s.url, id, now + (start - looped), 0.0, len))
    else if start + len > looped then
      var offset := looped - start;
      Some(Source(s.url, id, now, offset, len - offset))
    else
      None
  }

  /** The future, in-progress and past cases, as the scheduler states them. */
  lemma ClassifyCases(id: string, s: Sample, i: nat, now: real, looped: real)
    ensures var start := SampleStart(s, i); var r := Classify(id, s, i, now, looped);
      && (start >= looped ==>
            r == Some(Source(s.url, id, now + (start - looped), 0.0, SampleLength(s))))
      && (start < looped < start + SampleLength(s) ==>
            r.Some? && r.value.startAt == now && r.value.offset == looped - start > 0.0
            && r.value.length == start + SampleLength(s) - looped > 0.0)
      && (start + SampleLength(s) <= looped ==> r == None)
  {
  }

  /** The command (if any) the walk emits at visited slot `h`: none when the slot's buffer is not cached. */
  function EmitAt(track: Track, h: nat, cached: set<string>, now: real, looped: real): seq<Source>
  {
    match SlotAt(track.slots, h)
    case Some(s) =>
      if s.url in cached then
        match Classify(track.id, s, h, now, looped)
        case Some(src) => [src]
        case None => []
      else []
    case None => []
  }

  /** The commands the walk emits for the visited slots `heads` of one track. */
  function Emit(track: Track, heads: seq<nat>, cached: set<string>, now: real, looped: real): seq<Source>
  {
    if heads == [] then []
    else EmitAt(track, heads[0], cached, now, looped) + Emit(track, heads[1..], cached, now, looped)
  }

  lemma {:induction false} EmitAppend(track: Track, a: seq<nat>, b: seq<nat>, cached: set<string>, now: real, looped: real)
    ensures Emit(track, a + b, cached, now, looped) == Emit(track, a, cached, now, looped) + Emit(track, b, cached, now, looped)
  {
    if a != [] {
      assert (a + b)[0] == a[0] && (a + b)[1..] == a[1..] + b;
      EmitAppend(track, a[1..], b, cached, now, looped);
    } else {
      assert a + b == b;
    }
  }

  /** A command is emitted exactly for each visited slot whose buffer is cached and whose sample is not past. */
  lemma {:induction false} EmitMembers(track: Track, heads: seq<nat>, cached: set<string>, now: real, looped: real, src: Source)
    ensures src in Emit(track, heads, cached, now, looped) <==>
      exists h :: h in heads && Occupied(track.slots, h) && SlotAt(track.slots, h).value.url in cached &&
        Classify(track.id, SlotAt(track.slots, h).value, h, now, looped) == Some(src)
  {
    if heads != [] {
      EmitMembers(track, heads[1..], cached, now, looped, src);
      assert forall h :: h in heads <==> h == heads[0] || h in heads[1..];
    }
  }

  /** Everything `scheduleTrack` emits for `track` when the looped playhead is at `looped`. */
  function TrackSources(track: Track, numSlots: nat, cached: set<string>, now: real, looped: real): seq<Source>
  {
    Emit(track, Heads(track.slots, numSlots, 0), cached, now, looped)
  }

  /**
   * Every emitted command belongs to a visited, cached sample of this track
   * and plays exactly the rest of that sample; a sample whose buffer is not
   * cached yields nothing.
   */
  lemma TrackSourcesCorrect(track: Track, numSlots: nat, cached: set<string>, now: real, looped: real, src: Source)
    requires src in TrackSources(track, numSlots, cached, now, looped)
    ensures exists h :: (h in Heads(track.slots, numSlots, 0) && Occupied(track.slots, h) &&
      SlotAt(track.slots, h).value.url in cached &&
      PlaysRemainder(src, track.id, SlotAt(track.slots, h).value, h, now, looped))
  {
    EmitMembers(track, Heads(track.slots, numSlots, 0), cached, now, looped, src);
  }

  /** Conversely, every visited cached sample that is not yet over is emitted. */
  lemma TrackSourcesComplete(track: Track, numSlots: nat, cached: set<string>, now: real, looped: real, h: nat)
    requires h in Heads(track.slots, numSlots, 0)
    requires Occupied(track.slots, h) && SlotAt(track.slots, h).value.url in cached
    requires SampleStart(SlotAt(track.slots, h).value, h) + SampleLength(SlotAt(track.slots, h).value) > looped
    ensures Classify(track.id, SlotAt(track.slots, h).value, h, now, looped).Some?
    ensures Classify(track.id, SlotAt(track.slots, h).value, h, now, looped).value
              in TrackSources(track, numSlots, cached, now, looped)
  {
    var src := Classify(track.id, SlotAt(track.slots, h).value, h, now, looped).value;
    EmitMembers(track, Heads(track.slots, numSlots, 0), cached, now, looped, src);
  }

  /** The body of the slot walk for one cached sample: the future and in-progress cases emit, a past sample does not. */
  method ScheduleSample(id: string, sample: Sample, i: nat, now: real, looped: real) returns (src: Option<Source>)
    ensures src == Classify(id, sample, i, now, looped)
  {
    var start := (i as real + sample.offset) * MeasureDuration;
    var len := (if sample.duration == 0 then 1 else sample.duration) as real * MeasureDuration;
    if start >= looped {
      src := Some(Source(sample.url, id, now + (start - looped), 0.0, len));
    } else if start + len > looped {
      var offset := looped - start;
      src := Some(Source(sample.url, id, now, offset, len - offset));
    } else {
      src := None;
    }
  }

  /** The walk's work at an occupied slot: a sample whose buffer is not cached is skipped. */
  method ScheduleSlot(track: Track, i: nat, sample: Sample, cached: set<string>, now: real, looped: real)
    returns (here: seq<Source>)
    requires SlotAt(track.slots, i) == Some(sample)
    ensures here == EmitAt(track, i, cached, now, looped)
  {
    here := [];
    if sample.url in cached {
      var src := ScheduleSample(track.id, sample, i, now, looped);
      if src.Some? {
        here := [src.value];
      }
    }
  }

  /** `scheduleTrack`: the slot walk with its three-way classification. */
  method ScheduleTrack(track: Track, now: real, elapsed: real, numSlots: nat, total: real, cached: set<string>)
    returns (sources: seq<Source>)
    ensures sources == TrackSources(track, numSlots, cached, now, Looped(elapsed, total))
  {
    sources := [];
    var looped := if total > 0.0 then JsRem(elapsed, total) else elapsed;
    assert looped == Looped(elapsed, total);
    var i: nat := 0;
    ghost var visited: seq<nat> := [];
    while i < numSlots
      invariant Heads(track.slots, numSlots, 0) == visited + Heads(track.slots, numSlots, i)
      invariant sources == Emit(track, visited, cached, now, looped)
      decreases numSlots - i
    {
      HeadsStep(track.slots, numSlots, visited, i);
      var slot := SlotAt(track.slots, i);
      if slot.Some? {
        var sample := slot.value;
        var here := ScheduleSlot(track, i, sample, cached, now, looped);
        sources := sources + here;
        EmitAppend(track, visited, [i], cached, now, looped);
        visited := visited + [i];
        i := i + Span(sample);
      } else {
        i := i + 1;
      }
    }
    assert visited + Heads(track.slots, numSlots, i) == visited;
  }

  /**
   * The audibility rule of `schedulePlayback`: the track has a gain node, is
   * not muted, and no other track is soloed.
   */
  predicate Audible(track: Track, gainIds: set<string>, soloed: Option<string>)
  {
    track.id in gainIds && !track.isMuted && (soloed.None? || soloed.value == track.id)
  }

  /** The commands of every audible track, in track order. */
  function PlaybackSources(tracks: seq<Track>, numSlots: nat, gainIds: set<string>, soloed: Option<string>,
                           cached: set<string>, now: real, looped: real): seq<Source>
  {
    if tracks == [] then []
    else
      var rest := PlaybackSources(tracks[1..], numSlots, gainIds, soloed, cached, now, looped);
      if Audible(tracks[0], gainIds, soloed) then TrackSources(tracks[0], numSlots, cached, now, looped) + rest
      else rest
  }

  lemma {:induction false} PlaybackSourcesAppend(a: seq<Track>, b: seq<Track>, numSlots: nat, gainIds: set<string>,
                                                 soloed: Option<string>, cached: set<string>, now: real, looped: real)
    ensures PlaybackSources(a + b, numSlots, gainIds, soloed, cached, now, looped) ==
            PlaybackSources(a, numSlots, gainIds, soloed, cached, now, looped) +
            PlaybackSources(b, numSlots, gainIds, soloed, cached, now, looped)
  {
    if a != [] {
      assert (a + b)[0] == a[0] && (a + b)[1..] == a[1..] + b;
      PlaybackSourcesAppend(a[1..], b, numSlots, gainIds, soloed, cached, now, looped);
    } else {
      assert a + b == b;
    }
  }

  /** Every scheduled command comes from an audible track and carries that track's id. */
  lemma {:induction false} PlaybackSourcesAudible(tracks: seq<Track>, numSlots: nat, gainIds: set<string>, soloed: Option<string>,
                                                  cached: set<string>, now: real, looped: real, src: Source)
    requires src in PlaybackSources(tracks, numSlots, gainIds, soloed, cached, now, looped)
    ensures exists k :: (0 <= k < |tracks| && Audible(tracks[k], gainIds, soloed) && src.trackId == tracks[k].id &&
      src in TrackSources(tracks[k], numSlots, cached, now, looped))
  {
    var rest := PlaybackSources(tracks[1..], numSlots, gainIds, soloed, cached, now, looped);
    if src in rest {
      PlaybackSourcesAudible(tracks[1..], numSlots, gainIds, soloed, cached, now, looped, src);
      var k :| 0 <= k < |tracks[1..]| && Audible(tracks[1..][k], gainIds, soloed) && src.trackId == tracks[1..][k].id &&
        src in TrackSources(tracks[1..][k], numSlots, cached, now, looped);
      assert tracks[k + 1] == tracks[1..][k];
    } else {
      TrackSourcesCorrect(tracks[0], numSlots, cached, now, looped, src);
    }
  }

  /** With a track soloed, only that track's samples sound, whatever the mute flags of the others. */
  lemma SoloedTrackOnly(tracks: seq<Track>, numSlots: nat, gainIds: set<string>, id: string,
                        cached: set<string>, now: real, looped: real, src: Source)
    requires src in PlaybackSources(tracks, numSlots, gainIds, Some(id), cached, now, looped)
    ensures src.trackId == id
  {
    PlaybackSourcesAudible(tracks, numSlots, gainIds, Some(id), cached, now, looped, src);
  }

  /** The track loop of `schedulePlayback`. */
  method ScheduleTracks(snap: Snapshot, gainIds: set<string>, cached: set<string>, now: real, elapsed: real)
    returns (sources: seq<Source>)
    ensures sources == PlaybackSources(snap.tracks, snap.numSlots, gainIds, snap.soloedTrackId, cached, now,
                                       Looped(elapsed, snap.totalDuration))
  {
    sources := [];
    ghost var looped := Looped(elapsed, snap.totalDuration);
    var k := 0;
    while k < |snap.tracks|
      invariant 0 <= k <= |snap.tracks|
      invariant sources == PlaybackSources(snap.tracks[..k], snap.numSlots, gainIds, snap.soloedTrackId, cached, now, looped)
    {
      var track := snap.tracks[k];
      PlaybackSourcesAppend(snap.tracks[..k], [track], snap.numSlots, gainIds, snap.soloedTrackId, cached, now, looped);
      assert snap.tracks[..k + 1] == snap.tracks[..k] + [track];
      if track.id in gainIds {
        var anotherTrackIsSoloed := snap.soloedTrackId.Some? && snap.soloedTrackId.value != track.id;
        if !(track.isMuted || anotherTrackIsSoloed) {
          var trackSources := ScheduleTrack(track, now, elapsed, snap.numSlots, snap.totalDuration, cached);
          sources := sources + trackSources;
        }
      }
      k := k + 1;
    }
    assert snap.tracks[..k] == snap.tracks;
  }
}
