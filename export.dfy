/**
 * The arithmetic of `handleExport`: the file name the user typed is
 * normalised to a `.wav` name, the offline render is sized to
 * `ceil(sampleRate * totalDuration)` frames, every decoded sample of every
 * track is placed at its timeline position with the track's volume, and the
 * rendered buffer is encoded by `bufferToWav`. Rendering itself is host work.
 */
module Export {
  import opened Common
  import opened JsMath
  import opened Types
  import opened Grid
  import Schedule
  import Wav

  const DefaultFileName: string := "napbak-beat.wav"
  const Extension: string := ".wav"

  /** The offline context renders in stereo. */
  const ExportChannels: nat := 2

  /** `toLowerCase` on one character (ASCII letters only). */
  function LowerChar(c: char): (r: char)
    ensures 'A' <= c <= 'Z' ==> r as int == c as int + 32
    ensures !('A' <= c <= 'Z') ==> r == c
  {
    if 'A' <= c <= 'Z' then (c as int + 32) as char else c
  }

  function Lower(s: string): (r: string)
    ensures |r| == |s|
  {
    if s == [] then [] else [LowerChar(s[0])] + Lower(s[1..])
  }

  lemma {:induction false} LowerAt(s: string, i: nat)
    requires i < |s|
    ensures Lower(s)[i] == LowerChar(s[i])
  {
    if i > 0 {
      LowerAt(s[1..], i - 1);
    }
  }

  /** `name.toLowerCase().endsWith('.wav')`. */
  predicate EndsWithWav(name: string)
  {
    |name| >= 4 && Lower(name)[|name| - 4..] == Extension
  }

  /**
   * `fileName || "napbak-beat.wav"`, with `.wav` appended unless the name
   * already ends in it, in any letter case.
   */
  function ExportFileName(fileName: string): (r: string)
    ensures EndsWithWav(r)
    ensures fileName == [] ==> r == DefaultFileName
    ensures fileName != [] && EndsWithWav(fileName) ==> r == fileName
    ensures fileName != [] && !EndsWithWav(fileName) ==> r == fileName + Extension
  {
    var name := if fileName == [] then DefaultFileName else fileName;
    DefaultEndsWithWav();
    if EndsWithWav(name) then name
    else
      AppendExtension(name);
      name + Extension
  }

  lemma DefaultEndsWithWav()
    ensures EndsWithWav(DefaultFileName)
  {
    assert DefaultFileName == "napbak-beat" + Extension;
    AppendExtension("napbak-beat");
  }

  lemma AppendExtension(name: string)
    ensures EndsWithWav(name + Extension)
  {
    var s := name + Extension;
    var low := Lower(s);
    assert low[|s| - 4..] == Extension by {
      forall i | 0 <= i < 4
        ensures low[|s| - 4 + i] == Extension[i]
      {
        assert s[|name| + i] == Extension[i];
        LowerAt(s, |s| - 4 + i);
      }
    }
  }

  /** Normalising a name that was already normalised changes nothing. */
  lemma ExportFileNameIdempotent(fileName: string)
    ensures ExportFileName(ExportFileName(fileName)) == ExportFileName(fileName)
  {
    var r := ExportFileName(fileName);
    assert |r| >= 4;
  }

  /** `Math.ceil(sampleRate * totalDuration)`: enough frames to hold the whole loop. */
  function FrameCount(sampleRate: nat, totalDuration: real): (frames: int)
    ensures sampleRate as real * totalDuration <= frames as real < sampleRate as real * totalDuration + 1.0
    ensures sampleRate > 0 && totalDuration > 0.0 ==> frames >= 1
  {
    if sampleRate > 0 && totalDuration > 0.0 then
      MulLeftStrict(sampleRate as real, 0.0, totalDuration);
      Ceil(sampleRate as real * totalDuration)
    else
      Ceil(sampleRate as real * totalDuration)
  }

  /**
   * A `source.start(scheduledTime, 0, samplePlayDuration)` on the offline
   * context, for the buffer of `url`, through a gain node set to `gain`.
   */
  datatype Placement = Placement(url: string, trackId: string, at: real, length: real, gain: real)

  /** The placement of sample `s` at slot `h` of `track`. */
  function PlacementOf(track: Track, s: Sample, h: nat): Placement
  {
    Placement(s.url, track.id, Schedule.SampleStart(s, h), Schedule.SampleLength(s), track.volume)
  }

  /** What the export walk places for visited slot `h`: nothing when the buffer did not load. */
  function PlaceAt(track: Track, h: nat, loaded: set<string>): seq<Placement>
  {
    match SlotAt(track.slots, h)
    case Some(s) => if s.url in loaded then [PlacementOf(track, s, h)] else []
    case None => []
  }

  function Place(track: Track, heads: seq<nat>, loaded: set<string>): seq<Placement>
  {
    if heads == [] then [] else PlaceAt(track, heads[0], loaded) + Place(track, heads[1..], loaded)
  }

  lemma {:induction false} PlaceAppend(track: Track, a: seq<nat>, b: seq<nat>, loaded: set<string>)
    ensures Place(track, a + b, loaded) == Place(track, a, loaded) + Place(track, b, loaded)
  {
    if a != [] {
      assert (a + b)[0] == a[0] && (a + b)[1..] == a[1..] + b;
      PlaceAppend(track, a[1..], b, loaded);
    } else {
      assert a + b == b;
    }
  }

  /** The placements of one track: its visited slots whose buffers loaded, in slot order. */
  function TrackPlacements(track: Track, numSlots: nat, loaded: set<string>): seq<Placement>
  {
    Place(track, Heads(track.slots, numSlots, 0), loaded)
  }

  /** The placements of every track, in track order. */
  function Placements(tracks: seq<Track>, numSlots: nat, loaded: set<string>): seq<Placement>
  {
    if tracks == [] then []
    else TrackPlacements(tracks[0], numSlots, loaded) + Placements(tracks[1..], numSlots, loaded)
  }

  lemma {:induction false} PlacementsAppend(a: seq<Track>, b: seq<Track>, numSlots: nat, loaded: set<string>)
    ensures Placements(a + b, numSlots, loaded) == Placements(a, numSlots, loaded) + Placements(b, numSlots, loaded)
  {
    if a != [] {
      assert (a + b)[0] == a[0] && (a + b)[1..] == a[1..] + b;
      PlacementsAppend(a[1..], b, numSlots, loaded);
    } else {
      assert a + b == b;
    }
  }

  lemma {:induction false} PlaceMembers(track: Track, heads: seq<nat>, loaded: set<string>, p: Placement)
    ensures p in Place(track, heads, loaded) <==>
      exists h :: h in heads && Occupied(track.slots, h) && SlotAt(track.slots, h).value.url in loaded &&
        p == PlacementOf(track, SlotAt(track.slots, h).value, h)
  {
    if heads != [] {
      PlaceMembers(track, heads[1..], loaded, p);
      assert forall h :: h in heads <==> h == heads[0] || h in heads[1..];
    }
  }

  /**
   * Every placement comes from a visited slot of some track whose buffer
   * loaded, at `(i + offset) * measure` for `(duration || 1) * measure`
   * seconds with that track's volume, and every such slot is placed:
   * mute and solo play no part.
   */
  lemma {:induction false} PlacementsMembers(tracks: seq<Track>, numSlots: nat, loaded: set<string>, p: Placement)
    ensures p in Placements(tracks, numSlots, loaded) <==>
      exists k, h :: 0 <= k < |tracks| && h in Heads(tracks[k].slots, numSlots, 0) && Occupied(tracks[k].slots, h) &&
        SlotAt(tracks[k].slots, h).value.url in loaded && p == PlacementOf(tracks[k], SlotAt(tracks[k].slots, h).value, h)
  {
    if tracks != [] {
      var t := tracks[0];
      PlaceMembers(t, Heads(t.slots, numSlots, 0), loaded, p);
      PlacementsMembers(tracks[1..], numSlots, loaded, p);
      if p in Placements(tracks[1..], numSlots, loaded) {
        var k, h :| 0 <= k < |tracks[1..]| && h in Heads(tracks[1..][k].slots, numSlots, 0) &&
          Occupied(tracks[1..][k].slots, h) && SlotAt(tracks[1..][k].slots, h).value.url in loaded &&
          p == PlacementOf(tracks[1..][k], SlotAt(tracks[1..][k].slots, h).value, h);
        assert tracks[k + 1] == tracks[1..][k];
      }
      if exists k, h :: (0 <= k < |tracks| && h in Heads(tracks[k].slots, numSlots, 0) && Occupied(tracks[k].slots, h) &&
        SlotAt(tracks[k].slots, h).value.url in loaded && p == PlacementOf(tracks[k], SlotAt(tracks[k].slots, h).value, h))
      {
        var k, h :| 0 <= k < |tracks| && h in Heads(tracks[k].slots, numSlots, 0) && Occupied(tracks[k].slots, h) &&
          SlotAt(tracks[k].slots, h).value.url in loaded && p == PlacementOf(tracks[k], SlotAt(tracks[k].slots, h).value, h);
        if k > 0 {
          assert tracks[1..][k - 1] == tracks[k];
        }
      }
    }
  }

  /** Tracks that differ at most in their mute flags. */
  predicate SameButMute(a: seq<Track>, b: seq<Track>)
  {
    |a| == |b| && forall k :: 0 <= k < |a| ==> b[k] == a[k].(isMuted := b[k].isMuted)
  }

  /** Muting or unmuting tracks does not change what is exported. */
  lemma {:induction false} ExportIgnoresMute(a: seq<Track>, b: seq<Track>, numSlots: nat, loaded: set<string>)
    requires SameButMute(a, b)
    ensures Placements(a, numSlots, loaded) == Placements(b, numSlots, loaded)
  {
    if a != [] {
      assert SameButMute(a[1..], b[1..]) by {
        forall k | 0 <= k < |a[1..]|
          ensures b[1..][k] == a[1..][k].(isMuted := b[1..][k].isMuted)
        {
          assert b[1..][k] == b[k + 1] && a[1..][k] == a[k + 1];
        }
      }
      ExportIgnoresMute(a[1..], b[1..], numSlots, loaded);
      PlaceSameButMute(a[0], b[0], Heads(a[0].slots, numSlots, 0), loaded);
    }
  }

  lemma {:induction false} PlaceSameButMute(t: Track, u: Track, heads: seq<nat>, loaded: set<string>)
    requires u == t.(isMuted := u.isMuted)
    ensures Place(t, heads, loaded) == Place(u, heads, loaded)
  {
    if heads != [] {
      PlaceSameButMute(t, u, heads[1..], loaded);
    }
  }

  /**
   * An export placement is the command the playback scheduler issues for the
   * same sample at playhead 0 and clock 0: same start, offset 0, full length.
   */
  lemma PlacementIsScheduledFromTop(track: Track, s: Sample, h: nat)
    requires Schedule.SampleStart(s, h) >= 0.0
    ensures var p := PlacementOf(track, s, h);
      Schedule.Classify(track.id, s, h, 0.0, 0.0) == Some(Schedule.Source(p.url, p.trackId, p.at, 0.0, p.length))
  {
  }

  /** The export walk's work at an occupied slot: a sample whose buffer did not load is skipped. */
  method PlaceSlot(track: Track, i: nat, sample: Sample, loaded: set<string>) returns (here: seq<Placement>)
    requires SlotAt(track.slots, i) == Some(sample)
    ensures here == PlaceAt(track, i, loaded)
  {
    here := [];
    if sample.url in loaded {
      var scheduledTime := (i as real + sample.offset) * MeasureDuration;
      var samplePlayDuration := (if sample.duration == 0 then 1 else sample.duration) as real * MeasureDuration;
      here := [Placement(sample.url, track.id, scheduledTime, samplePlayDuration, track.volume)];
    }
  }

  /** The inner `while` of the export: one track's slot walk. */
  method ExportTrack(track: Track, numSlots: nat, loaded: set<string>) returns (placements: seq<Placement>)
    ensures placements == TrackPlacements(track, numSlots, loaded)
  {
    placements := [];
    var i: nat := 0;
    ghost var visited: seq<nat> := [];
    while i < numSlots
      invariant Heads(track.slots, numSlots, 0) == visited + Heads(track.slots, numSlots, i)
      invariant placements == Place(track, visited, loaded)
      decreases numSlots - i
    {
      HeadsStep(track.slots, numSlots, visited, i);
      var slot := SlotAt(track.slots, i);
      if slot.Some? {
        var sample := slot.value;
        var here := PlaceSlot(track, i, sample, loaded);
        placements := placements + here;
        PlaceAppend(track, visited, [i], loaded);
        visited := visited + [i];
        i := i + Span(sample);
      } else {
        i := i + 1;
      }
    }
    assert visited + Heads(track.slots, numSlots, i) == visited;
  }

  /** The outer `for` of the export: every track in order, muted or soloed or not. */
  method ExportTracks(tracks: seq<Track>, numSlots: nat, loaded: set<string>) returns (placements: seq<Placement>)
    ensures placements == Placements(tracks, numSlots, loaded)
  {
    placements := [];
    var k := 0;
    while k < |tracks|
      invariant 0 <= k <= |tracks|
      invariant placements == Placements(tracks[..k], numSlots, loaded)
    {
      var trackPlacements := ExportTrack(tracks[k], numSlots, loaded);
      PlacementsAppend(tracks[..k], [tracks[k]], numSlots, loaded);
      assert tracks[..k + 1] == tracks[..k] + [tracks[k]];
      placements := placements + trackPlacements;
      k := k + 1;
    }
    assert tracks[..k] == tracks;
  }

  /** The URLs of the samples the export walk visits, over all tracks. */
  function VisitedUrls(tracks: seq<Track>, numSlots: nat): set<string>
  {
    if tracks == [] then {}
    else
      var t := tracks[0];
      (set h | h in Heads(t.slots, numSlots, 0) && Occupied(t.slots, h) :: SlotAt(t.slots, h).value.url)
        + VisitedUrls(tracks[1..], numSlots)
  }

  /**
   * The buffer cache once `loadAudioBuffer` has run for every URL in `urls`:
   * cached entries stay as they are, and a URL not yet cached is added when
   * decoding it yields a buffer (`fetched`).
   */
  function LoadAll(cache: map<string, Wav.AudioBuffer>, urls: set<string>, fetched: map<string, Wav.AudioBuffer>)
    : (r: map<string, Wav.AudioBuffer>)
    ensures forall u :: u in cache ==> u in r && r[u] == cache[u]
    ensures forall u :: u in urls && u in fetched ==> u in r
    ensures forall u :: u in r && u !in cache ==> u in urls && u in fetched && r[u] == fetched[u]
  {
    map u | u in cache.Keys + (urls * fetched.Keys) :: if u in cache then cache[u] else fetched[u]
  }

  /** Why an export produces no file. */
  datatype ExportError = NothingToExport | EmptyFile

  /** What the export hands to the offline renderer. */
  datatype ExportJob = ExportJob(fileName: string, channels: nat, frames: nat, sampleRate: nat, placements: seq<Placement>)

  /** The job for a loop of positive length. */
  function Job(snap: Snapshot, fileName: string, sampleRate: nat, loaded: set<string>): ExportJob
    requires sampleRate > 0 && snap.totalDuration > 0.0
  {
    ExportJob(ExportFileName(fileName), ExportChannels, FrameCount(sampleRate, snap.totalDuration), sampleRate,
              Placements(snap.tracks, snap.numSlots, loaded))
  }

  /**
   * The preparation part of the export callback: refuse a loop of zero
   * length, then name the file, size the render and place every loaded sample.
   * `loaded` is the set of URLs whose buffer `loadAudioBuffer` delivers.
   */
  method PlanExport(snap: Snapshot, fileName: string, sampleRate: nat, loaded: set<string>)
    returns (r: Result<ExportJob, ExportError>)
    requires sampleRate > 0
    ensures snap.totalDuration <= 0.0 ==> r == Err(NothingToExport)
    ensures snap.totalDuration > 0.0 ==>
      && r.Ok?
      && r.value.fileName == ExportFileName(fileName) && EndsWithWav(r.value.fileName)
      && r.value.channels == ExportChannels && r.value.sampleRate == sampleRate
      && r.value.frames == FrameCount(sampleRate, snap.totalDuration) >= 1
      && r.value.placements == Placements(snap.tracks, snap.numSlots, loaded)
    ensures snap.totalDuration > 0.0 ==> r == Ok(Job(snap, fileName, sampleRate, loaded))
  {
    if snap.totalDuration <= 0.0 {
      return Err(NothingToExport);
    }
    var finalFileName := ExportFileName(fileName);
    var frames := Ceil(sampleRate as real * snap.totalDuration);
    assert frames == FrameCount(sampleRate, snap.totalDuration);
    var placements := ExportTracks(snap.tracks, snap.numSlots, loaded);
    r := Ok(ExportJob(finalFileName, ExportChannels, frames, sampleRate, placements));
  }

  /** The cache and the result of the export callback, as `RunExport` computes them. */
  function Outcome(cache: map<string, Wav.AudioBuffer>, snap: Snapshot, fileName: string, sampleRate: nat,
                   fetched: map<string, Wav.AudioBuffer>): (map<string, Wav.AudioBuffer>, Result<ExportJob, ExportError>)
    requires sampleRate > 0
  {
    if snap.totalDuration <= 0.0 then (cache, Err(NothingToExport))
    else
      var loadedCache := LoadAll(cache, VisitedUrls(snap.tracks, snap.numSlots), fetched);
      (loadedCache, Ok(Job(snap, fileName, sampleRate, loadedCache.Keys)))
  }

  /**
   * A zero-length loop is refused with the cache untouched; otherwise the
   * job is a stereo render of at least one frame under a `.wav` name, the
   * cache keeps every entry it had, and exactly the samples whose buffer is
   * now cached are placed.
   */
  lemma OutcomeProperties(cache: map<string, Wav.AudioBuffer>, snap: Snapshot, fileName: string, sampleRate: nat,
                          fetched: map<string, Wav.AudioBuffer>)
    requires sampleRate > 0
    ensures var (newCache, r) := Outcome(cache, snap, fileName, sampleRate, fetched);
      && (snap.totalDuration <= 0.0 ==> newCache == cache && r == Err(NothingToExport))
      && (snap.totalDuration > 0.0 ==>
            && r.Ok? && EndsWithWav(r.value.fileName) && r.value.channels == ExportChannels
            && r.value.frames >= 1 && r.value.frames as real >= sampleRate as real * snap.totalDuration
            && (forall u :: u in cache ==> u in newCache && newCache[u] == cache[u])
            && (forall u :: u in newCache && u !in cache ==> u in fetched && newCache[u] == fetched[u])
            && r.value.placements == Placements(snap.tracks, snap.numSlots, newCache.Keys))
  {
    if snap.totalDuration > 0.0 {
      var loadedCache := LoadAll(cache, VisitedUrls(snap.tracks, snap.numSlots), fetched);
      JobProperties(snap, fileName, sampleRate, loadedCache.Keys);
    }
  }

  /** The job names a `.wav` file and renders the whole loop in stereo, with at least one frame. */
  lemma JobProperties(snap: Snapshot, fileName: string, sampleRate: nat, loaded: set<string>)
    requires sampleRate > 0 && snap.totalDuration > 0.0
    ensures var job := Job(snap, fileName, sampleRate, loaded);
      && EndsWithWav(job.fileName) && job.channels == ExportChannels
      && job.frames >= 1 && job.frames as real >= sampleRate as real * snap.totalDuration
      && job.placements == Placements(snap.tracks, snap.numSlots, loaded)
  {
    var frames := FrameCount(sampleRate, snap.totalDuration);
    assert frames >= 1 && frames as real >= sampleRate as real * snap.totalDuration;
  }

  /**
   * The export callback up to the offline render: a loop of zero length is
   * refused before anything loads; otherwise the buffer of every visited
   * sample is loaded through the cache (`fetched` holds what decoding yields
   * for a URL not yet cached), and the job places exactly the samples whose
   * buffer is then cached.
   */
  method RunExport(cache: map<string, Wav.AudioBuffer>, snap: Snapshot, fileName: string, sampleRate: nat,
                   fetched: map<string, Wav.AudioBuffer>)
    returns (newCache: map<string, Wav.AudioBuffer>, r: Result<ExportJob, ExportError>)
    requires sampleRate > 0
    ensures (newCache, r) == Outcome(cache, snap, fileName, sampleRate, fetched)
  {
    if snap.totalDuration <= 0.0 {
      return cache, Err(NothingToExport);
    }
    newCache := LoadAll(cache, VisitedUrls(snap.tracks, snap.numSlots), fetched);
    r := PlanExport(snap, fileName, sampleRate, newCache.Keys);
  }

  /**
   * The encoding part of the export callback: the rendered buffer becomes a
   * WAVE file, refused when it holds nothing beyond the 44-byte header.
   */
  method EncodeExport(rendered: Wav.AudioBuffer) returns (r: Result<seq<Wav.Byte>, ExportError>)
    requires Wav.WellFormed(rendered)
    ensures r.Ok? <==> rendered.length * |rendered.channels| > 0
    ensures r.Ok? ==> r.value == Wav.WavBytes(rendered) && |r.value| > 44
    ensures rendered.length >= 1 && |rendered.channels| == ExportChannels ==> r.Ok?
  {
    var wav := Wav.BufferToWav(rendered);
    Wav.WavBytesLength(rendered);
    if wav.Length <= 44 {
      return Err(EmptyFile);
    }
    r := Ok(wav[..]);
  }
}
