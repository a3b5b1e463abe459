/**
 * The audio engine store: the transport (`playbackStartTime`,
 * `playbackTime`, start / progress / stop / seek), the per-track gain table
 * kept in step with the track store, the decoded-buffer cache, the
 * single-voice sample preview with its loading lock, and the export entry
 * points. The audio clock is the parameter `now`; host nodes are records
 * whose `serial` stands for the node's identity.
 */
module AudioEngine {
  import opened Common
  import opened Types
  import Schedule
  import Export
  import Wav
  import UIStore

  /** A gain node: its identity and the gain it was set to. */
  datatype GainNode = GainNode(serial: nat, gain: real)

  /** A preview player for `url`. */
  datatype Player = Player(serial: nat, url: string)

  /** The handler `handleExport` hands to the file-name modal. */
  const ExportHandler: UIStore.SubmitHandler := UIStore.SubmitHandler(0)

  /** The ids of the tracks (`new Set(state.tracks.map(t => t.id))`). */
  function TrackIds(tracks: seq<Track>): set<string>
  {
    set k | 0 <= k < |tracks| :: tracks[k].id
  }

  /** The volume of the first track with id `id` (0 when none has it). */
  function FirstVolume(tracks: seq<Track>, id: string): real
  {
    if tracks == [] then 0.0
    else if tracks[0].id == id then tracks[0].volume
    else FirstVolume(tracks[1..], id)
  }

  /** The volume of the last track with id `id` (0 when none has it). */
  function LastVolume(tracks: seq<Track>, id: string): real
  {
    if tracks == [] then 0.0
    else if tracks[|tracks| - 1].id == id then tracks[|tracks| - 1].volume
    else LastVolume(tracks[..|tracks| - 1], id)
  }

  lemma TrackIdsSnoc(tracks: seq<Track>, k: nat)
    requires k < |tracks|
    ensures TrackIds(tracks[..k + 1]) == TrackIds(tracks[..k]) + {tracks[k].id}
  {
    var a, b := tracks[..k + 1], tracks[..k];
    forall id | id in TrackIds(a)
      ensures id in TrackIds(b) + {tracks[k].id}
    {
      var j :| 0 <= j < |a| && a[j].id == id;
      if j < k {
        assert b[j] == a[j];
      }
    }
    forall id | id in TrackIds(b)
      ensures id in TrackIds(a)
    {
      var j :| 0 <= j < |b| && b[j].id == id;
      assert a[j] == b[j];
    }
    assert a[k] == tracks[k];
  }

  /** Once a prefix holds `id`, the first volume of the prefix is the first volume of the whole. */
  lemma {:induction false} FirstVolumePrefix(tracks: seq<Track>, k: nat, id: string)
    requires k <= |tracks| && id in TrackIds(tracks[..k])
    ensures FirstVolume(tracks[..k], id) == FirstVolume(tracks, id)
  {
    var j :| 0 <= j < k && tracks[..k][j].id == id;
    if tracks[0].id != id {
      assert j > 0;
      assert tracks[1..][..k - 1] == tracks[..k][1..];
      assert tracks[1..][..k - 1][j - 1].id == id;
      FirstVolumePrefix(tracks[1..], k - 1, id);
    }
  }

  /** A track whose id no earlier track has sets the first volume for that id. */
  lemma {:induction false} FirstVolumeAt(tracks: seq<Track>, k: nat)
    requires k < |tracks| && tracks[k].id !in TrackIds(tracks[..k])
    ensures FirstVolume(tracks, tracks[k].id) == tracks[k].volume
  {
    if k > 0 {
      assert tracks[..k][0] == tracks[0];
      assert tracks[1..][..k - 1] == tracks[..k][1..];
      forall id | id in TrackIds(tracks[1..][..k - 1])
        ensures id in TrackIds(tracks[..k])
      {
        var j :| 0 <= j < k - 1 && tracks[1..][..k - 1][j].id == id;
        assert tracks[..k][j + 1] == tracks[1..][..k - 1][j];
      }
      FirstVolumeAt(tracks[1..], k - 1);
    }
  }

  /**
   * The loop of `initializeTrackGainNodes`: a new node per track, initialised
   * to the track's volume; a repeated id keeps the last track's node.
   */
  method FreshNodes(tracks: seq<Track>, serial: nat) returns (nodes: map<string, GainNode>, next: nat)
    ensures nodes.Keys == TrackIds(tracks)
    ensures forall id :: id in nodes ==> nodes[id].gain == LastVolume(tracks, id)
    ensures next == serial + |tracks|
    ensures forall id :: id in nodes ==> serial <= nodes[id].serial < next
  {
    nodes := map[];
    next := serial;
    var k := 0;
    while k < |tracks|
      invariant 0 <= k <= |tracks| && next == serial + k
      invariant nodes.Keys == TrackIds(tracks[..k])
      invariant forall id :: id in nodes ==> nodes[id].gain == LastVolume(tracks[..k], id)
      invariant forall id :: id in nodes ==> serial <= nodes[id].serial < next
    {
      TrackIdsSnoc(tracks, k);
      assert tracks[..k + 1][..k] == tracks[..k];
      nodes := nodes[tracks[k].id := GainNode(next, tracks[k].volume)];
      next := next + 1;
      k := k + 1;
    }
    assert tracks[..k] == tracks;
  }

  /**
   * The first loop of the track-store subscription: a node for every track id
   * that has none yet, initialised to the volume of the first track with it.
   */
  method AddMissingNodes(nodes: map<string, GainNode>, tracks: seq<Track>, serial: nat)
    returns (result: map<string, GainNode>, next: nat, changed: bool)
    ensures result.Keys == nodes.Keys + TrackIds(tracks)
    ensures forall id :: id in nodes ==> result[id] == nodes[id]
    ensures forall id :: id in result && id !in nodes ==>
      result[id].gain == FirstVolume(tracks, id) && serial <= result[id].serial < next
    ensures next >= serial
    ensures changed <==> !(TrackIds(tracks) <= nodes.Keys)
  {
    result := nodes;
    next := serial;
    changed := false;
    var k := 0;
    while k < |tracks|
      invariant 0 <= k <= |tracks| && next >= serial
      invariant result.Keys == nodes.Keys + TrackIds(tracks[..k])
      invariant forall id :: id in nodes ==> result[id] == nodes[id]
      invariant forall id :: id in result && id !in nodes ==>
        id in TrackIds(tracks[..k]) && result[id].gain == FirstVolume(tracks, id) && serial <= result[id].serial < next
      invariant changed <==> !(TrackIds(tracks[..k]) <= nodes.Keys)
    {
      TrackIdsSnoc(tracks, k);
      var track := tracks[k];
      if track.id !in result {
        FirstVolumeAt(tracks, k);
        result := result[track.id := GainNode(next, track.volume)];
        next := next + 1;
        changed := true;
      }
      k := k + 1;
    }
    assert tracks[..k] == tracks;
  }

  /** The second loop of the subscription: every node whose id is not a current track id is deleted. */
  method RemoveStaleNodes(nodes: map<string, GainNode>, ids: set<string>)
    returns (result: map<string, GainNode>, changed: bool)
    ensures result.Keys == nodes.Keys * ids
    ensures forall id :: id in result ==> result[id] == nodes[id]
    ensures changed <==> !(nodes.Keys <= ids)
  {
    result := nodes;
    changed := false;
    var pending := nodes.Keys;
    while pending != {}
      invariant pending <= nodes.Keys
      invariant result.Keys == (nodes.Keys * ids) + pending
      invariant forall id :: id in result ==> result[id] == nodes[id]
      invariant changed <==> exists id :: id in nodes.Keys - pending && id !in ids
      decreases |pending|
    {
      var trackId :| trackId in pending;
      if trackId !in ids {
        result := result - {trackId};
        changed := true;
      }
      pending := pending - {trackId};
    }
  }

  /**
   * The gain-table diff of the track-store subscription: add the missing ids,
   * delete the stale ones, and keep the old table when neither happened.
   */
  method SyncGainNodes(nodes: map<string, GainNode>, tracks: seq<Track>, serial: nat)
    returns (result: map<string, GainNode>, next: nat)
    ensures result.Keys == TrackIds(tracks)
    ensures forall id :: id in result && id in nodes ==> result[id] == nodes[id]
    ensures forall id :: id in result && id !in nodes ==>
      result[id].gain == FirstVolume(tracks, id) && serial <= result[id].serial < next
    ensures next >= serial
    ensures TrackIds(tracks) == nodes.Keys ==> result == nodes
  {
    var currentTrackIds := TrackIds(tracks);
    var added, addedAny;
    added, next, addedAny := AddMissingNodes(nodes, tracks, serial);
    var newGainNodes, removedAny := RemoveStaleNodes(added, currentTrackIds);
    if addedAny || removedAny {
      result := newGainNodes;
    } else {
      result := nodes;
      assert newGainNodes == nodes;
    }
  }

  class Engine {
    var isInitialized: bool
    var isPlaying: bool
    var playbackTime: real
    var isExporting: bool
    var previewSource: Option<Player>
    var previewUrl: Option<string>
    /** The preview lock: the URL whose buffer is being loaded for a preview. */
    var loadingPreviewUrl: Option<string>
    var trackGainNodes: map<string, GainNode>
    /** Module state: the decoded-buffer cache. */
    var audioBuffers: map<string, Wav.AudioBuffer>
    /** Module state: the sources of the current loop iteration. */
    var playingSources: seq<Schedule.Source>
    /** Module state: the audio-clock time the loop position 0 corresponds to. */
    var playbackStartTime: real
    /** Host node allocation: the serial the next created node or player gets. */
    var nodesCreated: nat

    /**
     * The class invariant: the preview fields agree (a player exactly when a
     * preview URL, for that URL) and every node and player was allocated
     * before `nodesCreated`, so a newly created one differs from all of them.
     */
    ghost predicate Valid()
      reads this
    {
      && (previewSource.Some? <==> previewUrl.Some?)
      && (previewSource.Some? ==> previewSource.value.url == previewUrl.value)
      && (previewSource.Some? ==> previewSource.value.serial < nodesCreated)
      && (forall id :: id in trackGainNodes ==> trackGainNodes[id].serial < nodesCreated)
    }

    /** The initial store and module state. */
    constructor ()
      ensures Valid()
      ensures !isInitialized && !isPlaying && playbackTime == 0.0 && !isExporting
      ensures previewSource == None && previewUrl == None && loadingPreviewUrl == None
      ensures trackGainNodes == map[] && audioBuffers == map[] && playingSources == [] && playbackStartTime == 0.0
      ensures nodesCreated == 0
    {
      isInitialized := false;
      isPlaying := false;
      playbackTime := 0.0;
      isExporting := false;
      previewSource := None;
      previewUrl := None;
      loadingPreviewUrl := None;
      trackGainNodes := map[];
      audioBuffers := map[];
      playingSources := [];
      playbackStartTime := 0.0;
      nodesCreated := 0;
    }

    /**
     * `schedulePlayback`: replaces the playing sources by the commands for
     * every audible track at the current loop position.
     */
    method SchedulePlayback(snap: Snapshot, now: real)
      modifies this
      ensures playingSources == Schedule.PlaybackSources(snap.tracks, snap.numSlots, trackGainNodes.Keys, snap.soloedTrackId,
                                                         audioBuffers.Keys, now,
                                                         Schedule.Looped(now - playbackStartTime, snap.totalDuration))
      ensures isInitialized == old(isInitialized) && isPlaying == old(isPlaying) && playbackTime == old(playbackTime)
      ensures isExporting == old(isExporting) && previewSource == old(previewSource) && previewUrl == old(previewUrl)
      ensures loadingPreviewUrl == old(loadingPreviewUrl) && trackGainNodes == old(trackGainNodes)
      ensures audioBuffers == old(audioBuffers) && playbackStartTime == old(playbackStartTime)
      ensures nodesCreated == old(nodesCreated)
    {
      var elapsedTime := now - playbackStartTime;
      playingSources := Schedule.ScheduleTracks(snap, trackGainNodes.Keys, audioBuffers.Keys, now, elapsedTime);
    }

    /** `init`: once only, build the gain table and start following the track store. */
    method Init(snap: Snapshot)
      modifies this
      ensures old(isInitialized) ==> trackGainNodes == old(trackGainNodes) && nodesCreated == old(nodesCreated)
      ensures !old(isInitialized) ==> trackGainNodes.Keys == TrackIds(snap.tracks)
      ensures !old(isInitialized) ==> forall id :: id in trackGainNodes ==>
        trackGainNodes[id].gain == LastVolume(snap.tracks, id) && old(nodesCreated) <= trackGainNodes[id].serial
      ensures !old(isInitialized) ==> nodesCreated == old(nodesCreated) + |snap.tracks|
      ensures isInitialized
      ensures isPlaying == old(isPlaying) && playbackTime == old(playbackTime) && playingSources == old(playingSources)
      ensures audioBuffers == old(audioBuffers) && previewSource == old(previewSource) && previewUrl == old(previewUrl)
      ensures playbackStartTime == old(playbackStartTime) && isExporting == old(isExporting)
      ensures loadingPreviewUrl == old(loadingPreviewUrl)
      requires Valid()
      ensures Valid()
    {
      if isInitialized {
        return;
      }
      InitializeTrackGainNodes(snap);
      isInitialized := true;
    }

    /**
     * `initializeTrackGainNodes`: a fresh table with one new node per track id,
     * at that track's volume (the last track, for a repeated id).
     */
    method InitializeTrackGainNodes(snap: Snapshot)
      modifies this
      ensures trackGainNodes.Keys == TrackIds(snap.tracks)
      ensures forall id :: id in trackGainNodes ==>
        trackGainNodes[id].gain == LastVolume(snap.tracks, id) && old(nodesCreated) <= trackGainNodes[id].serial
      ensures nodesCreated == old(nodesCreated) + |snap.tracks|
      ensures isInitialized == old(isInitialized) && isPlaying == old(isPlaying) && playbackTime == old(playbackTime)
      ensures playingSources == old(playingSources) && playbackStartTime == old(playbackStartTime)
      ensures audioBuffers == old(audioBuffers) && previewSource == old(previewSource) && previewUrl == old(previewUrl)
      ensures loadingPreviewUrl == old(loadingPreviewUrl) && isExporting == old(isExporting)
      requires Valid()
      ensures Valid()
    {
      var nodes, next := FreshNodes(snap.tracks, nodesCreated);
      trackGainNodes := nodes;
      nodesCreated := next;
    }

    /**
     * The track-store subscription, for a change from a state whose project
     * key was `prevProjectKey`; `tracksReplaced` says whether the tracks array
     * is a different object. Afterwards the table holds exactly the current
     * track ids, surviving nodes are untouched, new nodes start at the first
     * matching track's volume, and the loop is rescheduled exactly when
     * playing and the tracks or the key changed.
     */
    method OnTrackStoreChange(snap: Snapshot, tracksReplaced: bool, prevProjectKey: Option<string>, now: real)
      modifies this
      ensures trackGainNodes.Keys == TrackIds(snap.tracks)
      ensures forall id :: id in trackGainNodes && id in old(trackGainNodes) ==> trackGainNodes[id] == old(trackGainNodes)[id]
      ensures forall id :: id in trackGainNodes && id !in old(trackGainNodes) ==>
        trackGainNodes[id].gain == FirstVolume(snap.tracks, id) && old(nodesCreated) <= trackGainNodes[id].serial
      ensures TrackIds(snap.tracks) == old(trackGainNodes).Keys ==> trackGainNodes == old(trackGainNodes)
      ensures nodesCreated >= old(nodesCreated)
      ensures isPlaying && (tracksReplaced || snap.projectKey != prevProjectKey) ==>
        playingSources == Schedule.PlaybackSources(snap.tracks, snap.numSlots, trackGainNodes.Keys, snap.soloedTrackId,
                                                   audioBuffers.Keys, now,
                                                   Schedule.Looped(now - playbackStartTime, snap.totalDuration))
      ensures !(isPlaying && (tracksReplaced || snap.projectKey != prevProjectKey)) ==> playingSources == old(playingSources)
      ensures isPlaying == old(isPlaying) && playbackTime == old(playbackTime) && playbackStartTime == old(playbackStartTime)
      ensures audioBuffers == old(audioBuffers) && previewSource == old(previewSource) && previewUrl == old(previewUrl)
      ensures loadingPreviewUrl == old(loadingPreviewUrl) && isInitialized == old(isInitialized)
      ensures isExporting == old(isExporting)
      requires Valid()
      ensures Valid()
    {
      var nodes, next := SyncGainNodes(trackGainNodes, snap.tracks, nodesCreated);
      trackGainNodes, nodesCreated := nodes, next;
      if isPlaying && (tracksReplaced || snap.projectKey != prevProjectKey) {
        SchedulePlayback(snap, now);
      }
    }

    /**
     * `setTrackVolume`: the track's node is steered to `volume` (the short
     * exponential ramp is taken as reaching its target); an unknown id
     * changes nothing.
     */
    method SetTrackVolume(trackId: string, volume: real)
      modifies this
      ensures trackId in old(trackGainNodes) ==>
        trackGainNodes == old(trackGainNodes)[trackId := GainNode(old(trackGainNodes)[trackId].serial, volume)]
      ensures trackId !in old(trackGainNodes) ==> trackGainNodes == old(trackGainNodes)
      ensures isPlaying == old(isPlaying) && playbackTime == old(playbackTime) && playingSources == old(playingSources)
      ensures playbackStartTime == old(playbackStartTime) && audioBuffers == old(audioBuffers)
      ensures previewSource == old(previewSource) && previewUrl == old(previewUrl)
      ensures loadingPreviewUrl == old(loadingPreviewUrl) && nodesCreated == old(nodesCreated)
      ensures isInitialized == old(isInitialized) && isExporting == old(isExporting)
      requires Valid()
      ensures Valid()
    {
      if trackId in trackGainNodes {
        var node := trackGainNodes[trackId];
        trackGainNodes := trackGainNodes[trackId := GainNode(node.serial, volume)];
      }
    }

    /**
     * `loadAudioBuffer`: a cached buffer is returned as is; otherwise the
     * decoded buffer `fetched` (`None` when fetching or decoding fails) is
     * cached and returned. Cached entries never change.
     */
    method LoadAudioBuffer(url: string, fetched: Option<Wav.AudioBuffer>) returns (r: Option<Wav.AudioBuffer>)
      modifies this
      ensures url in old(audioBuffers) ==> r == Some(old(audioBuffers)[url]) && audioBuffers == old(audioBuffers)
      ensures url !in old(audioBuffers) && fetched.Some? ==> r == fetched && audioBuffers == old(audioBuffers)[url := fetched.value]
      ensures url !in old(audioBuffers) && fetched.None? ==> r == None && audioBuffers == old(audioBuffers)
      ensures r.Some? <==> url in audioBuffers
      ensures isPlaying == old(isPlaying) && playbackTime == old(playbackTime) && playingSources == old(playingSources)
      ensures playbackStartTime == old(playbackStartTime) && trackGainNodes == old(trackGainNodes)
      ensures previewSource == old(previewSource) && previewUrl == old(previewUrl)
      ensures loadingPreviewUrl == old(loadingPreviewUrl) && nodesCreated == old(nodesCreated)
      ensures isInitialized == old(isInitialized) && isExporting == old(isExporting)
      requires Valid()
      ensures Valid()
    {
      if url in audioBuffers {
        return Some(audioBuffers[url]);
      }
      if fetched.Some? {
        audioBuffers := audioBuffers[url := fetched.value];
        return fetched;
      }
      return None;
    }

    /**
     * `previewSample` up to its first wait for the buffer: while another
     * preview is loading nothing happens; otherwise the current preview is
     * stopped, a second request for the URL already previewing toggles the
     * preview off, and any other URL takes the lock. `proceed` says whether
     * the preview goes on to load.
     */
    method PreviewBegin(url: string) returns (proceed: bool)
      modifies this
      ensures old(loadingPreviewUrl).Some? ==> !proceed && previewSource == old(previewSource) && previewUrl == old(previewUrl)
      ensures old(loadingPreviewUrl).Some? ==> loadingPreviewUrl == old(loadingPreviewUrl)
      ensures old(loadingPreviewUrl).None? && old(previewUrl) == Some(url) ==>
        !proceed && previewSource == None && previewUrl == None && loadingPreviewUrl == None
      ensures old(loadingPreviewUrl).None? && old(previewUrl) != Some(url) ==>
        proceed && loadingPreviewUrl == Some(url) && previewSource == old(previewSource) && previewUrl == old(previewUrl)
      ensures isPlaying == old(isPlaying) && playbackTime == old(playbackTime) && playingSources == old(playingSources)
      ensures playbackStartTime == old(playbackStartTime) && trackGainNodes == old(trackGainNodes)
      ensures audioBuffers == old(audioBuffers) && nodesCreated == old(nodesCreated)
      ensures isInitialized == old(isInitialized) && isExporting == old(isExporting)
      requires Valid()
      ensures Valid()
    {
      if loadingPreviewUrl.Some? {
        return false;
      }
      if previewUrl == Some(url) {
        previewSource := None;
        previewUrl := None;
        return false;
      }
      loadingPreviewUrl := Some(url);
      proceed := true;
    }

    /**
     * The rest of `previewSample`, once the buffer is loaded through the
     * cache: a new player for `url` when the buffer is there, no preview
     * otherwise; the lock is released either way. The new player is never
     * the one it replaces (stopped, but still current, since `PreviewBegin`),
     * so that player's late `onstop` leaves the new preview in place.
     */
    method PreviewFinish(url: string, fetched: Option<Wav.AudioBuffer>)
      modifies this
      ensures url in old(audioBuffers) || fetched.Some? ==>
        previewSource == Some(Player(old(nodesCreated), url)) && previewUrl == Some(url)
      ensures !(url in old(audioBuffers) || fetched.Some?) ==> previewSource == None && previewUrl == None
      ensures loadingPreviewUrl == None
      ensures audioBuffers == if url in old(audioBuffers) || fetched.None? then old(audioBuffers)
                              else old(audioBuffers)[url := fetched.value]
      ensures nodesCreated == if url in old(audioBuffers) || fetched.Some? then old(nodesCreated) + 1 else old(nodesCreated)
      ensures old(previewSource).Some? && previewSource.Some? ==> previewSource != old(previewSource)
      ensures isPlaying == old(isPlaying) && playbackTime == old(playbackTime) && playingSources == old(playingSources)
      ensures playbackStartTime == old(playbackStartTime) && trackGainNodes == old(trackGainNodes)
      ensures isInitialized == old(isInitialized) && isExporting == old(isExporting)
      requires Valid()
      ensures Valid()
    {
      var audioBuffer := LoadAudioBuffer(url, fetched);
      if audioBuffer.Some? {
        var player := Player(nodesCreated, url);
        nodesCreated := nodesCreated + 1;
        previewSource := Some(player);
        previewUrl := Some(url);
      } else {
        previewSource := None;
        previewUrl := None;
      }
      loadingPreviewUrl := None;
    }

    /** The player's `onstop`: clears the preview only if that player is still the current one. */
    method PreviewStopped(player: Player)
      modifies this
      ensures old(previewSource) == Some(player) ==> previewSource == None && previewUrl == None
      ensures old(previewSource) != Some(player) ==> previewSource == old(previewSource) && previewUrl == old(previewUrl)
      ensures loadingPreviewUrl == old(loadingPreviewUrl) && nodesCreated == old(nodesCreated)
      ensures isPlaying == old(isPlaying) && playbackTime == old(playbackTime) && playingSources == old(playingSources)
      ensures playbackStartTime == old(playbackStartTime) && trackGainNodes == old(trackGainNodes)
      ensures audioBuffers == old(audioBuffers)
      ensures isInitialized == old(isInitialized) && isExporting == old(isExporting)
      requires Valid()
      ensures Valid()
    {
      if previewSource == Some(player) {
        previewSource := None;
        previewUrl := None;
      }
    }

    /**
     * `startPlayback`: the loop resumes where `playbackTime` left it, so the
     * sources are scheduled from exactly that position.
     */
    method StartPlayback(snap: Snapshot, now: real)
      modifies this
      ensures isPlaying
      ensures playbackStartTime == now - old(playbackTime) && playbackTime == old(playbackTime)
      ensures playingSources == Schedule.PlaybackSources(snap.tracks, snap.numSlots, trackGainNodes.Keys, snap.soloedTrackId,
                                                         audioBuffers.Keys, now,
                                                         Schedule.Looped(old(playbackTime), snap.totalDuration))
      ensures trackGainNodes == old(trackGainNodes) && audioBuffers == old(audioBuffers)
      ensures previewSource == old(previewSource) && previewUrl == old(previewUrl)
      ensures loadingPreviewUrl == old(loadingPreviewUrl) && nodesCreated == old(nodesCreated)
      ensures isInitialized == old(isInitialized) && isExporting == old(isExporting)
      requires Valid()
      ensures Valid()
    {
      isPlaying := true;
      playbackStartTime := now - playbackTime;
      SchedulePlayback(snap, now);
      assert now - playbackStartTime == old(playbackTime);
    }

    /**
     * One `updateProgress` frame at clock `now`. When the elapsed time has
     * reached the loop length, the start time moves forward by one loop so
     * that the elapsed time becomes the overshoot, and the loop is
     * rescheduled; the displayed time is the elapsed time modulo the loop
     * length, or 0 when there is no loop.
     */
    method UpdateProgress(snap: Snapshot, now: real)
      modifies this
      ensures var elapsed := now - old(playbackStartTime);
        && (snap.totalDuration > 0.0 && elapsed >= snap.totalDuration ==>
              && playbackStartTime == now - (elapsed - snap.totalDuration)
              && playingSources == Schedule.PlaybackSources(snap.tracks, snap.numSlots, trackGainNodes.Keys,
                                                            snap.soloedTrackId, audioBuffers.Keys, now,
                                                            Schedule.Looped(elapsed - snap.totalDuration, snap.totalDuration)))
        && (!(snap.totalDuration > 0.0 && elapsed >= snap.totalDuration) ==>
              playbackStartTime == old(playbackStartTime) && playingSources == old(playingSources))
      ensures snap.totalDuration > 0.0 ==> playbackTime == Schedule.Looped(now - playbackStartTime, snap.totalDuration)
      ensures snap.totalDuration > 0.0 && now >= old(playbackStartTime) ==> 0.0 <= playbackTime < snap.totalDuration
      ensures snap.totalDuration <= 0.0 ==> playbackTime == 0.0
      ensures isPlaying == old(isPlaying) && trackGainNodes == old(trackGainNodes) && audioBuffers == old(audioBuffers)
      ensures previewSource == old(previewSource) && previewUrl == old(previewUrl)
      ensures loadingPreviewUrl == old(loadingPreviewUrl) && nodesCreated == old(nodesCreated)
      ensures isInitialized == old(isInitialized) && isExporting == old(isExporting)
      requires Valid()
      ensures Valid()
    {
      var totalDuration := snap.totalDuration;
      var elapsedTime := now - playbackStartTime;
      if totalDuration > 0.0 && elapsedTime >= totalDuration {
        var overshoot := elapsedTime - totalDuration;
        playbackStartTime := now - overshoot;
        elapsedTime := overshoot;
        SchedulePlayback(snap, now);
      }
      assert elapsedTime == now - playbackStartTime;
      playbackTime := if totalDuration > 0.0 then Schedule.Looped(elapsedTime, totalDuration) else 0.0;
    }

    /** `stopPlayback`: every source is dropped and the transport stops; the position is kept. */
    method StopPlayback()
      modifies this
      ensures !isPlaying && playingSources == []
      ensures playbackTime == old(playbackTime) && playbackStartTime == old(playbackStartTime)
      ensures trackGainNodes == old(trackGainNodes) && audioBuffers == old(audioBuffers)
      ensures previewSource == old(previewSource) && previewUrl == old(previewUrl)
      ensures loadingPreviewUrl == old(loadingPreviewUrl) && nodesCreated == old(nodesCreated)
      ensures isInitialized == old(isInitialized) && isExporting == old(isExporting)
      requires Valid()
      ensures Valid()
    {
      playingSources := [];
      isPlaying := false;
    }

    /**
     * `seekPlayback(time)`: the position becomes `time` exactly (there is no
     * clamp), and a playing loop is rescheduled from it.
     */
    method SeekPlayback(snap: Snapshot, time: real, now: real)
      modifies this
      ensures playbackTime == time && playbackStartTime == now - time
      ensures old(isPlaying) ==>
        playingSources == Schedule.PlaybackSources(snap.tracks, snap.numSlots, trackGainNodes.Keys, snap.soloedTrackId,
                                                   audioBuffers.Keys, now, Schedule.Looped(time, snap.totalDuration))
      ensures !old(isPlaying) ==> playingSources == old(playingSources)
      ensures isPlaying == old(isPlaying) && trackGainNodes == old(trackGainNodes) && audioBuffers == old(audioBuffers)
      ensures previewSource == old(previewSource) && previewUrl == old(previewUrl)
      ensures loadingPreviewUrl == old(loadingPreviewUrl) && nodesCreated == old(nodesCreated)
      ensures isInitialized == old(isInitialized) && isExporting == old(isExporting)
      requires Valid()
      ensures Valid()
    {
      playbackStartTime := now - time;
      playbackTime := time;
      if isPlaying {
        SchedulePlayback(snap, now);
        assert now - playbackStartTime == time;
      }
    }

    /** `handleStop`: stop, then rewind to the top of the loop. */
    method HandleStop(snap: Snapshot, now: real)
      modifies this
      ensures !isPlaying && playingSources == [] && playbackTime == 0.0 && playbackStartTime == now
      ensures trackGainNodes == old(trackGainNodes) && audioBuffers == old(audioBuffers)
      ensures previewSource == old(previewSource) && previewUrl == old(previewUrl)
      ensures loadingPreviewUrl == old(loadingPreviewUrl) && nodesCreated == old(nodesCreated)
      ensures isInitialized == old(isInitialized) && isExporting == old(isExporting)
      requires Valid()
      ensures Valid()
    {
      StopPlayback();
      SeekPlayback(snap, 0.0, now);
    }

    /** `handlePlayPause`: stop when playing, start otherwise. */
    method HandlePlayPause(snap: Snapshot, now: real)
      modifies this
      ensures isPlaying == !old(isPlaying)
      ensures old(isPlaying) ==> playingSources == [] && playbackTime == old(playbackTime)
      ensures old(isPlaying) ==> playbackStartTime == old(playbackStartTime)
      ensures !old(isPlaying) ==> playbackStartTime == now - old(playbackTime) && playbackTime == old(playbackTime)
      ensures !old(isPlaying) ==>
        playingSources == Schedule.PlaybackSources(snap.tracks, snap.numSlots, trackGainNodes.Keys, snap.soloedTrackId,
                                                   audioBuffers.Keys, now,
                                                   Schedule.Looped(old(playbackTime), snap.totalDuration))
      ensures trackGainNodes == old(trackGainNodes) && audioBuffers == old(audioBuffers)
      ensures previewSource == old(previewSource) && previewUrl == old(previewUrl)
      ensures loadingPreviewUrl == old(loadingPreviewUrl) && nodesCreated == old(nodesCreated)
      ensures isInitialized == old(isInitialized) && isExporting == old(isExporting)
      requires Valid()
      ensures Valid()
    {
      if isPlaying {
        StopPlayback();
      } else {
        StartPlayback(snap, now);
      }
    }

    /** `handleExport`: opens the file-name modal with the export callback. */
    method HandleExport(ui: UIStore.UIState)
      modifies ui
      ensures ui.isFileNameModalOpen && ui.onFileNameSubmit == Some(ExportHandler)
      ensures ui.zoomLevel == old(ui.zoomLevel)
      ensures old(ui.Valid()) ==> ui.Valid()
    {
      ui.ShowFileNameModal(ExportHandler);
    }

    /** Replaces the buffer cache, and nothing else. */
    method SetCache(cache: map<string, Wav.AudioBuffer>)
      modifies this
      ensures audioBuffers == cache
      ensures isInitialized == old(isInitialized)
      ensures isPlaying == old(isPlaying) && playbackTime == old(playbackTime) && playingSources == old(playingSources)
      ensures playbackStartTime == old(playbackStartTime) && trackGainNodes == old(trackGainNodes)
      ensures previewSource == old(previewSource) && previewUrl == old(previewUrl)
      ensures loadingPreviewUrl == old(loadingPreviewUrl) && nodesCreated == old(nodesCreated)
      ensures isExporting == old(isExporting)
      requires Valid()
      ensures Valid()
    {
      audioBuffers := cache;
    }

    /**
     * The export callback for `fileName`, up to the offline render: the
     * cache and the job are those of `Export.RunExport`, and the exporting
     * flag is clear again at the end.
     */
    method ExportSubmitted(snap: Snapshot, fileName: string, sampleRate: nat, fetched: map<string, Wav.AudioBuffer>)
      returns (r: Result<Export.ExportJob, Export.ExportError>)
      requires sampleRate > 0
      modifies this
      ensures !isExporting
      ensures (audioBuffers, r) == Export.Outcome(old(audioBuffers), snap, fileName, sampleRate, fetched)
      ensures isPlaying == old(isPlaying) && playbackTime == old(playbackTime) && playingSources == old(playingSources)
      ensures playbackStartTime == old(playbackStartTime) && trackGainNodes == old(trackGainNodes)
      ensures previewSource == old(previewSource) && previewUrl == old(previewUrl)
      ensures loadingPreviewUrl == old(loadingPreviewUrl) && nodesCreated == old(nodesCreated)
      ensures isInitialized == old(isInitialized)
      requires Valid()
      ensures Valid()
    {
      isExporting := true;
      var cache;
      cache, r := Export.RunExport(audioBuffers, snap, fileName, sampleRate, fetched);
      SetCache(cache);
      isExporting := false;
    }
  }
}
