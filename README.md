# napbak sequencer core, in Dafny

This project models the core of the napbak loop sequencer. Users place audio samples on a grid of one-measure slots across several tracks. The loop plays back seamlessly while it is being edited, and the composition can be exported as a WAVE file.

The model covers these parts of the source:

- **Types, Grid** (`grid.dfy`). The composition records (`Sample`, `Track`, the engine's `Snapshot`) and the tempo: 90 BPM, so one slot lasts `(60 / 90) * 4 = 8/3` s. Also the left-to-right slot walk that the scheduler, the export loop and `handleDrop` share. The walk visits an occupied slot and jumps past its `duration || 1` slots; an empty slot moves it by one. `Heads` lists the visited slots.
- **Schedule** (`schedule.dfy`). `scheduleTrack` and the track loop of `schedulePlayback`.
  - Each visited sample whose buffer is cached is classified against the looped playhead as future, in progress or past. It yields a `Source` record `(startAt, offset, length)` standing for `source.start(...)`.
  - A track is scheduled only when it has a gain node, is not muted, and no other track is soloed.
- **AudioEngine** (`audio_engine.dfy`). The engine store as a class, covering:
  - the transport: `playbackStartTime`, `playbackTime`, start, one `updateProgress` frame, stop, seek, stop-and-rewind, play/pause;
  - the gain table kept in step with the track store;
  - the decoded-buffer cache;
  - the single-voice preview with its `loadingPreviewUrl` lock;
  - the export entry points.

  The audio clock is a parameter `now`. Host nodes are records; a node's `serial` stands for its identity.
- **Export** (`export.dfy`). The arithmetic of `handleExport`:
  - refusal of a zero-length loop;
  - the `.wav` file-name normalisation;
  - `ceil(sampleRate * totalDuration)` frames;
  - placement of every loaded sample at `(i + offset) * measure` with the track's volume;
  - the empty-file refusal after encoding.
- **Wav** (`wav.dfy`). `bufferToWav`, writing through a cursor into a byte array. The output is a RIFF/WAVE file with a 16-byte PCM `fmt ` chunk and a `data` chunk of interleaved little-endian 16-bit samples, as in the Microsoft/IBM "Multimedia Programming Interface and Data Specifications 1.0". Each sample is clipped to [-1, 1], then scaled by 32768 below -0.5 and by 32767 otherwise, then truncated.
- **TrackStore** (`track_store.dfy`). The editor store as a class: five typed tracks of `numSlots` slots, volumes and the stored loop length. It covers `handleDrop` (bounds and overlap check), `handleClear`, `addSlots`, `setVolume` and `setTotalDuration`. It keeps the invariant that every placed run fits in the grid and no two runs on a track overlap.
- **TotalDuration** (`total_duration.dfy`). The nested loops of `useTotalDuration`. They compute the maximum of `i + (duration || 1)` over placed samples, times the measure length.
- **Tonal** (`tonal.dfy`). `noteToMidi` (regex letter match, flat and sharp handling, `indexOf` into `noteOrder`) and `getPitchShiftInSemitones`.
- **UIStore** (`ui_store.dfy`). Zoom clamping to [0.5, 5] in steps of 0.5, and the file-name modal.
- **Decimal, Clock, TimeDisplay, PlaybackTracker** (`time_format.dfy`). The `MM:SS:CC` and `M:SS` formatters, each with a reader that parses the output back, and the progress percentage.
- **Common, JsMath** (`common.dfy`). Option/Result, and the JavaScript number operations used above: `Math.floor`, `Math.ceil`, `x | 0`, and `%` with the sign of the dividend.

Times are exact reals. Integer field widths in the WAVE header are modelled explicitly: 16- and 32-bit writes keep the value modulo 2^16 or 2^32.

Four behaviours of the code are easy to get wrong, and the model keeps them as written:

- The loop length is 0 when nothing is placed; there is no one-slot minimum.
- `seekPlayback` does not clamp the time to the loop.
- A track is scheduled only when it has a gain node, besides not being muted or silenced by a solo.
- Export renders every track, muted or not, whatever the solo.

Every engine method keeps the class invariant `AudioEngine.Engine.Valid`: a preview player exists exactly when a preview URL does, for that URL, and every node and player carries a serial below `nodesCreated`. Each method also states every field it leaves unchanged.

The useTrackStore.ts shown keeps `trackSlots` per track type. The engine reads `tracks`, `soloedTrackId` and `projectKey` from a newer revision of that store. So `TrackStore` models the former, and the engine works on a `Snapshot` of the latter.

## Model

| member | source | states |
|---|---|---|
| Types.MeasureDurationFromTempo | src/store/useAudioEngine.ts:181 | the measure length 8/3 s is `(60 / BPM) * 4` at 90 BPM |
| Types.Span | src/store/useAudioEngine.ts:75 | `duration \|\| 1`: at least one slot, and a positive duration is kept as is |
| Types.EndSlot | src/store/useAudioEngine.ts:111-114 | the walk always moves strictly forward: past the run of an occupied slot, or to the next slot |
| Types.RawWalkNeverEnds | src/store/useAudioEngine.ts:111-114 | with `duration` any integer, a track with slot 0 empty and a duration of -1 at slot 1 keeps the walk in slots 0 and 1 forever |
| Grid.HeadsStep | src/store/useAudioEngine.ts:69-115 | one step of the slot walk records an occupied slot and jumps `duration \|\| 1` slots, or skips an empty slot |
| Grid.HeadsWellFormed | src/store/useAudioEngine.ts:69-115 | every visited slot is occupied and in range, and each starts at or after the end of the previous visited run |
| Grid.HeadIsOccupied | src/store/useAudioEngine.ts:71-72 | a visited slot is an occupied slot inside `[i, numSlots)` |
| Grid.HeadsSkipRuns | src/store/useAudioEngine.ts:111 | the walk never visits a slot strictly inside a run it has visited |
| Grid.HeadsCover | src/store/useAudioEngine.ts:69-115 | every occupied slot is visited or lies inside the run of a visited slot |
| Grid.HeadsOfPlaced | src/store/useAudioEngine.ts:69-115 | on a grid with the placement invariant, the walk visits exactly the occupied slots |
| Schedule.Looped | src/store/useAudioEngine.ts:67 | the looped playhead lies in `[0, total)` for a non-negative elapsed time, equals it inside the first loop, and equals the elapsed time when there is no loop |
| Schedule.SampleLength | src/store/useAudioEngine.ts:75 | a sample plays for at least one measure |
| Schedule.Classify | src/store/useAudioEngine.ts:95-109 | a command is emitted exactly when the sample ends after the playhead; it starts no earlier than `now`, plays from its offset to the end of the sample, and lines up with the playhead |
| Schedule.ClassifyCases | src/store/useAudioEngine.ts:96-109 | future: start at `now + (start - looped)`, offset 0, full length; in progress: start at `now`, offset `looped - start > 0`, the positive remainder; past: nothing |
| Schedule.TrackSourcesCorrect | src/store/useAudioEngine.ts:69-115 | every command of a track comes from a visited sample whose buffer is cached, and plays the rest of that sample |
| Schedule.TrackSourcesComplete | src/store/useAudioEngine.ts:69-115 | every visited, cached sample that is not over yields its command |
| Schedule.ScheduleSample | src/store/useAudioEngine.ts:75-109 | the inline start, length and three-way branch compute `Classify` |
| Schedule.ScheduleSlot | src/store/useAudioEngine.ts:72-110 | at an occupied slot, an uncached sample emits nothing and a cached one emits its classification |
| Schedule.ScheduleTrack | src/store/useAudioEngine.ts:56-117 | `scheduleTrack` emits, in slot order, the commands of the slots the walk visits at the looped playhead |
| Schedule.PlaybackSourcesAudible | src/store/useAudioEngine.ts:187-193 | every scheduled command comes from a track with a gain node that is not muted and not silenced by another track's solo |
| Schedule.SoloedTrackOnly | src/store/useAudioEngine.ts:192-193 | with a track soloed, only that track's samples are scheduled |
| Schedule.ScheduleTracks | src/store/useAudioEngine.ts:187-203 | the track loop concatenates the commands of the audible tracks, in track order |
| AudioEngine.FreshNodes | src/store/useAudioEngine.ts:232-239 | one new node per track id, at the volume of the last track with that id, all with new serials |
| AudioEngine.AddMissingNodes | src/store/useAudioEngine.ts:252-260 | every track id gets a node; existing nodes are untouched; new ones start at the first matching track's volume; the changed flag is set exactly when some id was missing |
| AudioEngine.RemoveStaleNodes | src/store/useAudioEngine.ts:262-268 | exactly the nodes of ids that are no longer tracks are deleted; the changed flag is set exactly when one was |
| AudioEngine.SyncGainNodes | src/store/useAudioEngine.ts:248-272 | after the diff the table's keys are the current track ids; survivors keep their node; new ids get a fresh node at their track's volume; an unchanged id set keeps the old table |
| AudioEngine.Engine.constructor | src/store/useAudioEngine.ts:206-214 | the initial store and module state: nothing initialised, playing, previewed or cached, time 0 |
| AudioEngine.Engine.SchedulePlayback | src/store/useAudioEngine.ts:169-204 | the playing sources become the audible tracks' commands at `Looped(now - playbackStartTime)`; nothing else changes |
| AudioEngine.Engine.Init | src/store/useAudioEngine.ts:216-225 | the first call builds one fresh node per track id at the last such track's volume and allocates one serial per track; later calls change nothing but the flag; the rest of the state is untouched |
| AudioEngine.Engine.InitializeTrackGainNodes | src/store/useAudioEngine.ts:228-241 | the table becomes one fresh node per track id, at the volume of the last track with that id |
| AudioEngine.Engine.OnTrackStoreChange | src/store/useAudioEngine.ts:243-278 | the reconciled table as in `SyncGainNodes`; rescheduling happens exactly when playing and the tracks or the project key changed |
| AudioEngine.Engine.SetTrackVolume | src/store/useAudioEngine.ts:280-288 | the named track's node gets the new gain and keeps its identity; an unknown id changes nothing |
| AudioEngine.Engine.LoadAudioBuffer | src/store/useAudioEngine.ts:290-309 | a cached buffer is returned unchanged; otherwise a decoded buffer is cached and returned; a failure returns nothing and caches nothing |
| AudioEngine.Engine.PreviewBegin | src/store/useAudioEngine.ts:316-333 | while loading, nothing happens; the URL already previewing is toggled off; any other URL takes the lock and proceeds |
| AudioEngine.Engine.PreviewFinish | src/store/useAudioEngine.ts:335-356 | with a buffer, a new player for the URL becomes the preview, otherwise there is none; the lock is released; the cache gains exactly a newly fetched buffer; one serial is allocated exactly when a player is created; the new player differs from the replaced one, so the replaced player's late `onstop` (line 344) leaves it in place |
| AudioEngine.Engine.PreviewStopped | src/store/useAudioEngine.ts:343-347 | a stopped player clears the preview only if it is still the current one |
| AudioEngine.Engine.StartPlayback | src/store/useAudioEngine.ts:377-384 | playing resumes at `playbackTime`: `playbackStartTime = now - playbackTime`, scheduled from that position |
| AudioEngine.Engine.UpdateProgress | src/store/useAudioEngine.ts:386-399 | on overshoot the start moves so the elapsed time is the overshoot, and the loop is rescheduled; the shown time is the looped elapsed time, in `[0, total)`, or 0 when there is no loop |
| AudioEngine.Engine.StopPlayback | src/store/useAudioEngine.ts:406-416 | not playing, no sources, position kept |
| AudioEngine.Engine.SeekPlayback | src/store/useAudioEngine.ts:418-430 | `playbackTime` is exactly the requested time, `playbackStartTime = now - time`, and a playing loop is rescheduled from there |
| AudioEngine.Engine.HandleStop | src/store/useAudioEngine.ts:372-375 | not playing, no sources, time 0 |
| AudioEngine.Engine.HandlePlayPause | src/store/useAudioEngine.ts:359-370 | toggles playing: stopping clears the sources and keeps the position and start time; starting sets `playbackStartTime = now - playbackTime` and schedules from that position |
| AudioEngine.Engine.SetCache | src/store/useAudioEngine.ts:457 | the export's loads leave the cache as given, and nothing else in the engine changes |
| AudioEngine.Engine.HandleExport | src/store/useAudioEngine.ts:432-434 | the file-name modal opens with the export callback |
| AudioEngine.Engine.ExportSubmitted | src/store/useAudioEngine.ts:434-483 | the callback's cache and job are those of `Export.Outcome`, and the exporting flag ends clear |
| JsMath.Floor | src/components/PlaybackTracker.tsx:10 | `Math.floor` is the greatest integer not above its argument |
| JsMath.Trunc | src/store/useAudioEngine.ts:568 | `x \| 0` truncates toward zero, within one of the argument |
| JsMath.Ceil | src/store/useAudioEngine.ts:449 | `Math.ceil` is the least integer not below its argument |
| JsMath.JsRemRange | src/store/useAudioEngine.ts:67 | JavaScript `%` keeps the dividend's sign: in `[0, m)` for a non-negative dividend, in `(-m, 0]` otherwise |
| Export.LowerChar | src/store/useAudioEngine.ts:447 | `toLowerCase` maps A-Z to a-z and leaves other characters unchanged |
| Export.ExportFileName | src/store/useAudioEngine.ts:446-447 | the name always ends in `.wav` in any case; empty becomes `napbak-beat.wav`; a `.wav` name is kept; others get `.wav` appended |
| Export.ExportFileNameIdempotent | src/store/useAudioEngine.ts:446-447 | normalising a normalised name changes nothing |
| Export.FrameCount | src/store/useAudioEngine.ts:449 | the render has at least `sampleRate * totalDuration` frames, and fewer than one more; at least one for a positive loop |
| Export.PlacementsMembers | src/store/useAudioEngine.ts:452-483 | a placement exists exactly for each visited slot, on any track, whose buffer loaded; it is at `(i + offset) * measure` for `(duration \|\| 1) * measure` with the track's volume |
| Export.ExportIgnoresMute | src/store/useAudioEngine.ts:452-454 | changing mute flags does not change what is exported |
| Export.PlacementIsScheduledFromTop | src/store/useAudioEngine.ts:474-476 | an export placement is the playback command for the same sample with the playhead and the clock at 0 |
| Export.PlaceSlot | src/store/useAudioEngine.ts:456-478 | at an occupied slot, an unloaded sample is skipped and a loaded one is placed by the inline formulas |
| Export.ExportTrack | src/store/useAudioEngine.ts:453-482 | one track's walk places its visited, loaded samples in slot order |
| Export.ExportTracks | src/store/useAudioEngine.ts:452-483 | every track is placed in order, regardless of mute and solo |
| Export.LoadAll | src/store/useAudioEngine.ts:457 | loading through the cache keeps cached entries and adds exactly the visited URLs that decode |
| Export.PlanExport | src/store/useAudioEngine.ts:437-483 | a loop of length at most 0 is refused; otherwise the job has the normalised name, two channels, the sample rate, the frame count and the placements |
| Export.OutcomeProperties | src/store/useAudioEngine.ts:440-483 | refusal keeps the cache; otherwise the job names a `.wav`, is stereo with at least one frame covering the loop, the cache only grows, and exactly the cached samples are placed |
| Export.JobProperties | src/store/useAudioEngine.ts:446-449 | a job is a stereo `.wav` render with at least one frame covering the loop |
| Export.RunExport | src/store/useAudioEngine.ts:436-483 | the callback's refusal, cache loading and planning compute `Outcome` |
| Export.EncodeExport | src/store/useAudioEngine.ts:485-493 | encoding fails exactly when the buffer holds no samples; otherwise the file is `WavBytes`, longer than 44 bytes; a stereo render of one or more frames always succeeds |
| Wav.LeRoundTrip | src/store/useAudioEngine.ts:538-546 | reading back `n` little-endian bytes gives the value modulo `256^n` |
| Wav.U16RoundTrip | src/store/useAudioEngine.ts:538-541 | a `setUint16` field reads back as the value modulo 2^16 |
| Wav.U32RoundTrip | src/store/useAudioEngine.ts:543-546 | a `setUint32` field reads back as the value modulo 2^32 |
| Wav.I16RoundTrip | src/store/useAudioEngine.ts:569 | a 16-bit sample reads back as itself in two's complement |
| Wav.Clip | src/store/useAudioEngine.ts:567 | clipping lands in [-1, 1] and keeps in-range samples |
| Wav.Quantize | src/store/useAudioEngine.ts:567-568 | every sample code lies in [-32768, 32767] |
| Wav.QuantizeEnds | src/store/useAudioEngine.ts:567-568 | full scale gives 32767 and -32768, silence gives 0, and clipping saturates |
| Wav.QuantizeMonotone | src/store/useAudioEngine.ts:567-568 | a louder sample never gets a smaller code |
| Wav.DataSizeProduct | src/store/useAudioEngine.ts:532 | the sample bytes are `frames * channels * 2` |
| Wav.WavBytesLength | src/store/useAudioEngine.ts:532 | the file is `length * channels * 2 + 44` bytes |
| Wav.RiffFields | src/store/useAudioEngine.ts:548-550 | "RIFF", the file length minus 8, "WAVE" |
| Wav.FmtFields | src/store/useAudioEngine.ts:551-558 | "fmt ", size 16, format 1, channels, sample rate, byte rate `sr * 2 * ch`, block align `2 * ch`, 16 bits |
| Wav.FmtBytesFields | src/store/useAudioEngine.ts:551-558 | the eight format fields read back from their offsets |
| Wav.FmtHeadFields | src/store/useAudioEngine.ts:551-554 | "fmt ", 16, 1 and the channel count read back |
| Wav.FmtRatesFields | src/store/useAudioEngine.ts:555-558 | sample rate, byte rate, block align and 16 read back |
| Wav.DataFields | src/store/useAudioEngine.ts:559-560 | "data" and the file length minus 44 |
| Wav.HeaderFields | src/store/useAudioEngine.ts:548-560 | the 44-byte header is the three chunks in order; the sizes, channel count and sample rate read back from their offsets |
| Wav.RiffTag | src/store/useAudioEngine.ts:548 | `0x46464952` is written as the bytes of "RIFF" |
| Wav.WaveTag | src/store/useAudioEngine.ts:550 | `0x45564157` is written as the bytes of "WAVE" |
| Wav.FmtTag | src/store/useAudioEngine.ts:551 | `0x20746d66` is written as the bytes of "fmt " |
| Wav.DataTag | src/store/useAudioEngine.ts:559 | `0x61746164` is written as the bytes of "data" |
| Wav.ChannelBytesAt | src/store/useAudioEngine.ts:566-571 | within a frame, channel `k`'s code sits at bytes `2k..2k+2` |
| Wav.FramesAt | src/store/useAudioEngine.ts:565-573 | sample `f` of channel `c` sits after `f` frames and `c` channels |
| Wav.SampleReadBack | src/store/useAudioEngine.ts:565-573 | every sample, clipped and quantized, reads back from its interleaved place after the header |
| Wav.Put | src/store/useAudioEngine.ts:538-546 | a write at the cursor appends its bytes and advances the cursor by their count |
| Wav.SetUint16 | src/store/useAudioEngine.ts:538-541 | writes two little-endian bytes at the cursor and advances it by 2 |
| Wav.SetUint32 | src/store/useAudioEngine.ts:543-546 | writes four little-endian bytes at the cursor and advances it by 4 |
| Wav.WriteRiffDescriptor | src/store/useAudioEngine.ts:548-550 | the first 12 bytes are the RIFF descriptor |
| Wav.WriteFmtChunk | src/store/useAudioEngine.ts:551-558 | the next 24 bytes are the format chunk of the buffer |
| Wav.WriteFmtFields | src/store/useAudioEngine.ts:551-558 | the eight format writes produce the format chunk for the given values |
| Wav.WriteFmtHead | src/store/useAudioEngine.ts:551-554 | the first four format writes |
| Wav.WriteFmtRates | src/store/useAudioEngine.ts:555-558 | the last four format writes |
| Wav.WriteHeader | src/store/useAudioEngine.ts:548-560 | the 13 header writes produce `Header`, the data size being `length - pos - 4` at cursor 40 |
| Wav.WriteFrame | src/store/useAudioEngine.ts:566-571 | one frame writes every channel's quantized sample in channel order |
| Wav.WriteFrames | src/store/useAudioEngine.ts:565-573 | the loop runs until the cursor reaches the end, having written every frame |
| Wav.BufferToWav | src/store/useAudioEngine.ts:530-576 | the written array is exactly the header followed by the interleaved frames |
| TrackStore.TypeIndex | src/store/useTrackStore.ts:5 | every track type is listed in `TRACK_TYPES` |
| TrackStore.TypeIndexOf | src/store/useTrackStore.ts:5 | the listed types are distinct |
| TrackStore.Blank | src/store/useTrackStore.ts:40 | `Array(n).fill(null)` is `n` empty slots |
| TrackStore.DropAllowed | src/store/useTrackStore.ts:60-82 | the bounds check and the overlap walk accept exactly when the run fits and meets no visited run |
| TrackStore.CanDropIffDisjoint | src/store/useTrackStore.ts:59-82 | on a placed grid, a drop is accepted iff it fits and is disjoint from every placed run |
| TrackStore.DropKeepsPlaced | src/store/useTrackStore.ts:59-93 | an accepted drop lands on an empty slot and keeps the placement invariant |
| TrackStore.FindInstance | src/store/useTrackStore.ts:99 | `findIndex` returns the first slot holding the instance, or none |
| TrackStore.ClearRun | src/store/useTrackStore.ts:104-106 | nulling past the end of the array lengthens it |
| TrackStore.ClearSlots | src/store/useTrackStore.ts:104-106 | the clearing loop nulls `duration` slots from the start |
| TrackStore.ClearedOfPlaced | src/store/useTrackStore.ts:96-116 | on a placed grid, clearing empties exactly the slot holding the instance; an unknown id changes nothing |
| TrackStore.ClearKeepsPlaced | src/store/useTrackStore.ts:96-116 | clearing keeps the track length and the placement invariant |
| TrackStore.DropThenClear | src/store/useTrackStore.ts:59-116 | dropping under a fresh instance id and then clearing it restores the track |
| TrackStore.HeadsOfExtended | src/store/useTrackStore.ts:33-45 | appending empty bars does not change which slots the walk visits |
| TrackStore.ExtendKeepsPlaced | src/store/useTrackStore.ts:33-45 | appending empty bars keeps the placement invariant |
| TrackStore.Widened | src/store/useTrackStore.ts:36-42 | the loop over `TRACK_TYPES` appends the empty slots to every track |
| TrackStore.Store.constructor | src/store/useTrackStore.ts:19-31 | 16 empty slots per track type, every volume 1, loop length 0 |
| TrackStore.Store.HandleDrop | src/store/useTrackStore.ts:59-94 | places the stamped sample iff the drop is allowed; otherwise nothing changes; the invariant is kept |
| TrackStore.Store.HandleClear | src/store/useTrackStore.ts:96-116 | only the named track changes, to its cleared form; the invariant is kept |
| TrackStore.Store.AddSlots | src/store/useTrackStore.ts:33-45 | `numSlots` grows by the amount and every track gets that many empty slots at its end |
| TrackStore.Store.SetTotalDuration | src/store/useTrackStore.ts:47 | only the loop length changes |
| TrackStore.Store.SetVolume | src/store/useTrackStore.ts:49-55 | only the named type's volume changes |
| TotalDuration.ComputeTotalDuration | src/hooks/useTotalDuration.ts:10-26 | the nested loops compute `MaxEndSlot` and the loop length `maxEndSlot * 8/3` |
| TotalDuration.MaxEndSlotBound | src/hooks/useTotalDuration.ts:13-22 | every placed sample ends at or before `maxEndSlot` |
| TotalDuration.SlotsMaxEndBound | src/hooks/useTotalDuration.ts:14-22 | within one track, every placed sample ends at or before the track's maximum |
| TotalDuration.MaxEndSlotAttained | src/hooks/useTotalDuration.ts:11-22 | `maxEndSlot` is 0 or the end slot of some placed sample |
| TotalDuration.SlotsMaxEndAttained | src/hooks/useTotalDuration.ts:14-22 | a track's maximum is 0 or the end of one of its samples |
| TotalDuration.TotalSecondsZeroIffEmpty | src/hooks/useTotalDuration.ts:11-26 | the loop length is non-negative, and 0 exactly when no track holds a sample |
| TotalDuration.MaxEndSlotWithinGrid | src/hooks/useTotalDuration.ts:11-22 | under the placement invariant the loop does not extend past the grid |
| TotalDuration.SamplesEndWithinLoop | src/hooks/useTotalDuration.ts:25 | every placed sample without a positive offset has finished by the end of the loop |
| TotalDuration.EndsBy | src/store/useAudioEngine.ts:75-77 | a sample whose run ends by slot `n` ends by `n` measures |
| Tonal.IndexOf | src/lib/tonal.ts:18 | `indexOf` returns the first position of the entry, or -1 exactly when it is absent |
| Tonal.IndexOfSub | src/lib/tonal.ts:24-25 | the string search returns the first match from the start position, or -1 when there is none |
| Tonal.FirstNoteLetter | src/lib/tonal.ts:4 | the pattern matches at the first letter A-G, and fails when there is none |
| Tonal.LetterMidi | src/lib/tonal.ts:7-18 | the lookup yields an index of `noteOrder` or -1 |
| Tonal.IndexOfEntry | src/lib/tonal.ts:18 | the entries of `noteOrder` are found at their own positions |
| Tonal.IndexOfNatural | src/lib/tonal.ts:1 | each letter is found at its natural pitch class |
| Tonal.SharpIndex | src/lib/tonal.ts:14-18 | a sharp is one above its natural, and E# and B# are not found |
| Tonal.LetterMidiValue | src/lib/tonal.ts:10-18 | flat is `(natural + 11) mod 12` (Cb is 11), sharp is natural + 1 except E# and B#, which give -1, and natural is itself |
| Tonal.FlatValue | src/lib/tonal.ts:10-18 | a flat is the natural moved down one semitone, modulo 12 |
| Tonal.SharpValue | src/lib/tonal.ts:14-18 | a sharp is the natural plus one, or -1 for E# and B# |
| Tonal.NaturalValue | src/lib/tonal.ts:18 | a letter without an accidental is its natural pitch class |
| Tonal.NoteToMidiValue | src/lib/tonal.ts:3-19 | `noteToMidi` throws exactly when no letter A-G occurs; otherwise it reads the first letter and its accidental |
| Tonal.ShortestShiftReaches | src/lib/tonal.ts:30-39 | the adjusted difference lies in [-6, 6] and still takes one pitch class to the other |
| Tonal.ShortestShiftMinimal | src/lib/tonal.ts:30-39 | no shift reaching the target pitch class is shorter |
| Tonal.PitchShift | src/lib/tonal.ts:21-42 | equal keys give 0; otherwise it fails exactly when a stripped key has no letter, and the result lies in [-6, 6] and reaches the target pitch class |
| Tonal.MinorSuffixIgnored | src/lib/tonal.ts:24-25 | the first `m` is stripped, so "Am" parses like "A" |
| UIStore.ClampZoom | src/store/useUIStore.ts:33-35 | the zoom lies in [0.5, 5]: in-range levels are kept, others go to the nearest bound |
| UIStore.ZoomedIn | src/store/useUIStore.ts:37-39 | adds 0.5, capped at 5 |
| UIStore.ZoomedOut | src/store/useUIStore.ts:41-43 | subtracts 0.5, floored at 0.5 |
| UIStore.ClampZoomIdempotent | src/store/useUIStore.ts:33-35 | clamping twice equals clamping once |
| UIStore.ZoomKeepsRange | src/store/useUIStore.ts:37-43 | zooming in or out always lands in [0.5, 5] |
| UIStore.ZoomInOutInverse | src/store/useUIStore.ts:37-43 | zooming out undoes zooming in from a level up to 4.5, and vice versa from 1 |
| UIStore.UIState.constructor | src/store/useUIStore.ts:19-21 | modal closed, no callback, zoom 1 |
| UIStore.UIState.ShowFileNameModal | src/store/useUIStore.ts:23-26 | the modal opens with the callback; the zoom is untouched |
| UIStore.UIState.CloseFileNameModal | src/store/useUIStore.ts:28-31 | the modal closes and the callback is dropped; the zoom is untouched |
| UIStore.UIState.SetZoomLevel | src/store/useUIStore.ts:33-35 | the zoom becomes the clamped level |
| UIStore.UIState.ZoomIn | src/store/useUIStore.ts:37-39 | the zoom steps up, capped at 5 |
| UIStore.UIState.ZoomOut | src/store/useUIStore.ts:41-43 | the zoom steps down, floored at 0.5 |
| Decimal.NatToString | src/components/TimeDisplay.tsx:15 | `String(n)` is decimal digits with no leading zero |
| Decimal.ValueOfNatToString | src/components/TimeDisplay.tsx:15 | `String(n)` reads back as `n` |
| Decimal.NatToStringLength | src/components/TimeDisplay.tsx:15-17 | one digit below 10, at most two below 100 |
| Decimal.PadStart2 | src/components/TimeDisplay.tsx:15-17 | `padStart(2, '0')` prefixes zeros up to two characters and never truncates |
| Decimal.PaddedValue | src/components/TimeDisplay.tsx:15-17 | a padded number reads back as itself, in exactly two characters below 100 |
| Decimal.IntToString | src/components/PlaybackTracker.tsx:12 | a negative integer prints with a minus sign before its digits |
| Clock.TimeFields | src/components/TimeDisplay.tsx:11-13 | for `t >= 0`: seconds in [0, 59], centiseconds in [0, 99], `60 * minutes + seconds = floor(t)` |
| TimeDisplay.FormatTimer | src/components/TimeDisplay.tsx:7-20 | a negative time prints "00:00:00"; every output has colons before the last two 2-character fields |
| TimeDisplay.ReadFormatTimer | src/components/TimeDisplay.tsx:7-20 | the readout parses back to the minutes, seconds and centiseconds of the time, and to zeros for a negative time |
| PlaybackTracker.FormatClock | src/components/PlaybackTracker.tsx:9-13 | for `t >= 0` the label ends in `:SS` |
| PlaybackTracker.SecondsFitTwoDigits | src/components/PlaybackTracker.tsx:11-12 | the seconds are in [0, 59] and print in at most two digits |
| PlaybackTracker.ReadFormatClock | src/components/PlaybackTracker.tsx:9-13 | the label parses back to the minutes and seconds of the time |
| PlaybackTracker.Progress | src/components/PlaybackTracker.tsx:16 | with a loop, the progress times the loop length is `currentTime * 100`; without one it is 0 |
| PlaybackTracker.ProgressRange | src/components/PlaybackTracker.tsx:16 | a playhead inside the loop gives a progress in [0, 100) |
| PlaybackTracker.ProgressMonotone | src/components/PlaybackTracker.tsx:16 | a later playhead never shows less progress |

## Left out

- Host audio calls are not modelled: creating and connecting nodes, `disconnect`, `dispose`, `source.stop()`, `detune` and pitch shifting (useAudioEngine.ts:84-90, 462-468). Sources, players and gain nodes are plain records.
- `scheduleTrackWithPitchShift` is not modelled. It is async Tone.js plumbing, switched off by `PITCH_SHIFT_ENABLED = false`.
- `getAudioContext` and its `null` path are not modelled. The model assumes an audio context exists, and its clock is the parameter `now`.
- `AudioContext.resume` and `Tone.start` are not modelled. The preview's `catch` path is modelled like a failed load.
- `fetch` and `decodeAudioData` are I/O. Their result is the parameter `fetched`, with `None` for a failure.
- Async interleavings are not modelled. This includes concurrent `loadAudioBuffer` calls and `previewSample` resuming after its await. That await is split into `PreviewBegin` and `PreviewFinish`.
- `requestAnimationFrame` and `cancelAnimationFrame` are not modelled. `UpdateProgress` is one frame, called with the frame's clock.
- The track-store subscription itself is not modelled. `OnTrackStoreChange` is one notification. `tracksReplaced` stands for the JavaScript reference inequality of the two `tracks` arrays.
- `OfflineAudioContext.startRendering` is not modelled. Export is modelled up to the render job and from the rendered buffer on.
- The Blob, `showSaveFilePicker`, the anchor download and `URL.createObjectURL` are not modelled.
- AudioEngine.Engine.SetTrackVolume: `setTargetAtTime` is an exponential ramp (time constant 0.015 s). The model takes it as reaching its target at once.
- AudioEngine.Engine.UpdateProgress: the range `[0, totalDuration)` of the shown time is stated only when `now >= playbackStartTime`. The code itself gives a negative time when the clock is earlier than the start.
- Export.LowerChar: only ASCII letters are lowered. JavaScript's `toLowerCase` also lowers other scripts, but that cannot change whether a name ends in `.wav`.
- AudioEngine.Engine.ExportSubmitted: it stops at the render job. The blob-size refusal is `Export.EncodeExport`, and the file save is left out.
- Export.LoadAll: it states the cache after all loads at once, not one `await` at a time. The URLs are the visited samples' URLs.
- Export.PlanExport, Export.RunExport, Export.Outcome, AudioEngine.Engine.ExportSubmitted: each requires a positive sample rate. An audio context always has one.
- Types.Sample: `duration` is a whole, non-negative slot count, while the source types it as any number. The sample catalogue uses only 1 and 4. A fractional duration would move the walk off whole slots, and a negative one makes the source's slot walk loop forever (see Findings); `Types.RawWalkNeverEnds` models that case separately.
- Sample `name`, `color` and `type` and the Track `type` are not modelled. They only matter to the UI and to the disabled pitch shift.
- Float32 samples are exact reals. NaN and infinities are not modelled, including the `isNaN` branch of TimeDisplay.tsx.
- The useTrackStore.ts shown has no `tracks`, `soloedTrackId` or `projectKey`. The engine's view of the store is the `Snapshot` record, and mute and solo toggling are not part of the files modelled.
- `setVolume`'s call into the engine (useTrackStore.ts:56) is the composition of `TrackStore.Store.SetVolume` and `AudioEngine.Engine.SetTrackVolume`. The model does not relate track types to engine track ids.
- The console warnings and errors are not modelled.
- The duration computation in App.tsx is an older duplicate and is not part of this model.
- `usePreloadAudio.ts` and `useLoaderStore.ts` (preloading) are not part of this model, and neither are the UI components.

## Findings

| source | as written | input that shows it | evidently intended | confidence | as-written member | corrected member |
|---|---|---|---|---|---|---|
| src/store/useAudioEngine.ts:111-114 | the slot walk advances by `sample.duration \|\| 1`, and `duration` is any number, so a negative duration moves it backwards (the same step is at useTrackStore.ts:79 and in the export loop) | a two-slot track with slot 0 empty and slot 1 holding a sample of duration -1: the walk goes 0, 1, 0, 1, ... and `scheduleTrack` never returns | durations are positive slot counts, so every step moves strictly forward and the walk ends | low: the shipped catalogue has no negative durations; not executed | Types.RawWalkNeverEnds | Types.EndSlot |
