# autodj: a verified model of the mixer control logic

autodj is a two-channel automatic DJ. Its Python back end holds two channels, A and B. A song is loaded into a channel and played from a bar position. Between two songs the back end plays a *transition*: per audio effect, a curve of control points over a selected range of bars. A small finite state machine with the stages `INIT_A`, `A_TO_B` and `B_TO_A` decides:

- which channel a song is loaded into;
- which queued transition may be cancelled;
- in which direction a transition is queued;
- which channel is the master.

Every decision has a *dry* form that answers without changing anything. The web API reports the dry answers as the actions the user can take. The browser front end turns a pointer drag over a song's waveform into a bar selection snapped to a musical length. It also formats playback times as `M:SS`.

This Dafny project models that control logic and proves what it promises. It has one module per source file:

| module | file | form |
|---|---|---|
| `DjSong` | `dj/song.py` | pure functions |
| `BackendChannel` | `backend/channel.py` | a `Channel` class, plus pure stage classification |
| `BackendFsm` | `backend/fsm.py` | a `MixerFSM` class |
| `BackendMixer` | the time bookkeeping of `backend/mixer.py` | a `Mixer` class |
| `BackendAudio` | `backend/audio.py`, and the identical `dj/audio.py` | an array-backed `AudioFile` class |
| `BackendAnalysis` | `_to_reasonable_bpm` of `backend/analysis.py` | loops, plus reference functions |
| `DjApi` | the mixer handlers of `dj/api.py` | methods over the `Mixer` |
| `FrontendChannel` | `frontend/js/modules/channel.js` | a `Channel` class |
| `WebUtil` | `formatTime` of `web/js/modules/util.js` | a method, plus a reference function |

`Wrappers` holds `Option`, plus the integer `Min` and `Max` that `BackendAudio` and `FrontendChannel` share.

The model is built in three layers:

- Each decision of the state machine is a pure function of the mixer stage and the two channel stages: `PlanLoad`, `PlanCancel`, `PlanQueue`, `PlanUpdate` and `MasterOf`. The dry operations read these functions.
- The real operations are methods. Each one is proved to change the state exactly as its dry answer predicted. They also keep the invariant `MixerFSM.Valid`: once a direction exists, both channels hold songs, and the outgoing channel plays.
- Loops in the source (`create_transition_func`, `_invert_transition`, the halving and doubling loops, the window copy) stay loops, and `formatTime`'s piecewise string building stays a method. Each is proved equal to a reference function. The properties are then proved about that function.

Times, bars and tempos are `real`.

## Model

| member | source | states |
|---|---|---|
| DjSong.Song.TimeToBar | autodj/dj/song.py:48-50 | the bar position is the number of bar lengths elapsed since the first beat at offset / SAMPLE_RATE |
| DjSong.Song.BarToTime | autodj/dj/song.py:52-53 | bar b starts b bar lengths after the first beat at offset / SAMPLE_RATE |
| DjSong.Song.BarLength | autodj/dj/song.py:48-53 | a bar lasts 240/bpm seconds, which is positive |
| DjSong.TimeOfBarRoundTrip | autodj/dj/song.py:48-53 | time_to_bar(bar_to_time(b)) == b for every bar b |
| DjSong.BarOfTimeRoundTrip | autodj/dj/song.py:48-53 | bar_to_time(time_to_bar(t)) == t for every time t |
| DjSong.BarToTimeShape | autodj/dj/song.py:52-53 | bar 0 starts at offset / SAMPLE_RATE; consecutive bars are 240/bpm seconds apart; bar_to_time is strictly increasing |
| DjSong.TimeToBarMonotone | autodj/dj/song.py:48-50 | a later time never lies in an earlier bar |
| DjSong.Find | autodj/dj/song.py:21 | str.find: -1 exactly when the character is absent, otherwise the index of its first occurrence |
| DjSong.RFind | autodj/dj/song.py:20 | str.rfind: -1 exactly when the character is absent, otherwise the index of its last occurrence |
| DjSong.PyPrefix | autodj/dj/song.py:20 | Python's s[:stop]: a prefix of s, of length stop when 0 <= stop <= len(s), all of s beyond that, len(s) + stop for a negative stop down to -len(s), and empty below it |
| DjSong.Basename | autodj/dj/song.py:19 | the suffix after the last '/', contains no '/', and is the whole path when it has no '/' |
| DjSong.StripBy | autodj/dj/song.py:23 | str.strip: the infix left after removing stripped characters at both ends; everything removed is whitespace and the kept ends are not |
| DjSong.Strip | autodj/dj/song.py:23 | str.strip(): the infix of s with only whitespace before and after it, neither starting nor ending with whitespace |
| DjSong.SongName | autodj/dj/song.py:19-20 | the base name cut before its last '.'; with no '.', the base name minus its last character |
| DjSong.GetArtistAndTitle | autodj/dj/song.py:15-25 | with no '-' in the name the result is ('', name) unstripped; the artist never contains '-' and neither part contains '/' |
| DjSong.ArtistTitleSplit | autodj/dj/song.py:21-23 | a name artist + '-' + title with no '-' in artist yields (artist.strip(), title.strip()) |
| DjSong.NoExtensionDropsLastChar | autodj/dj/song.py:19-20 | a base name without '.' loses its last character |
| BackendChannel.FillValues | autodj/backend/channel.py:25-31 | vol fills with (0, 1) for an incoming and (1, 0) for an outgoing transition; other effects fill with their DefaultValue on both sides |
| BackendChannel.CurveFor | autodj/backend/channel.py:23-34 | control point i sits at start + x_i * (end - start) with value y_i; the fill values are those of FillValues |
| BackendChannel.TransitionFuncOf | autodj/backend/channel.py:20-35 | the transition function has exactly the effects of the definition |
| BackendChannel.CreateTransitionFunc | autodj/backend/channel.py:15-35 | the loop builds one curve per effect of the definition, and no other |
| BackendChannel.StageOf | autodj/backend/channel.py:82-96 | NONE iff not playing or no song; POST with no transition bars; with bars, PRE iff bar < bars[0], MIX iff bars[0] <= bar < bars[1] + 1, POST iff bars[0] <= bar and bar >= bars[1] + 1 (so bar 4 of reversed bars (5, 2) is PRE) |
| BackendChannel.StageAdvances | autodj/backend/channel.py:91-96 | when only the time moves forward, the stage never moves back (PRE, MIX, POST) and never enters or leaves NONE |
| BackendChannel.Channel.Stage | autodj/backend/channel.py:82-96 | the channel's stage from its own fields: NONE iff stopped or empty; for a playing channel with a song, PRE iff bars are queued and its bar is before the first, MIX iff it lies from the first bar to the end of the last; POST otherwise |
| BackendChannel.Channel.constructor | autodj/backend/channel.py:57-64 | time 0, no song, no transition, not playing |
| BackendChannel.Channel.Clear | autodj/backend/channel.py:66-67 | restores the freshly constructed state |
| BackendChannel.Channel.Load | autodj/backend/channel.py:69-71 | the channel holds only the song (time 0, stopped, no transition), so its stage is NONE |
| BackendChannel.Channel.ClearTransition | autodj/backend/channel.py:74-76 | transition and bars are reset; song, time and playing flag are unchanged |
| BackendChannel.Channel.Play | autodj/backend/channel.py:78-80 | time becomes t and the channel plays; nothing else changes |
| BackendFsm.PlanLoad | autodj/backend/fsm.py:116-170 | load acts in INIT_A always, in A_TO_B only when A is POST and B is NONE or POST, and symmetrically in B_TO_A; in INIT_A it loads A iff A's stage is NONE and moves to A_TO_B iff A is POST; in A_TO_B with A POST, B NONE reloads B and keeps the stage and B POST loads A and moves to B_TO_A; B_TO_A is the mirror image; the only stage changes are INIT_A to A_TO_B (loading B), A_TO_B to B_TO_A (loading A) and B_TO_A to A_TO_B (loading B) |
| BackendFsm.PlanCancel | autodj/backend/fsm.py:177-200 | cancel targets B iff in A_TO_B with A still PRE, targets A iff in B_TO_A with B still PRE, and never acts in INIT_A |
| BackendFsm.PlanQueue | autodj/backend/fsm.py:207-262 | INIT_A is answered iff only A holds a song and A is stopped; in A_TO_B the answer is A_TO_B iff A is POST and B NONE, and B_TO_A iff both are POST; B_TO_A is the mirror image; the outgoing channel has always finished its transition |
| BackendFsm.PlanUpdate | autodj/backend/fsm.py:45-53 | the stage changes iff it is INIT_A, A is POST and B holds a song, and then it becomes A_TO_B |
| BackendFsm.MasterOf | autodj/backend/fsm.py:55-72 | A in INIT_A; in A_TO_B A iff B is NONE or PRE, else B; in B_TO_A B iff A is NONE or PRE, else A |
| BackendFsm.CancelExcludesLoadAndQueue | autodj/backend/fsm.py:182-200 | whenever cancel can act, load and queue both answer INVALID |
| BackendFsm.LastWithFile | autodj/backend/fsm.py:105-110 | the loop's find: the last song of the list with the requested file, with no later song holding it, or none when no channel holds that file |
| BackendFsm.FadeInStartsMixing | autodj/backend/fsm.py:222-228 | a channel started at the first bar of its selection is mixing at once (POST for a reversed selection) |
| BackendFsm.TransitionStartsAligned | autodj/backend/fsm.py:95-98 | the dst channel starts as many bars before its selection as src is before its own, so dst is PRE exactly when src is |
| BackendFsm.MixerFSM.constructor | autodj/backend/fsm.py:41-43 | the machine starts in INIT_A over two cleared channels and is valid |
| BackendFsm.MixerFSM.CachedSong | autodj/backend/fsm.py:105-114 | the song used has the requested file: B's song when B holds that file, else A's when A does, else the song read from the file |
| BackendFsm.MixerFSM.FindSong | autodj/backend/fsm.py:106-114 | the loop over the channels picks the cached song of that file, and otherwise the freshly loaded one |
| BackendFsm.MixerFSM.DryLoad | autodj/backend/fsm.py:116-170 | load(dry=True) answers INVALID exactly when the real load does nothing; a channel it names has stage NONE or POST, except that B may be named in INIT_A |
| BackendFsm.MixerFSM.DryCancel | autodj/backend/fsm.py:177-200 | cancel(dry=True) names B iff in A_TO_B with A PRE, and A iff in B_TO_A with B PRE |
| BackendFsm.MixerFSM.DryQueue | autodj/backend/fsm.py:207-262 | queue(dry=True) answers INIT_A iff in INIT_A only A holds a song and A is stopped; a direction away from A needs A POST and B NONE or POST, and the mirror image |
| BackendFsm.MixerFSM.MasterChannel | autodj/backend/fsm.py:55-72 | get_master_channel: A in INIT_A; in A_TO_B A iff B is NONE or PRE; in B_TO_A B iff A is NONE or PRE; never INVALID |
| BackendFsm.MixerFSM.Update | autodj/backend/fsm.py:45-53 | the new stage is PlanUpdate of the old stage, A's stage and whether B holds a song; the invariant is kept |
| BackendFsm.MixerFSM.Load | autodj/backend/fsm.py:100-170 | the channel the dry answer names ends holding only the song and the other channel is unchanged; with an INVALID answer nothing changes; the stage becomes the planned one; the invariant is kept |
| BackendFsm.MixerFSM.Cancel | autodj/backend/fsm.py:172-200 | with dry answer B, A loses its transition (song, time and playing kept) and B is reloaded, stopped, with stage NONE; A is the mirror image; with INVALID nothing changes |
| BackendFsm.MixerFSM.ApplyTransition | autodj/backend/fsm.py:74-98 | src and dst get their selections and transition functions (src outgoing, dst incoming); src keeps its time; dst plays from the bar that lines both selections up |
| BackendFsm.MixerFSM.Queue | autodj/backend/fsm.py:202-262 | the new stage is the dry answer unless that is INVALID, when nothing changes; INIT_A starts A fading in at its selection; A_TO_B applies the transition from A to B, and B_TO_A from B to A |
| BackendFsm.MasterIsPlaying | autodj/backend/fsm.py:55-72 | outside INIT_A the master channel of a valid machine is playing |
| BackendFsm.LoadSparesTransitions | autodj/backend/fsm.py:121-167 | load only ever replaces a channel whose stage is NONE or POST, never one before or inside its transition |
| BackendMixer.Speed | autodj/backend/mixer.py:76-81 | the speed is one of r, r/2 and 2r (r = global bpm / song bpm), one closest to 1, and r itself whenever r is as close as the others |
| BackendMixer.SpeedBounded | autodj/backend/mixer.py:78-81 | for songs within a factor two of the global tempo, the speed lies between 2/3 and 4/3 |
| BackendMixer.TimeStep | autodj/backend/mixer.py:127-128 | a block moves a channel by a non-negative amount, which is zero exactly when the channel is stopped or holds no song |
| BackendMixer.Mixer.constructor | autodj/backend/mixer.py:33-52 | two fresh cleared channels, global time 0 and bpm 130, a valid machine in INIT_A |
| BackendMixer.Mixer.Advance | autodj/backend/mixer.py:72-81 | a playing channel moves on by BUFFER_SIZE / SAMPLE_RATE times its speed; nothing else of it changes |
| BackendMixer.Mixer.AdvanceChannels | autodj/backend/mixer.py:72-128 | the loop advances each of the two channels by one block |
| BackendMixer.Mixer.Produce | autodj/backend/mixer.py:65-134 | each channel moves on one block, no stage moves back, the global time grows by one block, and the machine takes its update step; the invariant is kept |
| BackendAudio.Window | autodj/backend/audio.py:48-55 | the window has exactly `length` frames |
| BackendAudio.WindowsJoin | autodj/backend/audio.py:43-56 | two adjacent windows concatenated are the window over both |
| BackendAudio.WindowBounds | autodj/backend/audio.py:49-50 | a window that misses the signal is all zeros; the window over the whole signal is the signal |
| BackendAudio.AudioFile.constructor | autodj/backend/audio.py:14-36 | the file holds the decoded frames and its length is their number |
| BackendAudio.AudioFile.Stream | autodj/backend/audio.py:43-56 | a negative length is an error; otherwise a freshly allocated buffer of exactly `length` frames, frame k being signal[pos + k] inside the signal and zero outside (autodj/dj/audio.py:43-56 is the same code) |
| BackendAnalysis.FloorHalf | autodj/backend/analysis.py:55 | floor division by 2, exact for even values |
| BackendAnalysis.Halved | autodj/backend/analysis.py:54-55 | the tempo divided by a power of two: halving never raises it, a tempo above 90 stays above 90, and it stops with a value that is at most 180 or not even; when it halved at all, twice the result was still above 180 and even, so it stops at the first value that is at most 180 or odd |
| BackendAnalysis.Doubled | autodj/backend/analysis.py:56-57 | the tempo times a power of two: doubling ends at a value of at least 70, and a tempo below 70 ends below 140 |
| BackendAnalysis.Reasonable | autodj/backend/analysis.py:54-57 | the tempo both loops leave is at least 70, and a tempo from 70 to 180 is left as it is; a tempo below 70 is multiplied by a power of two, any other is divided by one; a tempo that was lowered stops at the first halving that is at most 180 or odd |
| BackendAnalysis.ReasonableRange | autodj/backend/analysis.py:54-57 | the cleaned-up tempo is >= 70; tempos from 70 to 180 are kept; a result above 180 is odd |
| BackendAnalysis.ReasonableIdempotent | autodj/backend/analysis.py:54-57 | cleaning up a cleaned-up tempo changes nothing |
| BackendAnalysis.Candidates | autodj/backend/analysis.py:58-62 | the tempo comes first; a second entry exists iff it is even and >= 140 (its half) or <= 90 (its double) |
| BackendAnalysis.Insert | autodj/backend/analysis.py:63 | inserting into a sorted list keeps it sorted and adds exactly that element |
| BackendAnalysis.Sort | autodj/backend/analysis.py:63 | np.sort: a sorted permutation |
| BackendAnalysis.HalveAndDouble | autodj/backend/analysis.py:54-57 | both loops terminate for a positive tempo and compute the cleaned-up tempo |
| BackendAnalysis.Suggestions | autodj/backend/analysis.py:58-63 | a sorted permutation of the candidates: 1 or 2 tempos, all >= 70, containing the cleaned-up tempo, largest last |
| BackendAnalysis.ToReasonableBpm | autodj/backend/analysis.py:46-63 | an error exactly for bpm <= 0; otherwise the sorted suggestions of the cleaned-up tempo |
| DjApi.InvertPoints | autodj/dj/api.py:49 | same length, each point (x, y) becomes (1 - x, y) |
| DjApi.Inverted | autodj/dj/api.py:43-50 | same effects, each with its points inverted |
| DjApi.InvertInvolution | autodj/dj/api.py:47-50 | inverting twice gives the definition back |
| DjApi.InvertedCurveMirrors | autodj/dj/api.py:43-50 | an inverted definition played outgoing is the incoming curve mirrored in time, with the volume's fill values swapped |
| DjApi.InvertTransition | autodj/dj/api.py:43-50 | the loop computes the inverted definition |
| DjApi.QueueDataFor | autodj/dj/api.py:166-172 | B_TO_A: (invert(b), a, b_sel, a_sel); A_TO_B: (invert(a), b, a_sel, b_sel); otherwise the inputs unchanged |
| DjApi.MixerQueue | autodj/dj/api.py:159-173 | the machine queues the data for its own dry direction and every channel taking part gets its own selection; when that direction reads a selection the page left out (A's for INIT_A, both for a transition), the call fails and nothing changes |
| DjApi.ChannelStatusOf | autodj/dj/api.py:125-130 | a channel's time, file (none without a song), playing flag and transition bars |
| DjApi.MixerStatus | autodj/dj/api.py:118-138 | the actions are exactly the dry answers of load, cancel and queue; the master and the stage are never INVALID; an offered cancel rules out the other two actions |
| FrontendChannel.Ceil | autodj/frontend/js/modules/channel.js:141-143 | Math.ceil: the least integer not below x |
| FrontendChannel.CeilQuotient | autodj/frontend/js/modules/channel.js:140-144 | Math.ceil(n / d) for d of 2 or 4 is the rounded-up integer quotient |
| FrontendChannel.BarAt | autodj/frontend/js/modules/channel.js:36 | the bar whose 25 pixels contain the pointer |
| FrontendChannel.SnapLength | autodj/frontend/js/modules/channel.js:138-144 | never shorter than the raw length; 1 stays 1; 2 to 8 round up to even; longer lengths round up to a multiple of 4 |
| FrontendChannel.SnapLengthIdempotent | autodj/frontend/js/modules/channel.js:138-144 | snapping a snapped length changes nothing |
| FrontendChannel.SnapRegion | autodj/frontend/js/modules/channel.js:136-152 | the region has the snapped length, has the drag start as its left end (drag right) or its right end (drag left), and covers both drag ends |
| FrontendChannel.ClickSelectsOneBar | autodj/frontend/js/modules/channel.js:40-45 | a pointer-down selects exactly the bar under it |
| FrontendChannel.SelectionRect | autodj/frontend/js/modules/channel.js:154-156 | visible, x = from * 25, width = length * 25 |
| FrontendChannel.QueuedRect | autodj/frontend/js/modules/channel.js:185-196 | hidden without queued bars; otherwise x = queued[0] * 25 + 1000000 and width = (queued[1] - queued[0] + 1) * 25 |
| FrontendChannel.QueuedWhereSelected | autodj/frontend/js/modules/channel.js:185-191 | a region sent with the waveform offset removed is drawn exactly over its selection rectangle |
| FrontendChannel.Channel.constructor | autodj/frontend/js/modules/channel.js:28-68 | no song, empty inactive selection, no region, no status seen yet |
| FrontendChannel.Channel.UpdateSelection | autodj/frontend/js/modules/channel.js:127-157 | with a song and both ends set, the region is the snapped region and the rectangle is drawn over it; otherwise the rectangle is hidden and the region kept |
| FrontendChannel.Channel.RoundLength | autodj/frontend/js/modules/channel.js:138-144 | the Math.ceil rounding computes the snapped length |
| FrontendChannel.Channel.PointerDown | autodj/frontend/js/modules/channel.js:40-45 | starts an active drag with from == to == the bar under the pointer and selects that bar |
| FrontendChannel.Channel.PointerMove | autodj/frontend/js/modules/channel.js:34-39 | during a drag only its end moves, to the bar under the pointer, and the region follows; with no song the region is kept and the rectangle hidden; without a drag nothing changes |
| FrontendChannel.Channel.PointerUp | autodj/frontend/js/modules/channel.js:46-49 | ends the drag, keeping the range and the snapped region |
| FrontendChannel.Channel.ClearSelection | autodj/frontend/js/modules/channel.js:86-91 | from and to are cleared and the drag ends; the region is kept and the rectangle hidden |
| FrontendChannel.Channel.UpdateSong | autodj/frontend/js/modules/channel.js:93-100 | no selection and no region; the rectangle is hidden |
| FrontendChannel.Channel.Setup | autodj/frontend/js/modules/channel.js:73-83 | the song becomes the server's answer, or none without a file; the selection is reset |
| FrontendChannel.Channel.Update | autodj/frontend/js/modules/channel.js:177-196 | a new file sets the song up again; the same file keeps the song and selection; the queued rectangle follows the transition bars |
| WebUtil.NatToString | autodj/web/js/modules/util.js:16 | a non-empty string of digits, without a leading zero unless the number is 0 |
| WebUtil.ParseNatToString | autodj/web/js/modules/util.js:16 | the digits written for n read back as n |
| WebUtil.TwoDigits | autodj/web/js/modules/util.js:18-21 | seconds below 60 in exactly two digits, reading back as the seconds |
| WebUtil.FormattedTime | autodj/web/js/modules/util.js:4-24 | at least 4 characters ending in ':' and two digits; it starts with '-' iff the time is negative; the minutes are not zero-padded, so they start with '0' only when they are the single digit 0 |
| WebUtil.MinutesOfWholeSeconds | autodj/web/js/modules/util.js:11-12 | floor(secs / 60) is the whole minutes of floor(secs) |
| WebUtil.FormatTime | autodj/web/js/modules/util.js:4-25 | the piecewise += building produces the formatted time |
| WebUtil.SignedClockParses | autodj/web/js/modules/util.js:6-21 | a sign, the minutes, ':' and the two-digit seconds of w read back as the signed w |
| WebUtil.FormattedTimeParses | autodj/web/js/modules/util.js:4-25 | the formatted time reads back as the signed whole seconds floor(abs(secs)), so the minutes and two-digit seconds together encode exactly that and the tenths never appear |

## Left out

- Audio signal processing: time stretching, cross-fading between blocks, the effect chain and evaluating interpolated curves on sample times. The effects and their DSP code are not part of this model either. A transition function is kept as its control points and fill values.
- Decoding with ffmpeg and peak normalisation in `AudioFile.__init__`. The constructor receives the decoded frames.
- `Song.__init__` and the wave diagram: file I/O, tempo and offset analysis, SVG output. A song is its file, tempo and offset. The song read from a file is a `loaded` parameter of `MixerFSM.Load`.
- Floating point: times, bars, tempos and samples are exact reals, so rounding in the float arithmetic is not modelled.
- Threads, the mixer lock, the pyaudio stream and the socket server with its handlers. `mixer_load` and `mixer_cancel` only take the lock and call the state machine's `load` and `cancel`. `mixer_status` (autodj/dj/api.py:124-138) takes only its channel snapshot under the lock. It releases the lock before it asks for the dry answers, the stage and the master, so a concurrent handler could change the machine in between. DjApi.MixerStatus reads everything from a single state.
- The `print(qd)` in `queue`, the `logging.info` call in `Channel.load`, and the `time.time()` stamp of the status report.
- The song and transition listings (`song_list`, `transition_list`), `song_info`, `mixer_bpm` and `start_api`. `mixer_bpm` sets the global tempo with `int(bpm)`, which accepts 0 and negative values. The model's `globalBpm` is always a positive `Bpm`, so it does not capture such a tempo, or the speeds that would follow from it.
- `dj/api.py` imports `autodj.dj.fsm`, `autodj.dj.channel` and `autodj.dj.mixer`, which are not part of this model. The handlers are modelled against the back-end state machine and mixer. `autodj/backend/song.py` is not part of this model either. Songs follow `autodj/dj/song.py`.
- Malformed transitions. The source raises in three cases:
  - A transition naming an effect the mixer does not know raises a KeyError in `create_transition_func`.
  - An effect with an empty list of control points raises an IndexError at `d[0]`.
  - A transition sent as null raises an AttributeError. `main.js` sends one when it queues before the `transition_list` answer has filled `transitions`.
- Where these raise: in `create_transition_func` the state machine has already set the transition bars, and inside `_apply_transition` possibly the src curve as well. The model does not capture that partly updated state. A null transition that `_invert_transition` reads raises in `mixer_queue` before anything changes.
- DjApi.MixerQueue: `raised` covers only a missing selection. Transitions are maps, so a null one cannot be passed.
- BackendChannel.CreateTransitionFunc: a transition is a map, so it cannot be null. An empty control-point list gives a `Curve` with no points instead of the IndexError. The callers of `CreateTransitionFunc` and `ApplyTransition` are required to name only known effects.
- BackendFsm.MixerFSM.Queue and DjApi.MixerQueue: only the transitions the direction reads are required to name known effects. These are the src one for a fade-in, and both for a transition between the channels. With an INVALID direction nothing is read.
- The `transient` and `last` buffers of a channel. They belong to the audio processing only.
- The DOM of the front end other than the two rectangles: song fields, cursor, scrolling, master opacity, `getBlob` and `updateCursor`. The `song_info` request in `setup` is asynchronous; it is modelled as its answer `reply`, applied at once. The queue condition in `main.js` is left out too.
- WebUtil.FormatTime: JavaScript's exponent notation for very large minute counts and the printing of negative zero and NaN are not modelled.
- BackendAudio.AudioFile.Stream: the signal is left unchanged because the method has no `modifies` clause. No separate contract states this.
