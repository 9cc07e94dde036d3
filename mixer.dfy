/**
 * The mixer's control side (autodj/backend/mixer.py): it owns the two
 * channels and the state machine, advances every playing channel by one block
 * of audio at a time, at the speed that best matches the song to the global
 * BPM, and then lets the state machine update its stage.
 */
module BackendMixer {
  import opened Wrappers
  import opened DjSong
  import opened BackendChannel
  import opened BackendFsm

  /** Samples per block the audio driver asks for. */
  const BufferSize: nat := 12000

  /** Seconds of audio in one block. */
  const BlockSeconds: real := BufferSize as real / SampleRate

  /** The BPM every song is stretched to. */
  const GlobalBpm: Bpm := 130.0

  function Dist(x: real): real {
    if x <= 1.0 then 1.0 - x else x - 1.0
  }

  /**
   * The playback speed of a song: of the speed-ups to the global BPM at the
   * song's tempo, half and double tempo, the one closest to 1 (the first of
   * them on a tie).
   */
  function Speed(globalBpm: Bpm, songBpm: Bpm): (s: real)
    ensures s > 0.0
    ensures var r := globalBpm / songBpm;
            && (s == r || s == r / 2.0 || s == r * 2.0)
            && Dist(s) <= Dist(r) && Dist(s) <= Dist(r / 2.0) && Dist(s) <= Dist(r * 2.0)
            && (Dist(r) <= Dist(r / 2.0) && Dist(r) <= Dist(r * 2.0) ==> s == r)
  {
    var r := globalBpm / songBpm;
    if Dist(r) <= Dist(r / 2.0) && Dist(r) <= Dist(r * 2.0) then r
    else if Dist(r / 2.0) <= Dist(r * 2.0) then r / 2.0
    else r * 2.0
  }

  /**
   * A song whose tempo is within a factor of two of the global BPM is never
   * stretched by more than a third.
   */
  lemma SpeedBounded(globalBpm: Bpm, songBpm: Bpm)
    requires 0.5 <= globalBpm / songBpm <= 2.0
    ensures 2.0 / 3.0 <= Speed(globalBpm, songBpm) <= 4.0 / 3.0
  {
  }

  /**
   * How far one block moves a channel on: a block's length at its song's
   * speed when it plays, nothing when it is stopped.
   */
  function TimeStep(song: Option<Song>, isPlaying: bool, globalBpm: Bpm): (dt: real)
    ensures dt >= 0.0
    ensures dt == 0.0 <==> !(isPlaying && song.Some?)
  {
    if isPlaying && song.Some? then BlockSeconds * Speed(globalBpm, song.value.bpm) else 0.0
  }

  /** Channel `c` advanced by one block, and nothing else about it changed. */
  twostate predicate AdvancedOneBlock(c: Channel, globalBpm: Bpm)
    reads c
  {
    && c.song == old(c.song) && c.isPlaying == old(c.isPlaying)
    && c.transition == old(c.transition) && c.transitionBars == old(c.transitionBars)
    && c.time == old(c.time) + TimeStep(old(c.song), old(c.isPlaying), globalBpm)
  }

  class Mixer {
    const a: Channel
    const b: Channel
    const fsm: MixerFSM
    var globalTime: real
    var globalBpm: Bpm

    ghost predicate Valid()
      reads this, fsm, a, b
    {
      fsm.a == a && fsm.b == b && fsm.Valid()
    }

    /** Two cleared channels and a state machine in INIT_A over them. */
    constructor (effectDefaults: map<string, real>)
      ensures Valid() && fresh(a) && fresh(b) && fresh(fsm)
      ensures a.IsCleared() && b.IsCleared()
      ensures fsm.stage == INIT_A && fsm.effectDefaults == effectDefaults
      ensures globalTime == 0.0 && globalBpm == GlobalBpm
    {
      globalTime := 0.0;
      globalBpm := GlobalBpm;
      var ca := new Channel();
      var cb := new Channel();
      a := ca;
      b := cb;
      fsm := new MixerFSM(ca, cb, effectDefaults);
    }

    /** Advances one channel by one block. */
    method Advance(c: Channel)
      modifies c
      ensures AdvancedOneBlock(c, globalBpm)
    {
      if c.isPlaying && c.song.Some? {
        var speed := Speed(globalBpm, c.song.value.bpm);
        c.time := c.time + BlockSeconds * speed;
      }
      assert c.time == old(c.time) + TimeStep(old(c.song), old(c.isPlaying), globalBpm);
    }

    /** The loop of produce over the channels. */
    method AdvanceChannels()
      requires a != b
      modifies a, b
      ensures AdvancedOneBlock(a, globalBpm) && AdvancedOneBlock(b, globalBpm)
    {
      var channels := [a, b];
      for i := 0 to |channels|
        invariant i >= 1 ==> AdvancedOneBlock(a, globalBpm)
        invariant i < 1 ==> unchanged(a)
        invariant i >= 2 ==> AdvancedOneBlock(b, globalBpm)
        invariant i < 2 ==> unchanged(b)
      {
        Advance(channels[i]);
      }
    }

    /**
     * produce: the time bookkeeping of one block. Every playing channel moves
     * on, no channel's transition stage goes back, the global clock moves on
     * by one block, and the state machine takes its update step.
     */
    method Produce()
      requires Valid()
      modifies this, a, b, fsm
      ensures Valid()
      ensures globalBpm == old(globalBpm)
      ensures globalTime == old(globalTime) + BlockSeconds
      ensures AdvancedOneBlock(a, globalBpm) && AdvancedOneBlock(b, globalBpm)
      ensures Rank(old(a.Stage())) <= Rank(a.Stage()) && Rank(old(b.Stage())) <= Rank(b.Stage())
      ensures fsm.stage == PlanUpdate(old(fsm.stage), a.Stage(), b.song.Some?)
    {
      AdvanceChannels();
      StageAdvances(old(a.song), old(a.isPlaying), old(a.transitionBars), old(a.time), a.time);
      StageAdvances(old(b.song), old(b.isPlaying), old(b.transitionBars), old(b.time), b.time);
      assert fsm.Valid();
      globalTime := globalTime + BlockSeconds;
      fsm.Update();
    }
  }
}
