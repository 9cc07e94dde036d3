/**
 * The finite state machine that controls the two-channel mixer
 * (autodj/backend/fsm.py). It decides, from the transition stages of
 * channels A and B, where a song is loaded, which queued transition can be
 * cancelled, in which direction a transition is queued, and which channel is
 * the master. Every operation has a dry form that only reports what the real
 * operation would do; here the dry forms are the functions Plan*, and the
 * real operations are methods whose effect is stated in terms of them.
 */
module BackendFsm {
  import opened Wrappers
  import opened DjSong
  import opened BackendChannel

  /** A channel an operation acts on, or INVALID when it cannot act. */
  datatype TargetChannel = INVALID | A | B

  /** The mixer stage; INVALID is only ever a dry answer ("cannot queue"). */
  datatype MixerStage =
    | INVALID
    | INIT_A  // no song, or only one song (in channel A), is active
    | A_TO_B  // a queued transition goes from A to B
    | B_TO_A  // a queued transition goes from B to A

  /** What a transition is queued with: the two transition definitions and bar selections. */
  datatype QueueData = QueueData(transitionSrc: TransitionDef, transitionDst: TransitionDef,
                                 selectionSrc: Bars, selectionDst: Bars)

  /** The channel `load` loads into and the stage it leaves the mixer in. */
  datatype LoadPlan = LoadPlan(target: TargetChannel, next: MixerStage)

  /**
   * The decision of `load` from the mixer stage and the stages of A and B.
   * (In INIT_A the source first tests whether A holds no song; such a channel
   * has stage NONE, so that test and the following one lead to the same load.)
   */
  function PlanLoad(st: MixerStage, sa: TransitionStage, sb: TransitionStage): (p: LoadPlan)
    ensures p.target == TargetChannel.INVALID ==> p.next == st
    ensures p.target != TargetChannel.INVALID <==>
              || st == INIT_A
              || (st == A_TO_B && sa == POST && (sb == NONE || sb == POST))
              || (st == B_TO_A && sb == POST && (sa == NONE || sa == POST))
    ensures st == INIT_A ==> (p.target == TargetChannel.A <==> sa == NONE)
    ensures st == INIT_A ==> (p.next == A_TO_B <==> sa == POST)
    ensures p.next != st ==>
              || (st == INIT_A && p == LoadPlan(TargetChannel.B, A_TO_B))
              || (st == A_TO_B && p == LoadPlan(TargetChannel.A, B_TO_A))
              || (st == B_TO_A && p == LoadPlan(TargetChannel.B, A_TO_B))
    ensures st == A_TO_B && sa == POST && sb == NONE ==> p == LoadPlan(TargetChannel.B, A_TO_B)
    ensures st == A_TO_B && sa == POST && sb == POST ==> p == LoadPlan(TargetChannel.A, B_TO_A)
    ensures st == B_TO_A && sb == POST && sa == NONE ==> p == LoadPlan(TargetChannel.A, B_TO_A)
    ensures st == B_TO_A && sb == POST && sa == POST ==> p == LoadPlan(TargetChannel.B, A_TO_B)
    ensures p.target == TargetChannel.A ==> sa == NONE || sa == POST
    ensures p.target == TargetChannel.B ==> sb == NONE || sb == POST || st == INIT_A
  {
    match st
    case INIT_A =>
      if sa == NONE then LoadPlan(TargetChannel.A, INIT_A)
      else LoadPlan(TargetChannel.B, if sa == POST then A_TO_B else INIT_A)
    case A_TO_B =>
      if sa == POST && sb == NONE then LoadPlan(TargetChannel.B, A_TO_B)
      else if sa == POST && sb == POST then LoadPlan(TargetChannel.A, B_TO_A)
      else LoadPlan(TargetChannel.INVALID, A_TO_B)
    case B_TO_A =>
      if sb == POST && sa == NONE then LoadPlan(TargetChannel.A, B_TO_A)
      else if sb == POST && sa == POST then LoadPlan(TargetChannel.B, A_TO_B)
      else LoadPlan(TargetChannel.INVALID, B_TO_A)
    case INVALID => LoadPlan(TargetChannel.INVALID, st)
  }

  /**
   * The channel `cancel` stops: the incoming channel of a transition whose
   * outgoing channel has not started mixing yet. Nothing is cancelled in INIT_A.
   */
  function PlanCancel(st: MixerStage, sa: TransitionStage, sb: TransitionStage): (t: TargetChannel)
    ensures t == TargetChannel.B <==> st == A_TO_B && sa == PRE
    ensures t == TargetChannel.A <==> st == B_TO_A && sb == PRE
    ensures st == INIT_A ==> t == TargetChannel.INVALID
  {
    match st
    case A_TO_B => if sa == PRE then TargetChannel.B else TargetChannel.INVALID
    case B_TO_A => if sb == PRE then TargetChannel.A else TargetChannel.INVALID
    case _ => TargetChannel.INVALID
  }

  /**
   * The direction `queue` queues a transition in, which is also the stage it
   * leaves the mixer in; INVALID when nothing can be queued. The outgoing
   * channel has always finished its previous transition, and the incoming one
   * is idle or has finished too.
   */
  function PlanQueue(st: MixerStage, hasA: bool, hasB: bool, sa: TransitionStage, sb: TransitionStage): (d: MixerStage)
    ensures d == INIT_A <==> st == INIT_A && hasA && !hasB && sa == NONE
    ensures d == A_TO_B ==> sa == POST && (sb == NONE || sb == POST) && st != INIT_A
    ensures d == B_TO_A ==> sb == POST && (sa == NONE || sa == POST) && st != INIT_A
    ensures st == A_TO_B ==> (d == A_TO_B <==> sa == POST && sb == NONE) && (d == B_TO_A <==> sa == POST && sb == POST)
    ensures st == B_TO_A ==> (d == B_TO_A <==> sa == NONE && sb == POST) && (d == A_TO_B <==> sa == POST && sb == POST)
    ensures st == MixerStage.INVALID ==> d == MixerStage.INVALID
  {
    match st
    case INIT_A =>
      if hasA && !hasB && sa == NONE then INIT_A else MixerStage.INVALID
    case A_TO_B =>
      if sa == POST && sb == NONE then A_TO_B
      else if sa == POST && sb == POST then B_TO_A
      else MixerStage.INVALID
    case B_TO_A =>
      if sa == NONE && sb == POST then B_TO_A
      else if sa == POST && sb == POST then A_TO_B
      else MixerStage.INVALID
    case INVALID => MixerStage.INVALID
  }

  /** The stage `update` moves to: A_TO_B once A has faded in and B holds a song. */
  function PlanUpdate(st: MixerStage, sa: TransitionStage, hasB: bool): (next: MixerStage)
    ensures next != st <==> st == INIT_A && sa == POST && hasB
    ensures next != st ==> next == A_TO_B
  {
    if st == INIT_A && sa == POST && hasB then A_TO_B else st
  }

  /**
   * The master channel: A in INIT_A; during a transition the outgoing channel
   * until the incoming one starts mixing, then the incoming one.
   */
  function MasterOf(st: MixerStage, sa: TransitionStage, sb: TransitionStage): (m: TargetChannel)
    ensures st == INIT_A ==> m == TargetChannel.A
    ensures st == A_TO_B ==> m != TargetChannel.INVALID && (m == TargetChannel.A <==> sb == NONE || sb == PRE)
    ensures st == B_TO_A ==> m != TargetChannel.INVALID && (m == TargetChannel.B <==> sa == NONE || sa == PRE)
    ensures st == MixerStage.INVALID ==> m == TargetChannel.INVALID
  {
    match st
    case INIT_A => TargetChannel.A
    case A_TO_B => if sb == NONE || sb == PRE then TargetChannel.A else TargetChannel.B
    case B_TO_A => if sa == NONE || sa == PRE then TargetChannel.B else TargetChannel.A
    case INVALID => TargetChannel.INVALID
  }

  /**
   * When a cancel is possible, neither a load nor a queue is: the three
   * actions the status offers never compete.
   */
  lemma CancelExcludesLoadAndQueue(st: MixerStage, hasA: bool, hasB: bool, sa: TransitionStage, sb: TransitionStage)
    requires PlanCancel(st, sa, sb) != TargetChannel.INVALID
    ensures PlanLoad(st, sa, sb).target == TargetChannel.INVALID
    ensures PlanQueue(st, hasA, hasB, sa, sb) == MixerStage.INVALID
  {
  }

  /** The last of `songs` whose file is `file`. */
  function LastWithFile(songs: seq<Option<Song>>, file: string): (r: Option<Song>)
    ensures r.Some? ==> r.value.file == file && r in songs
    ensures r.Some? ==>
      exists i :: 0 <= i < |songs| && songs[i] == r
                  && (forall j :: i < j < |songs| && songs[j].Some? ==> songs[j].value.file != file)
    ensures r.None? ==> forall i :: 0 <= i < |songs| && songs[i].Some? ==> songs[i].value.file != file
  {
    if |songs| == 0 then None
    else
      var last := songs[|songs| - 1];
      if last.Some? && last.value.file == file then last
      else
        var r := LastWithFile(songs[..|songs| - 1], file);
        assert r.Some? ==> r in songs;
        r
  }

  /**
   * A starting playback at the first bar of its selection is mixing right
   * away (or already past a reversed, empty selection).
   */
  lemma {:induction false} FadeInStartsMixing(s: Song, sel: Bars)
    ensures StageOf(Some(s), true, Some(sel), s.BarToTime(sel.0 as real)) == if sel.0 <= sel.1 then MIX else POST
  {
    TimeOfBarRoundTrip(s, sel.0 as real);
  }

  /**
   * The dst channel of a transition starts so many bars before its selection
   * as the src channel is before its own: both reach their selection starts
   * together, so one is still before its transition exactly when the other is.
   */
  lemma {:induction false} TransitionStartsAligned(src: Song, dst: Song, srcTime: real, selSrc: Bars, selDst: Bars)
    ensures var dstTime := dst.BarToTime(selDst.0 as real - (selSrc.0 as real - src.TimeToBar(srcTime)));
            && dst.TimeToBar(dstTime) - selDst.0 as real == src.TimeToBar(srcTime) - selSrc.0 as real
            && (StageOf(Some(dst), true, Some(selDst), dstTime) == PRE
                <==> StageOf(Some(src), true, Some(selSrc), srcTime) == PRE)
  {
    TimeOfBarRoundTrip(dst, selDst.0 as real - (selSrc.0 as real - src.TimeToBar(srcTime)));
  }

  class MixerFSM {
    const a: Channel
    const b: Channel
    /** The DefaultValue of every effect the mixer knows, by effect name. */
    const effectDefaults: map<string, real>
    var stage: MixerStage

    /**
     * The invariant the operations keep: channel B plays only once a
     * transition direction exists, both channels hold songs from then on, and
     * the channel a transition would start from is the one playing.
     */
    ghost predicate Valid()
      reads this, a, b
    {
      && a != b
      && stage != MixerStage.INVALID
      && (a.isPlaying ==> a.song.Some?)
      && (b.isPlaying ==> b.song.Some?)
      && (stage == INIT_A ==> !b.isPlaying)
      && (stage != INIT_A ==> a.song.Some? && b.song.Some?)
      && (stage == A_TO_B ==> a.isPlaying)
      && (stage == B_TO_A ==> b.isPlaying)
    }

    constructor (a: Channel, b: Channel, effectDefaults: map<string, real>)
      requires a != b && a.IsCleared() && b.IsCleared()
      ensures this.a == a && this.b == b && this.effectDefaults == effectDefaults
      ensures stage == INIT_A && Valid()
    {
      this.a := a;
      this.b := b;
      this.effectDefaults := effectDefaults;
      stage := INIT_A;
    }

    /**
     * load(dry=True): the channel a load would replace has either not started
     * or finished its transition, except for B while only A is mixing in.
     */
    function DryLoad(): (t: TargetChannel)
      reads this, a, b
      ensures t == TargetChannel.A ==> a.Stage() == NONE || a.Stage() == POST
      ensures t == TargetChannel.B ==> b.Stage() == NONE || b.Stage() == POST || stage == INIT_A
      ensures t == TargetChannel.INVALID <==>
                && stage != INIT_A
                && (stage == A_TO_B ==> a.Stage() != POST || (b.Stage() != NONE && b.Stage() != POST))
                && (stage == B_TO_A ==> b.Stage() != POST || (a.Stage() != NONE && a.Stage() != POST))
    {
      PlanLoad(stage, a.Stage(), b.Stage()).target
    }

    /** cancel(dry=True): the incoming channel, while the outgoing one has not started mixing. */
    function DryCancel(): (t: TargetChannel)
      reads this, a, b
      ensures t == TargetChannel.B <==> stage == A_TO_B && a.Stage() == PRE
      ensures t == TargetChannel.A <==> stage == B_TO_A && b.Stage() == PRE
    {
      PlanCancel(stage, a.Stage(), b.Stage())
    }

    /**
     * queue(dry=True): INIT_A while only A holds a song and has not started;
     * otherwise the direction away from the channel that has finished mixing in.
     */
    function DryQueue(): (d: MixerStage)
      reads this, a, b
      ensures d == INIT_A <==> stage == INIT_A && a.song.Some? && b.song.None? && a.Stage() == NONE
      ensures d == A_TO_B ==> a.Stage() == POST && (b.Stage() == NONE || b.Stage() == POST)
      ensures d == B_TO_A ==> b.Stage() == POST && (a.Stage() == NONE || a.Stage() == POST)
    {
      PlanQueue(stage, a.song.Some?, b.song.Some?, a.Stage(), b.Stage())
    }

    /** get_master_channel: the channel the listener mainly hears. */
    function MasterChannel(): (m: TargetChannel)
      reads this, a, b
      ensures stage == INIT_A ==> m == TargetChannel.A
      ensures stage == A_TO_B ==> (m == TargetChannel.A <==> b.Stage() == NONE || b.Stage() == PRE)
      ensures stage == B_TO_A ==> (m == TargetChannel.B <==> a.Stage() == NONE || a.Stage() == PRE)
      ensures stage != MixerStage.INVALID ==> m != TargetChannel.INVALID
    {
      MasterOf(stage, a.Stage(), b.Stage())
    }

    /**
     * The song `load(file)` puts in a channel: the song of the last channel
     * already holding `file`, otherwise the song read from `file` (`loaded`).
     */
    function CachedSong(file: string, loaded: Song): (s: Song)
      reads a, b
      requires loaded.file == file
      ensures s.file == file
      ensures b.song.Some? && b.song.value.file == file ==> s == b.song.value
      ensures !(b.song.Some? && b.song.value.file == file) && a.song.Some? && a.song.value.file == file ==> s == a.song.value
      ensures !(a.song.Some? && a.song.value.file == file) && !(b.song.Some? && b.song.value.file == file) ==> s == loaded
    {
      var found := LastWithFile([a.song, b.song], file);
      assert [a.song, b.song][..1] == [a.song] && [a.song][..0] == [];
      assert LastWithFile([a.song], file) == if a.song.Some? && a.song.value.file == file then a.song else None;
      if found.Some? then found.value else loaded
    }

    method FindSong(file: string, loaded: Song) returns (song: Song)
      requires loaded.file == file
      ensures song == CachedSong(file, loaded)
    {
      var songs := [a.song, b.song];
      var found: Option<Song> := None;
      for i := 0 to |songs|
        invariant found == LastWithFile(songs[..i], file)
      {
        assert songs[..i + 1][..i] == songs[..i];
        if songs[i].Some? && songs[i].value.file == file {
          found := songs[i];
        }
      }
      assert songs[..|songs|] == songs;
      song := if found.Some? then found.value else loaded;
    }

    /** update: called after every block of audio. */
    method Update()
      requires Valid()
      modifies this
      ensures Valid()
      ensures stage == PlanUpdate(old(stage), a.Stage(), b.song.Some?)
    {
      var stageA := a.Stage();
      if stage == INIT_A && stageA == POST && b.song.Some? {
        stage := A_TO_B;
      }
    }

    /**
     * load(file): loads the song into the channel DryLoad names and moves to
     * the next stage; when DryLoad is INVALID nothing changes.
     */
    method Load(file: string, loaded: Song)
      requires Valid()
      requires loaded.file == file
      modifies this, a, b
      ensures Valid()
      ensures var p := old(PlanLoad(stage, a.Stage(), b.Stage()));
              && stage == p.next
              && (p.target == TargetChannel.INVALID ==> unchanged(a) && unchanged(b))
              && (p.target == TargetChannel.A ==> a.HoldsOnly(old(CachedSong(file, loaded))) && unchanged(b))
              && (p.target == TargetChannel.B ==> b.HoldsOnly(old(CachedSong(file, loaded))) && unchanged(a))
    {
      var song := FindSong(file, loaded);
      var stageA := a.Stage();
      var stageB := b.Stage();
      if stage == INIT_A {
        if a.song.None? {
          a.Load(song);
        } else if stageA == NONE {
          a.Load(song);
        } else {
          b.Load(song);
          if stageA == POST {
            stage := A_TO_B;
          }
        }
      } else if stage == A_TO_B {
        if stageA == POST {
          if stageB == NONE {
            b.Load(song);
          } else if stageB == POST {
            a.Load(song);
            stage := B_TO_A;
          }
        }
      } else if stage == B_TO_A {
        if stageB == POST {
          if stageA == NONE {
            a.Load(song);
          } else if stageA == POST {
            b.Load(song);
            stage := A_TO_B;
          }
        }
      }
    }

    /**
     * cancel: drops the outgoing channel's queued transition and reloads the
     * incoming channel, which stops it; when DryCancel is INVALID nothing changes.
     */
    method Cancel()
      requires Valid()
      modifies a, b
      ensures Valid()
      ensures old(DryCancel()) == TargetChannel.INVALID ==> unchanged(a) && unchanged(b)
      ensures old(DryCancel()) == TargetChannel.B ==>
                && a.transition == map[] && a.transitionBars.None?
                && a.time == old(a.time) && a.song == old(a.song) && a.isPlaying == old(a.isPlaying)
                && b.HoldsOnly(old(b.song).value) && b.Stage() == NONE
      ensures old(DryCancel()) == TargetChannel.A ==>
                && b.transition == map[] && b.transitionBars.None?
                && b.time == old(b.time) && b.song == old(b.song) && b.isPlaying == old(b.isPlaying)
                && a.HoldsOnly(old(a.song).value) && a.Stage() == NONE
    {
      var stageA := a.Stage();
      var stageB := b.Stage();
      if stage == INIT_A {
        // at most one song plays: nothing to cancel
      } else if stage == A_TO_B {
        if stageA == PRE {
          a.ClearTransition();
          b.Load(b.song.value);
        }
      } else if stage == B_TO_A {
        if stageB == PRE {
          b.ClearTransition();
          a.Load(a.song.value);
        }
      }
    }

    /** Channel `c` was started as the only song, fading in over `qd`'s src selection. */
    twostate predicate FadeInStarted(qd: QueueData, c: Channel)
      requires qd.transitionSrc.Keys <= effectDefaults.Keys
      reads c
    {
      && c.song == old(c.song) && c.song.Some?
      && c.transitionBars == Some(qd.selectionSrc)
      && c.transition == TransitionFuncOf(effectDefaults, qd.transitionSrc,
                                          c.song.value.BarToTime(qd.selectionSrc.0 as real),
                                          c.song.value.BarToTime((qd.selectionSrc.1 + 1) as real), true)
      && c.isPlaying
      && c.time == c.song.value.BarToTime(qd.selectionSrc.0 as real)
    }

    /**
     * `qd` was applied from `src` to `dst`: both got their selection and
     * transition function, `src` kept playing where it was, and `dst` started
     * at the bar that lines its selection up with `src`'s.
     */
    twostate predicate TransitionApplied(qd: QueueData, src: Channel, dst: Channel)
      requires qd.transitionSrc.Keys <= effectDefaults.Keys && qd.transitionDst.Keys <= effectDefaults.Keys
      reads src, dst
    {
      && src.song == old(src.song) && src.song.Some?
      && dst.song == old(dst.song) && dst.song.Some?
      && src.time == old(src.time) && src.isPlaying == old(src.isPlaying)
      && src.transitionBars == Some(qd.selectionSrc)
      && dst.transitionBars == Some(qd.selectionDst)
      && src.transition == TransitionFuncOf(effectDefaults, qd.transitionSrc,
                                            src.song.value.BarToTime(qd.selectionSrc.0 as real),
                                            src.song.value.BarToTime((qd.selectionSrc.1 + 1) as real), false)
      && dst.transition == TransitionFuncOf(effectDefaults, qd.transitionDst,
                                            dst.song.value.BarToTime(qd.selectionDst.0 as real),
                                            dst.song.value.BarToTime((qd.selectionDst.1 + 1) as real), true)
      && dst.isPlaying
      && dst.time == dst.song.value.BarToTime(qd.selectionDst.0 as real
                                              - (qd.selectionSrc.0 as real - src.song.value.TimeToBar(src.time)))
    }

    /** _apply_transition */
    method ApplyTransition(qd: QueueData, src: Channel, dst: Channel)
      requires src != dst && src.song.Some? && dst.song.Some?
      requires qd.transitionSrc.Keys <= effectDefaults.Keys && qd.transitionDst.Keys <= effectDefaults.Keys
      modifies src, dst
      ensures TransitionApplied(qd, src, dst)
      ensures dst.song.value.TimeToBar(dst.time) - qd.selectionDst.0 as real
              == src.song.value.TimeToBar(src.time) - qd.selectionSrc.0 as real
    {
      var songSrc := src.song.value;
      var songDst := dst.song.value;
      var pa := songSrc.BarToTime(qd.selectionSrc.0 as real);
      var pb := songDst.BarToTime(qd.selectionDst.0 as real);
      var qa := songSrc.BarToTime((qd.selectionSrc.1 + 1) as real);
      var qb := songDst.BarToTime((qd.selectionDst.1 + 1) as real);
      src.transitionBars := Some(qd.selectionSrc);
      dst.transitionBars := Some(qd.selectionDst);
      src.transition := CreateTransitionFunc(effectDefaults, qd.transitionSrc, pa, qa, false);
      dst.transition := CreateTransitionFunc(effectDefaults, qd.transitionDst, pb, qb, true);
      var barsToTransition := qd.selectionSrc.0 as real - songSrc.TimeToBar(src.time);
      dst.Play(songDst.BarToTime(qd.selectionDst.0 as real - barsToTransition));
      TransitionStartsAligned(songSrc, songDst, src.time, qd.selectionSrc, qd.selectionDst);
    }

    /**
     * queue(qd): queues the transition in the direction DryQueue names and
     * moves to that stage; when DryQueue is INVALID nothing changes.
     */
    method Queue(qd: QueueData)
      requires Valid()
      requires DryQueue() != MixerStage.INVALID ==> qd.transitionSrc.Keys <= effectDefaults.Keys
      requires DryQueue() == A_TO_B || DryQueue() == B_TO_A ==> qd.transitionDst.Keys <= effectDefaults.Keys
      modifies this, a, b
      ensures Valid()
      ensures stage == if old(DryQueue()) == MixerStage.INVALID then old(stage) else old(DryQueue())
      ensures old(DryQueue()) == MixerStage.INVALID ==> unchanged(a) && unchanged(b)
      ensures old(DryQueue()) == INIT_A ==> FadeInStarted(qd, a) && unchanged(b)
      ensures old(DryQueue()) == A_TO_B ==> TransitionApplied(qd, a, b)
      ensures old(DryQueue()) == B_TO_A ==> TransitionApplied(qd, b, a)
    {
      var stageA := a.Stage();
      var stageB := b.Stage();
      var songA := a.song;
      var songB := b.song;
      if stage == INIT_A {
        if songA.Some? && songB.None? && stageA == NONE {
          // only A is loaded and stopped: start it, fading in straight away
          var p := songA.value.BarToTime(qd.selectionSrc.0 as real);
          var q := songA.value.BarToTime((qd.selectionSrc.1 + 1) as real);
          a.transitionBars := Some(qd.selectionSrc);
          a.transition := CreateTransitionFunc(effectDefaults, qd.transitionSrc, p, q, true);
          a.Play(p);
        }
      } else if stage == A_TO_B {
        if stageA == POST && stageB == NONE {
          ApplyTransition(qd, a, b);
        } else if stageA == POST && stageB == POST {
          ApplyTransition(qd, b, a);
          stage := B_TO_A;
        }
      } else if stage == B_TO_A {
        if stageA == NONE && stageB == POST {
          ApplyTransition(qd, b, a);
        } else if stageA == POST && stageB == POST {
          ApplyTransition(qd, a, b);
          stage := A_TO_B;
        }
      }
    }
  }

  /** Outside INIT_A the master channel is always a playing channel. */
  lemma MasterIsPlaying(f: MixerFSM)
    requires f.Valid() && f.stage != INIT_A
    ensures f.MasterChannel() == TargetChannel.A ==> f.a.isPlaying
    ensures f.MasterChannel() == TargetChannel.B ==> f.b.isPlaying
  {
  }

  /** `load` never interrupts a channel that is before or inside its transition. */
  lemma LoadSparesTransitions(f: MixerFSM)
    requires f.Valid()
    ensures f.DryLoad() == TargetChannel.A ==> f.a.Stage() == NONE || f.a.Stage() == POST
    ensures f.DryLoad() == TargetChannel.B ==> f.b.Stage() == NONE || f.b.Stage() == POST
  {
  }
}
