/**
 * The mixer part of the web API (autodj/dj/api.py): inverting a transition
 * definition, queueing a transition in the direction the state machine
 * allows, and the status report of the mixer. The server, the socket handlers
 * and the lock are outside the model.
 */
module DjApi {
  import opened Wrappers
  import opened DjSong
  import opened BackendChannel
  import opened BackendFsm
  import opened BackendMixer

  /** The control points of one effect, played backwards: `x` becomes `1 - x`. */
  function InvertPoints(points: seq<(real, real)>): (r: seq<(real, real)>)
    ensures |r| == |points|
    ensures forall i :: 0 <= i < |points| ==> r[i] == (1.0 - points[i].0, points[i].1)
  {
    seq(|points|, i requires 0 <= i < |points| => (1.0 - points[i].0, points[i].1))
  }

  /** An "in" transition as an "out" transition and vice versa. */
  function Inverted(trans: TransitionDef): (r: TransitionDef)
    ensures r.Keys == trans.Keys
    ensures forall fx :: fx in trans ==> r[fx] == InvertPoints(trans[fx])
  {
    map fx | fx in trans :: InvertPoints(trans[fx])
  }

  /** Inverting twice gives the definition back. */
  lemma InvertInvolution(trans: TransitionDef)
    ensures Inverted(Inverted(trans)) == trans
  {
    forall fx | fx in trans
      ensures Inverted(Inverted(trans))[fx] == trans[fx]
    {
      var p := trans[fx];
      assert InvertPoints(InvertPoints(p)) == p;
    }
  }

  /**
   * An inverted definition played as an outgoing transition is the incoming
   * one mirrored in time: the same values at mirrored times, and the volume
   * filled in with its two ends swapped.
   */
  lemma InvertedCurveMirrors(fx: string, points: seq<(real, real)>, default: real, start: real, end: real)
    ensures var cin := CurveFor(fx, points, default, start, end, true);
            var cout := CurveFor(fx, InvertPoints(points), default, start, end, false);
            && cout.ys == cin.ys
            && (forall i :: 0 <= i < |points| ==> cout.xs[i] == start + end - cin.xs[i])
            && (fx == "vol" ==> cout.left == cin.right && cout.right == cin.left)
  {
    var cin := CurveFor(fx, points, default, start, end, true);
    var cout := CurveFor(fx, InvertPoints(points), default, start, end, false);
    forall i | 0 <= i < |points|
      ensures cout.xs[i] == start + end - cin.xs[i]
    {
      var x := points[i].0;
      assert (1.0 - x) * (end - start) == (end - start) - x * (end - start);
    }
  }

  /** _invert_transition, filled effect by effect. */
  method InvertTransition(trans: TransitionDef) returns (res: TransitionDef)
    ensures res == Inverted(trans)
  {
    res := map[];
    var todo := trans.Keys;
    while todo != {}
      invariant todo <= trans.Keys
      invariant res.Keys == trans.Keys - todo
      invariant forall fx :: fx in res ==> res[fx] == InvertPoints(trans[fx])
      decreases todo
    {
      var fx :| fx in todo;
      var points := trans[fx];
      res := res[fx := seq(|points|, i requires 0 <= i < |points| => (1.0 - points[i].0, points[i].1))];
      todo := todo - {fx};
    }
  }

  /**
   * The queue data `mixer_queue` hands to the state machine for direction
   * `dir`: the outgoing channel's definition inverted and its selection
   * first; in any other direction the inputs as they came.
   */
  function QueueDataFor(dir: MixerStage, aTrans: TransitionDef, bTrans: TransitionDef, aSel: Bars, bSel: Bars): (qd: QueueData)
    ensures dir == B_TO_A ==> qd == QueueData(Inverted(bTrans), aTrans, bSel, aSel)
    ensures dir == A_TO_B ==> qd == QueueData(Inverted(aTrans), bTrans, aSel, bSel)
    ensures dir != A_TO_B && dir != B_TO_A ==> qd == QueueData(aTrans, bTrans, aSel, bSel)
  {
    match dir
    case B_TO_A => QueueData(Inverted(bTrans), aTrans, bSel, aSel)
    case A_TO_B => QueueData(Inverted(aTrans), bTrans, aSel, bSel)
    case _ => QueueData(aTrans, bTrans, aSel, bSel)
  }

  /**
   * A selection the page may leave out (it sends null for a channel without
   * a region). Where none was sent the state machine never reads it, and
   * `Unread` stands in for it.
   */
  const Unread: Bars := (0, 0)

  function Sent(sel: Option<Bars>): (b: Bars)
    ensures sel.Some? ==> b == sel.value
  {
    if sel.Some? then sel.value else Unread
  }

  /**
   * Whether queueing in direction `dir` reads a selection the page left out:
   * a fade-in reads A's, a transition between the channels reads both.
   */
  predicate SelectionMissing(dir: MixerStage, aSel: Option<Bars>, bSel: Option<Bars>) {
    || (dir == INIT_A && aSel.None?)
    || ((dir == A_TO_B || dir == B_TO_A) && (aSel.None? || bSel.None?))
  }

  /**
   * mixer_queue: the state machine queues the transition the direction calls
   * for, and each channel taking part gets its own selection. When the
   * direction needs a selection the page left out, the source fails on
   * indexing it (`raised`) before anything changes.
   */
  method MixerQueue(m: Mixer, aTrans: TransitionDef, bTrans: TransitionDef, aSel: Option<Bars>, bSel: Option<Bars>)
      returns (raised: bool)
    requires m.Valid()
    requires m.fsm.DryQueue() != MixerStage.INVALID ==> aTrans.Keys <= m.fsm.effectDefaults.Keys
    requires m.fsm.DryQueue() == A_TO_B || m.fsm.DryQueue() == B_TO_A ==> bTrans.Keys <= m.fsm.effectDefaults.Keys
    modifies m.fsm, m.a, m.b
    ensures m.Valid()
    ensures raised <==> SelectionMissing(old(m.fsm.DryQueue()), aSel, bSel)
    ensures raised ==> m.fsm.stage == old(m.fsm.stage) && unchanged(m.a) && unchanged(m.b)
    ensures !raised ==>
            var d := old(m.fsm.DryQueue());
            var qd := QueueDataFor(d, aTrans, bTrans, Sent(aSel), Sent(bSel));
            && m.fsm.stage == (if d == MixerStage.INVALID then old(m.fsm.stage) else d)
            && (d == MixerStage.INVALID ==> unchanged(m.a) && unchanged(m.b))
            && (d == INIT_A ==> m.fsm.FadeInStarted(qd, m.a) && unchanged(m.b))
            && (d == A_TO_B ==> m.fsm.TransitionApplied(qd, m.a, m.b))
            && (d == B_TO_A ==> m.fsm.TransitionApplied(qd, m.b, m.a))
            && (d != MixerStage.INVALID ==> m.a.transitionBars == aSel)
            && (d == A_TO_B || d == B_TO_A ==> m.b.transitionBars == bSel)
  {
    var dir := m.fsm.DryQueue();
    var qd: QueueData;
    if dir == B_TO_A {
      var inv := InvertTransition(bTrans);
      qd := QueueData(inv, aTrans, Sent(bSel), Sent(aSel));
    } else if dir == A_TO_B {
      var inv := InvertTransition(aTrans);
      qd := QueueData(inv, bTrans, Sent(aSel), Sent(bSel));
    } else {
      qd := QueueData(aTrans, bTrans, Sent(aSel), Sent(bSel));
    }
    if SelectionMissing(dir, aSel, bSel) {
      return true;
    }
    m.fsm.Queue(qd);
    return false;
  }

  /** What the status reports about one channel. */
  datatype ChannelStatus = ChannelStatus(time: real, file: Option<string>, isPlaying: bool, transitionBars: Option<Bars>)

  /** The three actions the status offers, as the dry operations answer them. */
  datatype Actions = Actions(load: TargetChannel, cancel: TargetChannel, queue: MixerStage)

  datatype Status = Status(time: real, bpm: real, channels: seq<ChannelStatus>, actions: Actions,
                           stage: MixerStage, master: TargetChannel)

  function ChannelStatusOf(c: Channel): (s: ChannelStatus)
    reads c
    ensures s.file.Some? <==> c.song.Some?
    ensures s.file.Some? ==> s.file.value == c.song.value.file
    ensures s.time == c.time && s.isPlaying == c.isPlaying && s.transitionBars == c.transitionBars
  {
    ChannelStatus(c.time, if c.song.Some? then Some(c.song.value.file) else None, c.isPlaying, c.transitionBars)
  }

  /**
   * mixer_status: a snapshot of both channels, the global clock, and the
   * dry answers of load, cancel and queue. The master is always a channel,
   * and an offered cancel rules out the other two actions.
   */
  method MixerStatus(m: Mixer) returns (s: Status)
    requires m.Valid()
    ensures s.channels == [ChannelStatusOf(m.a), ChannelStatusOf(m.b)]
    ensures s.time == m.globalTime && s.bpm == m.globalBpm
    ensures s.actions == Actions(m.fsm.DryLoad(), m.fsm.DryCancel(), m.fsm.DryQueue())
    ensures s.stage == m.fsm.stage && s.master == m.fsm.MasterChannel()
    ensures s.stage != MixerStage.INVALID && s.master != TargetChannel.INVALID
    ensures s.actions.cancel != TargetChannel.INVALID ==>
              s.actions.load == TargetChannel.INVALID && s.actions.queue == MixerStage.INVALID
  {
    var chans := [m.a, m.b];
    var channels: seq<ChannelStatus> := [];
    for i := 0 to |chans|
      invariant |channels| == i
      invariant forall k :: 0 <= k < i ==> channels[k] == ChannelStatusOf(chans[k])
    {
      channels := channels + [ChannelStatusOf(chans[i])];
    }
    var actions := Actions(m.fsm.DryLoad(), m.fsm.DryCancel(), m.fsm.DryQueue());
    if actions.cancel != TargetChannel.INVALID {
      CancelExcludesLoadAndQueue(m.fsm.stage, m.a.song.Some?, m.b.song.Some?, m.a.Stage(), m.b.Stage());
    }
    s := Status(m.globalTime, m.globalBpm, channels, actions, m.fsm.stage, m.fsm.MasterChannel());
  }
}
