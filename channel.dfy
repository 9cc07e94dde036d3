/**
 * A mixer channel (autodj/backend/channel.py): the song it holds, its
 * playback position, whether it plays, and the transition queued on it,
 * together with the classification of that position into transition stages.
 */
module BackendChannel {
  import opened Wrappers
  import opened DjSong

  /** A transition definition: per effect name, its (relative position, value) control points. */
  type TransitionDef = map<string, seq<(real, real)>>

  /**
   * The interpolating function scipy builds for one effect: control points at
   * times `xs` with values `ys`, and the values it takes before the first and
   * after the last point.
   */
  datatype Curve = Curve(xs: seq<real>, ys: seq<real>, left: real, right: real)

  /** A transition function: one curve per effect. */
  type TransitionFunc = map<string, Curve>

  /** A bar range `[first, last]` of a song; the transition covers bars first..last inclusive. */
  type Bars = (int, int)

  /** The values an effect holds outside the transition. */
  function FillValues(fx: string, inp: bool, default: real): (bounds: (real, real))
    ensures fx == "vol" && inp ==> bounds == (0.0, 1.0)
    ensures fx == "vol" && !inp ==> bounds == (1.0, 0.0)
    ensures fx != "vol" ==> bounds == (default, default)
  {
    if fx == "vol" then (if inp then 0.0 else 1.0, if inp then 1.0 else 0.0)
    else (default, default)
  }

  /** The curve of one effect for a transition running from time `start` to `end`. */
  function CurveFor(fx: string, points: seq<(real, real)>, default: real, start: real, end: real, inp: bool): (c: Curve)
    ensures |c.xs| == |c.ys| == |points|
    ensures forall i :: 0 <= i < |points| ==> c.xs[i] == start + points[i].0 * (end - start) && c.ys[i] == points[i].1
    ensures (c.left, c.right) == FillValues(fx, inp, default)
  {
    var bounds := FillValues(fx, inp, default);
    Curve(seq(|points|, i requires 0 <= i < |points| => start + points[i].0 * (end - start)),
          seq(|points|, i requires 0 <= i < |points| => points[i].1),
          bounds.0, bounds.1)
  }

  /** The transition function `create_transition_func` computes. */
  function TransitionFuncOf(defaults: map<string, real>, trans: TransitionDef, start: real, end: real, inp: bool): (f: TransitionFunc)
    requires trans.Keys <= defaults.Keys
    ensures f.Keys == trans.Keys
  {
    map fx | fx in trans :: CurveFor(fx, trans[fx], defaults[fx], start, end, inp)
  }

  /**
   * create_transition_func: one curve per effect of `trans`, filled effect by
   * effect. `defaults` holds each effect's DefaultValue.
   */
  method CreateTransitionFunc(defaults: map<string, real>, trans: TransitionDef, start: real, end: real, inp: bool)
      returns (res: TransitionFunc)
    requires trans.Keys <= defaults.Keys
    ensures res.Keys == trans.Keys
    ensures forall fx :: fx in trans ==> res[fx] == CurveFor(fx, trans[fx], defaults[fx], start, end, inp)
    ensures res == TransitionFuncOf(defaults, trans, start, end, inp)
  {
    res := map[];
    var todo := trans.Keys;
    while todo != {}
      invariant todo <= trans.Keys
      invariant res.Keys == trans.Keys - todo
      invariant forall fx :: fx in res ==> res[fx] == CurveFor(fx, trans[fx], defaults[fx], start, end, inp)
      decreases todo
    {
      var fx :| fx in todo;
      var d := trans[fx];
      var leftBound := defaults[fx];
      var rightBound := leftBound;
      if fx == "vol" {
        leftBound := if inp then 0.0 else 1.0;
        rightBound := if inp then 1.0 else 0.0;
      }
      res := res[fx := Curve(seq(|d|, i requires 0 <= i < |d| => start + d[i].0 * (end - start)),
                             seq(|d|, i requires 0 <= i < |d| => d[i].1),
                             leftBound, rightBound)];
      todo := todo - {fx};
    }
  }

  /** The stage of a channel's transition. */
  datatype TransitionStage =
    | NONE  // the channel is not playing
    | PRE   // the queued transition has not started yet
    | MIX   // the transition is running
    | POST  // the transition is over, or none is queued

  /** The stage of a channel, from its song, playing flag, transition bars and time. */
  function StageOf(song: Option<Song>, isPlaying: bool, bars: Option<Bars>, time: real): (st: TransitionStage)
    ensures st == NONE <==> !isPlaying || song.None?
    ensures isPlaying && song.Some? && bars.None? ==> st == POST
    ensures isPlaying && song.Some? && bars.Some? ==>
      var bar := song.value.TimeToBar(time);
      && (st == PRE <==> bar < bars.value.0 as real)
      && (st == MIX <==> bars.value.0 as real <= bar < (bars.value.1 + 1) as real)
      && (st == POST <==> bars.value.0 as real <= bar && bar >= (bars.value.1 + 1) as real)
  {
    if !isPlaying || song.None? then NONE
    else if bars.None? then POST
    else
      var bar := song.value.TimeToBar(time);
      if bar < bars.value.0 as real then PRE
      else if bar >= (bars.value.1 + 1) as real then POST
      else MIX
  }

  /** Progress order of the stages of a playing channel. */
  function Rank(st: TransitionStage): nat {
    match st
    case NONE => 0
    case PRE => 1
    case MIX => 2
    case POST => 3
  }

  /**
   * While nothing but the time changes, a channel's stage only moves forward
   * as time advances: PRE, then MIX, then POST.
   */
  lemma StageAdvances(song: Option<Song>, isPlaying: bool, bars: Option<Bars>, t1: real, t2: real)
    requires t1 <= t2
    ensures Rank(StageOf(song, isPlaying, bars, t1)) <= Rank(StageOf(song, isPlaying, bars, t2))
    ensures StageOf(song, isPlaying, bars, t1) == NONE <==> StageOf(song, isPlaying, bars, t2) == NONE
  {
    if isPlaying && song.Some? && bars.Some? {
      TimeToBarMonotone(song.value, t1, t2);
    }
  }

  class Channel {
    var time: real
    var song: Option<Song>
    var transition: TransitionFunc
    var transitionBars: Option<Bars>
    var isPlaying: bool

    /** The state of a freshly constructed channel. */
    ghost predicate IsCleared()
      reads this
    {
      time == 0.0 && song.None? && transition == map[] && transitionBars.None? && !isPlaying
    }

    /** The state right after `load(s)`: only the song is set. */
    ghost predicate HoldsOnly(s: Song)
      reads this
    {
      time == 0.0 && song == Some(s) && transition == map[] && transitionBars.None? && !isPlaying
    }

    constructor ()
      ensures IsCleared()
    {
      time := 0.0;
      song := None;
      transition := map[];
      transitionBars := None;
      isPlaying := false;
    }

    /** Restores the freshly constructed state. */
    method Clear()
      modifies this
      ensures IsCleared()
    {
      time := 0.0;
      song := None;
      transition := map[];
      transitionBars := None;
      isPlaying := false;
    }

    /** Clears the channel and puts `s` in it, stopped, with nothing queued. */
    method Load(s: Song)
      modifies this
      ensures HoldsOnly(s)
      ensures Stage() == NONE
    {
      Clear();
      song := Some(s);
    }

    /** Drops the queued transition; song, time and playing flag stay. */
    method ClearTransition()
      modifies this
      ensures transition == map[] && transitionBars.None?
      ensures time == old(time) && song == old(song) && isPlaying == old(isPlaying)
    {
      transition := map[];
      transitionBars := None;
    }

    /** Starts playing at time `t`; nothing else changes. */
    method Play(t: real)
      modifies this
      ensures time == t && isPlaying
      ensures song == old(song) && transition == old(transition) && transitionBars == old(transitionBars)
    {
      time := t;
      isPlaying := true;
    }

    /**
     * The stage of the channel's transition at its current time: NONE while
     * stopped or empty, PRE before the first transition bar, MIX up to the end
     * of the last one, and POST after it or when nothing is queued.
     */
    function Stage(): (st: TransitionStage)
      reads this
      ensures st == NONE <==> !isPlaying || song.None?
      ensures isPlaying && song.Some? ==>
                (st == PRE <==> transitionBars.Some? && song.value.TimeToBar(time) < transitionBars.value.0 as real)
      ensures isPlaying && song.Some? ==>
                (st == MIX <==> transitionBars.Some? && transitionBars.value.0 as real <= song.value.TimeToBar(time)
                                                     < (transitionBars.value.1 + 1) as real)
    {
      StageOf(song, isPlaying, transitionBars, time)
    }
  }
}
