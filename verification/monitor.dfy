/** The hill climbing on load_admit, over real numbers and for arbitrary measurements. */
module Monitor {

  const STEP: real := 0.01
  /** Recorded for settings outside [0, 1], worse than any measurement. */
  const NONE: real := -0.1

  /** How far above its base the miss ratio must be for the workload to count as changed. */
  const WORKLOAD_CHANGE: real := 0.2

  /** No check of the miss ratio showed a changed workload. */
  predicate Steady(base: real, ratios: seq<real>) {
    forall i :: 0 <= i < |ratios| ==> ratios[i] <= base + WORKLOAD_CHANGE
  }

  /** The last check showed a changed workload, and no earlier one did. */
  predicate Changed(base: real, ratios: seq<real>) {
    ratios != [] && ratios[|ratios| - 1] > base + WORKLOAD_CHANGE && Steady(base, ratios[..|ratios| - 1])
  }

  lemma SteadyMore(base: real, a: seq<real>, b: seq<real>)
    requires Steady(base, a)
    ensures Steady(base, b) ==> Steady(base, a + b)
    ensures Changed(base, b) ==> Changed(base, a + b)
  {
    if Changed(base, b) { assert (a + b)[..|a + b| - 1] == a + b[..|b| - 1]; }
  }

  /** A setting and the throughput measured for it. */
  datatype Sample = Sample(la: real, tp: real)

  predicate InRange(la: real) {
    0.0 <= la <= 1.0
  }

  /** What is recorded about three neighbouring settings. */
  datatype Window = Window(la1: real, la2: real, la3: real, tp1: real, tp2: real, tp3: real)

  /** Settings are a step apart, the middle one is in range, and those out of range are marked. */
  predicate WindowOK(w: Window) {
    && w.la1 == w.la2 - STEP && w.la3 == w.la2 + STEP && InRange(w.la2)
    && w.tp2 >= 0.0
    && (if w.la1 < 0.0 then w.tp1 == NONE else w.tp1 >= 0.0)
    && (if w.la3 > 1.0 then w.tp3 == NONE else w.tp3 >= 0.0)
  }

  /** The record of a setting stems from this round. */
  predicate Recorded(round: seq<Sample>, la: real, tp: real) {
    InRange(la) ==> Sample(la, tp) in round
  }

  /** The window shows records of this round, the best one among them. */
  ghost predicate Shows(round: seq<Sample>, w: Window) {
    && Recorded(round, w.la1, w.tp1) && Recorded(round, w.la2, w.tp2) && Recorded(round, w.la3, w.tp3)
    && forall s :: s in round ==> s.tp <= w.tp1 || s.tp <= w.tp2 || s.tp <= w.tp3
  }

  /** The setting k steps further on. */
  function Away(la: real, k: nat, step: real): real {
    if k == 0 then la else Away(la, k - 1, step) + step
  }

  /** Steps in one direction, each to a setting with a strictly better record. */
  predicate Climb(path: seq<Sample>, step: real) {
    && (forall i :: 0 <= i < |path| ==> path[i].la == Away(path[0].la, i, step))
    && (forall i, j :: 0 <= i < j < |path| ==> path[i].tp < path[j].tp)
  }

  /** One step after the other, the first one from base. */
  predicate Ladder(base: real, t: seq<real>, step: real) {
    forall i :: 0 <= i < |t| ==> t[i] == Away(base, i + 1, step)
  }

  function Top(base: real, t: seq<real>): real {
    if t == [] then base else t[|t| - 1]
  }

  /** Measured this round, at least as good as everything measured, as its neighbours were. */
  ghost predicate Peaked(round: seq<Sample>, la: real, best: real) {
    && Sample(la, best) in round
    && (forall s :: s in round ==> s.tp <= best)
    && (InRange(la - STEP) ==> exists s :: s in round && s.la == la - STEP)
    && (InRange(la + STEP) ==> exists s :: s in round && s.la == la + STEP)
  }

  lemma {:induction false} AwayHeight(la: real, k: nat, step: real)
    requires step == STEP || step == -STEP
    ensures Away(la, k, step) == if step == STEP then la + (k as real) * STEP else la - (k as real) * STEP
  {
    if k > 0 { AwayHeight(la, k - 1, step); }
  }

  /** A path in [0, 1] has at most 100 steps. */
  lemma ClimbLength(path: seq<Sample>, step: real)
    requires path != [] && Climb(path, step) && (step == STEP || step == -STEP)
    requires forall i :: 0 <= i < |path| ==> InRange(path[i].la)
    ensures |path| <= 101
  {
    AwayHeight(path[0].la, |path| - 1, step);
    assert path[|path| - 1].la == Away(path[0].la, |path| - 1, step);
  }

  // ----- what a peak is worth -----

  /** Throughput as a function of the setting has diminishing returns. */
  ghost predicate Concave(f: real -> real) {
    forall x :: InRange(x - STEP) && InRange(x + STEP) ==> f(x - STEP) + f(x + STEP) <= f(x) + f(x)
  }

  lemma AwayFar(la: real, k: nat, step: real, i: nat)
    requires InRange(la) && (step == STEP || step == -STEP) && InRange(Away(la, k, step)) && i <= k
    ensures InRange(Away(la, i, step))
  {
    AwayHeight(la, k, step);
    AwayHeight(la, i, step);
  }

  /** Going on in a direction that did not pay off at first never pays off. */
  lemma {:induction false} Descends(f: real -> real, la: real, k: nat, step: real)
    requires Concave(f) && InRange(la) && (step == STEP || step == -STEP)
    requires InRange(la + step) ==> f(la + step) <= f(la)
    requires InRange(Away(la, k, step))
    ensures f(Away(la, k, step)) <= f(la)
    ensures k > 0 ==> f(Away(la, k, step)) <= f(Away(la, k - 1, step))
  {
    if k == 1 {
      assert Away(la, 1, step) == Away(la, 0, step) + step == la + step;
    } else if k > 1 {
      AwayFar(la, k, step, k - 1);
      AwayFar(la, k, step, k - 2);
      Descends(f, la, k - 1, step);
      var x := Away(la, k - 1, step);
      assert x == Away(la, k - 2, step) + step && InRange(x) && InRange(Away(la, k - 2, step));
      assert InRange(x - STEP) && InRange(x + STEP);
    }
  }

  /** Local search finds the best setting there is if throughput is repeatable and has diminishing returns. */
  lemma PeakIsBest(f: real -> real, round: seq<Sample>, la: real, best: real, k: nat, step: real)
    requires Concave(f) && InRange(la) && Peaked(round, la, best)
    requires forall s :: s in round ==> s.tp == f(s.la)
    requires (step == STEP || step == -STEP) && InRange(Away(la, k, step))
    ensures f(Away(la, k, step)) <= best == f(la)
  {
    assert Sample(la, best).tp == f(Sample(la, best).la);
    if InRange(la + step) {
      var s :| s in round && s.la == la + step;
      assert s.tp <= best;
    }
    Descends(f, la, k, step);
  }

  // ----- one search -----

  /** A search under way: this round's measurements, its settings, its window, the path of its middles. */
  datatype Search = Search(round: seq<Sample>, t: seq<real>, w: Window, path: seq<Sample>, step: real)

  ghost predicate PathOK(round: seq<Sample>, w0: Window, path: seq<Sample>, step: real) {
    && path != [] && path[0] == Sample(w0.la2, w0.tp2)
    && (forall i :: 0 <= i < |path| ==> path[i] in round)
    && (step == STEP || step == -STEP) && Climb(path, step)
  }

  ghost predicate SearchOK(x: Search, w0: Window) {
    && WindowOK(x.w) && Shows(x.round, x.w)
    && PathOK(x.round, w0, x.path, x.step) && x.path[|x.path| - 1] == Sample(x.w.la2, x.w.tp2)
    && (|x.path| > 1 ==> if x.step == STEP then x.w.tp1 <= x.w.tp2 else x.w.tp3 <= x.w.tp2)
    && Ladder(w0.la2 + x.step, x.t, x.step)
    && (|x.path| == 1 ==> x.t == [])
    && (InRange(x.w.la2 + x.step) ==> Top(w0.la2 + x.step, x.t) == x.w.la2 + x.step)
  }

  lemma TopAway(base: real, t: seq<real>, step: real)
    requires Ladder(base, t, step)
    ensures Top(base, t) == Away(base, |t|, step)
  {
  }

  function Begun(round: seq<Sample>, w0: Window): Search {
    Search(round, [], w0, [Sample(w0.la2, w0.tp2)], STEP)
  }

  lemma BegunOK(round: seq<Sample>, w0: Window)
    requires WindowOK(w0) && Shows(round, w0)
    ensures SearchOK(Begun(round, w0), w0)
  {
  }

  lemma ClimbMore(path: seq<Sample>, step: real, s: Sample)
    requires path != [] && Climb(path, step) && s.la == path[|path| - 1].la + step && path[|path| - 1].tp < s.tp
    ensures Climb(path + [s], step)
  {
    var k := |path|;
    assert path[k - 1].la == Away(path[0].la, k - 1, step);
    assert Away(path[0].la, k, step) == s.la;
    var p := path + [s];
    forall i, j | 0 <= i < j < |p| ensures p[i].tp < p[j].tp {
      if j == k { assert i < k - 1 ==> path[i].tp < path[k - 1].tp; }
    }
  }

  lemma ClimbOn(round: seq<Sample>, w0: Window, path: seq<Sample>, step: real, s: Sample, step': real)
    requires PathOK(round, w0, path, step) && (step' == STEP || step' == -STEP) && (|path| > 1 ==> step' == step)
    requires s in round && s.la == path[|path| - 1].la + step' && path[|path| - 1].tp < s.tp
    ensures PathOK(round, w0, path + [s], step')
  {
    if |path| == 1 { assert Climb(path, step'); }
    ClimbMore(path, step', s);
  }

  predicate GoesUp(w: Window) {
    !(w.tp2 >= w.tp1 && w.tp2 >= w.tp3) && w.tp3 >= w.tp1 && w.tp3 >= w.tp2
  }

  predicate GoesDown(w: Window) {
    !(w.tp2 >= w.tp1 && w.tp2 >= w.tp3) && !(w.tp3 >= w.tp1 && w.tp3 >= w.tp2)
  }

  /** The path after one more shift. */
  function Further(x: Search): seq<Sample> {
    x.path + [if GoesUp(x.w) then Sample(x.w.la3, x.w.tp3) else Sample(x.w.la1, x.w.tp1)]
  }

  /** The middle setting has the best record. */
  predicate Stays(w: Window) {
    w.tp2 >= w.tp1 && w.tp2 >= w.tp3
  }

  function PathAfter(x: Search): seq<Sample> {
    if Stays(x.w) then x.path else Further(x)
  }

  function StepAfter(x: Search): real {
    if Stays(x.w) then x.step else Way(x.w)
  }

  function Way(w: Window): real {
    if GoesUp(w) then STEP else -STEP
  }

  /** The search never turns round, and the next setting is in range. */
  lemma FurtherOK(x: Search, w0: Window)
    requires SearchOK(x, w0) && (GoesUp(x.w) || GoesDown(x.w))
    ensures |x.path| > 1 ==> Way(x.w) == x.step
    ensures InRange(x.w.la2 + Way(x.w)) && PathOK(x.round, w0, Further(x), Way(x.w))
  {
    var s := if GoesUp(x.w) then Sample(x.w.la3, x.w.tp3) else Sample(x.w.la1, x.w.tp1);
    ClimbOn(x.round, w0, x.path, x.step, s, Way(x.w));
  }

  lemma LadderOn(base: real, t: seq<real>, step: real, la: real)
    requires Ladder(base, t, step) && la == Top(base, t) + step
    ensures Ladder(base, t + [la], step) && Top(base, t + [la]) == la
  {
    TopAway(base, t, step);
    assert Away(base, |t| + 1, step) == la;
  }

  /** The search after one more shift, to window w. */
  function Shifted(x: Search, w: Window): Search {
    Search(x.round + Fresh(w, Way(x.w)), x.t + Settings(Fresh(w, Way(x.w))), w, Further(x), Way(x.w))
  }

  /** One shift: the window moves on, a new neighbour is measured if there is one. */
  lemma ShiftOK(x: Search, w0: Window, w: Window)
    requires SearchOK(x, w0) && (GoesUp(x.w) || GoesDown(x.w)) && WindowOK(w)
    requires if GoesUp(x.w) then w.la2 == x.w.la3 && w.tp2 == x.w.tp3 && w.tp1 == x.w.tp2
             else w.la2 == x.w.la1 && w.tp2 == x.w.tp1 && w.tp3 == x.w.tp2
    ensures SearchOK(Shifted(x, w), w0)
  {
    FurtherOK(x, w0);
    var step, more := Way(x.w), Fresh(w, Way(x.w));
    ShiftShows(x, w);
    ShiftLadder(x, w0, w);
    var x' := Shifted(x, w);
    assert PathOK(x'.round, w0, x'.path, x'.step);
    assert x'.path[|x'.path| - 1] == Sample(x'.w.la2, x'.w.tp2);
  }

  /** The search has come to the top of its ladder, seen from where it goes now. */
  lemma LadderHere(x: Search, w0: Window)
    requires SearchOK(x, w0) && (GoesUp(x.w) || GoesDown(x.w))
    ensures Ladder(w0.la2 + Way(x.w), x.t, Way(x.w)) && Top(w0.la2 + Way(x.w), x.t) == x.w.la2 + Way(x.w)
  {
    FurtherOK(x, w0);
  }

  lemma ShiftLadder(x: Search, w0: Window, w: Window)
    requires SearchOK(x, w0) && (GoesUp(x.w) || GoesDown(x.w)) && WindowOK(w) && w.la2 == x.w.la2 + Way(x.w)
    ensures var step, t := Way(x.w), x.t + Settings(Fresh(w, Way(x.w)));
      Ladder(w0.la2 + step, t, step) && (InRange(w.la2 + step) ==> Top(w0.la2 + step, t) == w.la2 + step)
  {
    var step, more := Way(x.w), Fresh(w, Way(x.w));
    LadderHere(x, w0);
    if more != [] {
      LadderOn(w0.la2 + step, x.t, step, w.la2 + step);
      assert x.t + Settings(more) == x.t + [w.la2 + step];
    } else {
      assert x.t + Settings(more) == x.t;
    }
  }

  /** The path led to the best of all settings measured, and the settings taken are those beyond its steps. */
  ghost predicate Found(round: seq<Sample>, t: seq<real>, w0: Window, path: seq<Sample>, step: real, best: real) {
    && PathOK(round, w0, path, step) && |path| <= 101 && t != []
    && path[|path| - 1] == Sample(t[|t| - 1], best) && Peaked(round, t[|t| - 1], best)
    && Ladder(w0.la2 + step, t[..|t| - 1], step)
  }

  /** The middle setting is the best. */
  lemma StopOK(x: Search, w0: Window)
    requires SearchOK(x, w0) && x.w.tp2 >= x.w.tp1 && x.w.tp2 >= x.w.tp3 && |x.path| <= 101
    ensures Found(x.round, x.t + [x.w.la2], w0, x.path, x.step, x.w.tp2)
  {
    WindowPeak(x, x.w.la2, x.w.tp2);
    EndFound(x.round, x.t, w0, x.path, x.step, x.w.la2, x.w.tp2);
  }

  lemma WindowPeak(x: Search, la: real, best: real)
    requires Shows(x.round, x.w) && WindowOK(x.w) && best >= x.w.tp1 && best >= x.w.tp2 && best >= x.w.tp3 && InRange(la)
    requires Sample(la, best) in {Sample(x.w.la1, x.w.tp1), Sample(x.w.la2, x.w.tp2), Sample(x.w.la3, x.w.tp3)}
    requires la == x.w.la2 || (la == x.w.la1 && la <= 0.0) || (la == x.w.la3 && la >= 1.0)
    ensures Peaked(x.round, la, best)
  {
    assert InRange(x.w.la1) ==> Sample(x.w.la1, x.w.tp1) in x.round;
    assert InRange(x.w.la2) ==> Sample(x.w.la2, x.w.tp2) in x.round;
    assert InRange(x.w.la3) ==> Sample(x.w.la3, x.w.tp3) in x.round;
    assert InRange(la + STEP) ==> la + STEP == x.w.la2 || la + STEP == x.w.la3;
    assert InRange(la - STEP) ==> la - STEP == x.w.la2 || la - STEP == x.w.la1;
  }

  /** The best setting is the end of the range. */
  lemma EdgeOK(x: Search, w0: Window)
    requires SearchOK(x, w0) && |Further(x)| <= 101
    requires (GoesUp(x.w) && x.w.la3 >= 1.0) || (GoesDown(x.w) && x.w.la1 <= 0.0)
    ensures if GoesUp(x.w) then x.w.la3 == 1.0 else x.w.la1 == 0.0
    ensures if GoesUp(x.w) then Found(x.round, x.t + [1.0], w0, Further(x), STEP, x.w.tp3)
            else Found(x.round, x.t + [0.0], w0, Further(x), -STEP, x.w.tp1)
  {
    FurtherOK(x, w0);
    LadderHere(x, w0);
    if GoesUp(x.w) {
      WindowPeak(x, 1.0, x.w.tp3);
      EndFound(x.round, x.t, w0, Further(x), STEP, 1.0, x.w.tp3);
    } else {
      WindowPeak(x, 0.0, x.w.tp1);
      EndFound(x.round, x.t, w0, Further(x), -STEP, 0.0, x.w.tp1);
    }
  }

  lemma EndFound(round: seq<Sample>, t: seq<real>, w0: Window, path: seq<Sample>, step: real, la: real, best: real)
    requires PathOK(round, w0, path, step) && |path| <= 101 && path[|path| - 1] == Sample(la, best)
    requires Peaked(round, la, best) && Ladder(w0.la2 + step, t, step)
    ensures Found(round, t + [la], w0, path, step, best)
  {
    assert (t + [la])[..|t|] == t;
  }

  lemma ShiftShows(x: Search, w: Window)
    requires Shows(x.round, x.w) && (GoesUp(x.w) || GoesDown(x.w)) && WindowOK(x.w) && WindowOK(w)
    requires if GoesUp(x.w) then w.la2 == x.w.la3 && w.tp2 == x.w.tp3 && w.tp1 == x.w.tp2
             else w.la2 == x.w.la1 && w.tp2 == x.w.tp1 && w.tp3 == x.w.tp2
    ensures Shows(x.round + Fresh(w, Way(x.w)), w)
  {
  }

  /** What a shift measures. */
  function Fresh(w: Window, step: real): seq<Sample> {
    if step == STEP then if w.la3 <= 1.0 then [Sample(w.la3, w.tp3)] else []
    else if w.la1 >= 0.0 then [Sample(w.la1, w.tp1)] else []
  }

  function Settings(s: seq<Sample>): seq<real> {
    if s == [] then [] else [s[0].la]
  }

  // ----- the search -----

  /** Why the search ended, and with what record. */
  datatype Result = Quit | Settled(best: real)

  datatype Outcome = StillTuning | WorkloadChanged | StaysFull

  /** A finished round: its measurements are those from one number up to another. */
  datatype Round = Round(from: nat, upto: nat, la: real, best: real)

  ghost predicate RoundsOK(log: seq<Sample>, first: nat, rounds: seq<Round>) {
    && (forall i :: 0 <= i < |rounds| ==> rounds[i].from <= rounds[i].upto <= |log|)
    && (forall i :: 0 <= i < |rounds| ==> Peaked(log[rounds[i].from..rounds[i].upto], rounds[i].la, rounds[i].best))
    && (forall i :: 0 <= i < |rounds| ==> rounds[i].from == if i == 0 then first else rounds[i - 1].upto)
  }

  /** How many rounds ended on a full load. */
  function Fulls(rounds: seq<Round>): nat {
    if rounds == [] then 0 else Fulls(rounds[..|rounds| - 1]) + Full(rounds[|rounds| - 1].la)
  }

  function Full(la: real): nat {
    if la == 1.0 then 1 else 0
  }

  lemma FullsMore(rounds: seq<Round>, r: Round)
    ensures Fulls(rounds + [r]) == Fulls(rounds) + Full(r.la)
  {
    assert (rounds + [r])[..|rounds|] == rounds;
  }

  lemma RoundsKept(log: seq<Sample>, more: seq<Sample>, first: nat, rounds: seq<Round>)
    requires RoundsOK(log, first, rounds) && log <= more
    ensures RoundsOK(more, first, rounds)
  {
    forall i | 0 <= i < |rounds| ensures more[rounds[i].from..rounds[i].upto] == log[rounds[i].from..rounds[i].upto] {}
  }

  lemma OneMoreRound(log: seq<Sample>, more: seq<Sample>, first: nat, rounds: seq<Round>, la: real, best: real)
    requires RoundsOK(log, first, rounds) && |log| == (if rounds == [] then first else rounds[|rounds| - 1].upto)
    requires log <= more && Peaked(more[|log|..], la, best)
    ensures RoundsOK(more, first, rounds + [Round(|log|, |more|, la, best)])
  {
    assert more[|log|..] == more[|log|..|more|];
    RoundsKept(log, more, first, rounds);
  }

  /** The log and the settings taken are there for the specification only. */
  class Tuner {
    var loadAdmit: real
    /** All settings that ever took effect, in order. */
    ghost var taken: seq<real>
    /** All measurements, in order. */
    ghost var log: seq<Sample>
    /** What the checks of the miss ratio found, in order. */
    ghost var ratios: seq<real>

    ghost predicate Valid()
      reads this
    {
      && taken != [] && taken[|taken| - 1] == loadAdmit
      && (forall la :: la in taken ==> InRange(la))
      && (forall s :: s in log ==> InRange(s.la))
    }

    constructor ()
      ensures Valid() && loadAdmit == 1.0 && taken == [1.0] && log == [] && ratios == []
    {
      loadAdmit, taken, log, ratios := 1.0, [1.0], [], [];
    }

    /** No caller may ask for a setting out of range. */
    method SetLoadAdmit(la: real)
      requires Valid() && InRange(la)
      modifies this`loadAdmit, this`taken
      ensures Valid() && loadAdmit == la && taken == old(taken) + [la]
    {
      loadAdmit, taken := la, taken + [la];
    }

    /** Let a setting work for a while; the outcome is anything that is not negative. */
    method Measure(la: real) returns (tp: real)
      requires Valid() && InRange(la)
      modifies this`loadAdmit, this`taken, this`log
      ensures Valid() && tp >= 0.0 && log == old(log) + [Sample(la, tp)]
      ensures loadAdmit == la && taken == old(taken) + [la]
    {
      SetLoadAdmit(la);
      tp := *;
      if tp < 0.0 { tp := 0.0; }
      log := log + [Sample(la, tp)];
    }

    method MissRatioTooHigh(base: real, ghost since: nat) returns (high: bool)
      requires Valid() && since <= |ratios| && Steady(base, ratios[since..])
      modifies this`ratios
      ensures Valid() && old(ratios) <= ratios && |ratios| == |old(ratios)| + 1
      ensures if high then Changed(base, ratios[since..]) else Steady(base, ratios[since..])
    {
      var ratio: real := *;
      ratios := ratios + [ratio];
      assert old(ratios[since..]) + [ratio] == ratios[since..];
      SteadyMore(base, old(ratios[since..]), [ratio]);
      high := ratio > base + WORKLOAD_CHANGE;
    }

    method OpenWindow() returns (w: Window)
      requires Valid()
      modifies this`loadAdmit, this`taken, this`log
      ensures Valid() && WindowOK(w) && w.la2 == old(loadAdmit) == loadAdmit
      ensures old(log) <= log && old(taken) <= taken && Shows(log[|old(log)|..], w)
    {
      ghost var from := |log|;
      var la2 := loadAdmit;
      var tp2 := Measure(la2);
      var la3 := la2 + STEP;
      var tp3 := NONE;
      if la3 <= 1.0 { tp3 := Measure(la3); }
      var la1 := la2 - STEP;
      var tp1 := NONE;
      if la1 >= 0.0 { tp1 := Measure(la1); }
      SetLoadAdmit(la2);
      w := Window(la1, la2, la3, tp1, tp2, tp3);
      assert log[from..] == [Sample(la2, tp2)] + (if la3 <= 1.0 then [Sample(la3, tp3)] else []) +
                            (if la1 >= 0.0 then [Sample(la1, tp1)] else []);
    }

    /** Search x is the one going on since measurement number from and setting number was. */
    ghost predicate Doing(x: Search, w0: Window, from: nat, was: nat)
      reads this
    {
      from <= |log| && was <= |taken| && x.round == log[from..] && x.t == taken[was..] && SearchOK(x, w0)
    }

    lemma FurtherLength(x: Search, w0: Window, from: nat, was: nat)
      requires Valid() && Doing(x, w0, from, was) && (GoesUp(x.w) || GoesDown(x.w))
      ensures |Further(x)| <= 101
    {
      FurtherOK(x, w0);
      PathLength(Further(x), w0, Way(x.w), from);
    }

    /** The middle setting is the best. */
    method Stay(ghost x: Search, ghost w0: Window, ghost from: nat, ghost was: nat, w: Window)
      requires Valid() && Doing(x, w0, from, was) && x.w == w && w.tp2 >= w.tp1 && w.tp2 >= w.tp3
      modifies this`loadAdmit, this`taken
      ensures Valid() && old(taken) <= taken
      ensures Found(log[from..], taken[was..], w0, x.path, x.step, w.tp2)
    {
      PathLength(x.path, w0, x.step, from);
      StopOK(x, w0);
      Settle(w.la2, x.t, w0, x.path, x.step, w.tp2, from, was);
    }

    /** The higher setting is better: move on to it, or stop there at the end of the range. */
    method GoUp(ghost x: Search, ghost w0: Window, ghost from: nat, ghost was: nat, w: Window) returns (done: bool, w': Window)
      requires Valid() && Doing(x, w0, from, was) && x.w == w && GoesUp(w)
      modifies this`loadAdmit, this`taken, this`log
      ensures Valid() && old(log) <= log && old(taken) <= taken && (done ==> from <= |log|)
      ensures if done then Found(log[from..], taken[was..], w0, Further(x), STEP, w.tp3) && loadAdmit == 1.0
              else Doing(Shifted(x, w'), w0, from, was) && w'.la2 == w.la3
    {
      w' := w;
      FurtherLength(x, w0, from, was);
      if w.la3 >= 1.0 {
        EdgeOK(x, w0);
        Settle(1.0, x.t, w0, Further(x), STEP, w.tp3, from, was);
        return true, w';
      }
      w' := ShiftUp(x, w0, from, was, w);
      done := false;
    }

    method ShiftUp(ghost x: Search, ghost w0: Window, ghost from: nat, ghost was: nat, w: Window) returns (w': Window)
      requires Valid() && Doing(x, w0, from, was) && x.w == w && GoesUp(w) && w.la3 < 1.0
      modifies this`loadAdmit, this`taken, this`log
      ensures Valid() && Doing(Shifted(x, w'), w0, from, was) && w'.la2 == w.la3
      ensures old(log) <= log && old(taken) <= taken
    {
      var la3 := w.la3 + STEP;
      var tp3 := NONE;
      if la3 <= 1.0 { tp3 := Measure(la3); }
      w' := Window(w.la2, w.la3, la3, w.tp2, w.tp3, tp3);
      ShiftOK(x, w0, w');
    }

    /** The lower setting is better. */
    method GoDown(ghost x: Search, ghost w0: Window, ghost from: nat, ghost was: nat, w: Window) returns (done: bool, w': Window)
      requires Valid() && Doing(x, w0, from, was) && x.w == w && GoesDown(w)
      modifies this`loadAdmit, this`taken, this`log
      ensures Valid() && old(log) <= log && old(taken) <= taken && (done ==> from <= |log|)
      ensures if done then Found(log[from..], taken[was..], w0, Further(x), -STEP, w.tp1) && loadAdmit == 0.0
              else Doing(Shifted(x, w'), w0, from, was) && w'.la2 == w.la1
    {
      w' := w;
      FurtherLength(x, w0, from, was);
      if w.la1 <= 0.0 {
        EdgeOK(x, w0);
        Settle(0.0, x.t, w0, Further(x), -STEP, w.tp1, from, was);
        return true, w';
      }
      w' := ShiftDown(x, w0, from, was, w);
      done := false;
    }

    method ShiftDown(ghost x: Search, ghost w0: Window, ghost from: nat, ghost was: nat, w: Window) returns (w': Window)
      requires Valid() && Doing(x, w0, from, was) && x.w == w && GoesDown(w) && w.la1 > 0.0
      modifies this`loadAdmit, this`taken, this`log
      ensures Valid() && Doing(Shifted(x, w'), w0, from, was) && w'.la2 == w.la1
      ensures old(log) <= log && old(taken) <= taken
    {
      var la1 := w.la1 - STEP;
      var tp1 := NONE;
      if la1 >= 0.0 { tp1 := Measure(la1); }
      w' := Window(la1, w.la1, w.la2, tp1, w.tp1, w.tp2);
      ShiftOK(x, w0, w');
    }

    /** One turn of the loop: the search ends, or it goes on from the next window. */
    method Turn(ghost x: Search, ghost w0: Window, ghost from: nat, ghost was: nat, w: Window)
      returns (done: bool, w': Window, best: real)
      requires Valid() && Doing(x, w0, from, was) && x.w == w
      modifies this`loadAdmit, this`taken, this`log
      ensures Valid() && old(log) <= log && old(taken) <= taken && (done ==> from <= |log|)
      ensures if done then Found(log[from..], taken[was..], w0, PathAfter(x), StepAfter(x), best)
              else Doing(Shifted(x, w'), w0, from, was) && Shifted(x, w').w == w' && PathAfter(x) == Further(x)
      ensures done && !Stays(w) ==> loadAdmit == 0.0 || loadAdmit == 1.0
    {
      if w.tp2 >= w.tp1 && w.tp2 >= w.tp3 {
        done, w', best := true, w, w.tp2;
        Stay(x, w0, from, was, w);
      } else if w.tp3 >= w.tp1 && w.tp3 >= w.tp2 {
        best := w.tp3;
        done, w' := GoUp(x, w0, from, was, w);
      } else {
        assert w.tp1 >= w.tp2 && w.tp1 >= w.tp3;
        best := w.tp1;
        done, w' := GoDown(x, w0, from, was, w);
      }
    }

    lemma PathLength(path: seq<Sample>, w0: Window, step: real, from: nat)
      requires Valid() && from <= |log| && PathOK(log[from..], w0, path, step)
      ensures |path| <= 101
    {
      ClimbLength(path, step);
    }

    /**
     Follow the slope.  All shifts go in one direction, each to a strictly better record, at most 100 of
     them; settings taken on the way are those just beyond the path, one after the other.  The miss ratio
     is checked once for each setting on the path, except for the end of the range.  The search gives up
     if and only if a check shows a changed workload; else it ends on the best of all settings measured
     this round.
     */
    method FollowSlope(base: real, w0: Window, ghost from: nat) returns (res: Result, ghost path: seq<Sample>, ghost step: real)
      requires Valid() && WindowOK(w0) && from <= |log| && Shows(log[from..], w0)
      modifies this
      ensures Valid() && old(log) <= log && old(taken) <= taken
      ensures res.Quit? ==> PathOK(log[from..], w0, path, step) && |path| <= 101
      ensures res.Quit? ==> Ladder(w0.la2 + step, taken[|old(taken)|..], step)
      ensures res.Settled? ==> Found(log[from..], taken[|old(taken)|..], w0, path, step, res.best)
      ensures old(ratios) <= ratios && |old(ratios)| < |ratios|
      ensures if res.Quit? then Changed(base, ratios[|old(ratios)|..]) else Steady(base, ratios[|old(ratios)|..])
      ensures |ratios| == |old(ratios)| + |path| ||
              (res.Settled? && (loadAdmit == 0.0 || loadAdmit == 1.0) && |ratios| == |old(ratios)| + |path| - 1)
    {
      var w, best := w0, w0.tp2;
      ghost var x := Begun(log[from..], w0);
      BegunOK(x.round, w0);
      ghost var was, since := |taken|, |ratios|;
      while true
        invariant Valid() && Doing(x, w0, from, was) && x.w == w
        invariant old(log) <= log && old(taken) <= taken
        invariant old(ratios) <= ratios && |ratios| == since + |x.path| - 1 && Steady(base, ratios[since..])
        decreases 101 - |x.path|
      {
        path, step := x.path, x.step;
        PathLength(path, w0, step, from);
        var high := MissRatioTooHigh(base, since);
        if high { return Quit, path, step; }
        path, step := PathAfter(x), StepAfter(x);
        var done;
        done, w, best := Turn(x, w0, from, was, w);
        if done { break; }
        x := Shifted(x, w);
      }
      return Settled(best), path, step;
    }

    /** Take the final setting, of which everything is known. */
    method Settle(la: real, ghost t: seq<real>, ghost w0: Window, ghost path: seq<Sample>, ghost step: real, ghost best: real,
                  ghost from: nat, ghost was: nat)
      requires Valid() && from <= |log| && was <= |taken| && taken[was..] == t && InRange(la)
      requires Found(log[from..], t + [la], w0, path, step, best)
      modifies this`loadAdmit, this`taken
      ensures Valid() && loadAdmit == la && old(taken) <= taken
      ensures Found(log[from..], taken[was..], w0, path, step, best)
    {
      SetLoadAdmit(la);
      assert taken[was..] == t + [la];
    }

    /** One round of tuning; says whether the monitor falls back to classic caching. */
    method TuneOnce(base: real, secondChance: bool) returns (quit: bool, chanceLeft: bool, res: Result)
      requires Valid()
      modifies this
      ensures Valid() && old(log) <= log && old(taken) <= taken
      ensures old(ratios) <= ratios && |old(ratios)| < |ratios|
      ensures if res.Quit? then Changed(base, ratios[|old(ratios)|..]) else Steady(base, ratios[|old(ratios)|..])
      ensures res.Settled? ==> Peaked(log[|old(log)|..], loadAdmit, res.best)
      ensures res.Settled? ==> (quit <==> loadAdmit == 1.0 && !secondChance)
      ensures res.Settled? ==> chanceLeft == (secondChance && loadAdmit != 1.0)
      ensures res.Quit? ==> quit && chanceLeft == secondChance
    {
      chanceLeft := secondChance;
      ghost var from := |log|;
      var w := OpenWindow();
      ghost var path, step;
      res, path, step := FollowSlope(base, w, from);
      if res.Quit? { return true, chanceLeft, res; }
      quit := false;
      if loadAdmit == 1.0 {
        if secondChance { chanceLeft := false; } else { quit := true; }
      }
    }

    /**
     Up to n rounds.  Every finished round settled on a peak of its own measurements, and tuning stops
     without a workload change exactly at the second round that ends on a full load.  It stops for a
     workload change if and only if the last check of the miss ratio showed one; no earlier check did.
     */
    method Tune(base: real, n: nat) returns (why: Outcome, ghost rounds: seq<Round>)
      requires Valid()
      modifies this
      ensures Valid() && old(log) <= log && old(taken) <= taken
      ensures RoundsOK(log, |old(log)|, rounds) && |rounds| <= n
      ensures why.StaysFull? <==> Fulls(rounds) == 2
      ensures why.StaysFull? ==> rounds[|rounds| - 1].la == 1.0
      ensures why.StillTuning? ==> |rounds| == n
      ensures !why.WorkloadChanged? && rounds != [] ==> rounds[|rounds| - 1].la == loadAdmit
      ensures Fulls(rounds) <= 2 && old(ratios) <= ratios
      ensures if why.WorkloadChanged? then Changed(base, ratios[|old(ratios)|..]) else Steady(base, ratios[|old(ratios)|..])
    {
      rounds, why := [], StillTuning;
      var secondChance := true;
      for i := 0 to n
        invariant Valid() && old(log) <= log && old(taken) <= taken
        invariant RoundsOK(log, |old(log)|, rounds) && |rounds| == i && why == StillTuning
        invariant |log| == if rounds == [] then |old(log)| else rounds[|rounds| - 1].upto
        invariant rounds != [] ==> rounds[|rounds| - 1].la == loadAdmit
        invariant Fulls(rounds) == if secondChance then 0 else 1
        invariant old(ratios) <= ratios && Steady(base, ratios[|old(ratios)|..])
      {
        var quit, res;
        quit, secondChance, res, rounds := TuneNext(base, secondChance, |old(log)|, rounds, |old(ratios)|);
        if quit {
          why := if res.Quit? then WorkloadChanged else StaysFull;
          return;
        }
      }
    }

    /** One more round; the rounds so far end at the present measurement. */
    method TuneNext(base: real, secondChance: bool, ghost first: nat, ghost rounds: seq<Round>, ghost since: nat)
      returns (quit: bool, chanceLeft: bool, res: Result, ghost next: seq<Round>)
      requires Valid() && RoundsOK(log, first, rounds) && |log| == (if rounds == [] then first else rounds[|rounds| - 1].upto)
      requires since <= |ratios| && Steady(base, ratios[since..])
      modifies this
      ensures Valid() && old(log) <= log && old(taken) <= taken && RoundsOK(log, first, next)
      ensures old(ratios) <= ratios && if res.Quit? then Changed(base, ratios[since..]) else Steady(base, ratios[since..])
      ensures res.Quit? ==> quit && next == rounds && chanceLeft == secondChance
      ensures res.Settled? ==> next == rounds + [Round(|old(log)|, |log|, loadAdmit, res.best)] && Fulls(next) == Fulls(rounds) + Full(loadAdmit)
      ensures res.Settled? ==> (quit <==> loadAdmit == 1.0 && !secondChance) && chanceLeft == (secondChance && loadAdmit != 1.0)
    {
      quit, chanceLeft, res := TuneOnce(base, secondChance);
      assert old(ratios[since..]) + ratios[|old(ratios)|..] == ratios[since..];
      SteadyMore(base, old(ratios[since..]), ratios[|old(ratios)|..]);
      next := rounds;
      if res.Quit? {
        RoundsKept(old(log), log, first, rounds);
      } else {
        next := rounds + [Round(|old(log)|, |log|, loadAdmit, res.best)];
        OneMoreRound(old(log), log, first, rounds, loadAdmit, res.best);
        FullsMore(rounds, Round(|old(log)|, |log|, loadAdmit, res.best));
      }
    }
  }
}
