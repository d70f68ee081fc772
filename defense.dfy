/**
 * `_choose_defense_mechanism`: seven defense modes scored from the affect
 * state plus a small jitter, the best one taken with `max` (the first of
 * equal scores wins), and a change of mode gated by a dwell time and a
 * hysteresis margin.
 */
module Defense {
  import opened Wrappers
  import opened Affect
  import opened Rng
  import opened Config

  /** The modes, in the order the score table lists them. */
  datatype Mode = Fragmentation | Dissociation | Aggression | Paranoia | Mania | Depression | Rationalization

  const Modes: seq<Mode> := [Fragmentation, Dissociation, Aggression, Paranoia, Mania, Depression, Rationalization]

  function ModeName(m: Mode): string {
    match m
    case Fragmentation => "FRAGMENTATION"
    case Dissociation => "DISSOCIATION"
    case Aggression => "AGGRESSION"
    case Paranoia => "PARANOIA"
    case Mania => "MANIA"
    case Depression => "DEPRESSION"
    case Rationalization => "RATIONALIZATION"
  }

  /** The position of a mode in the score table. */
  function IndexOf(m: Mode): (i: nat)
    ensures i < |Modes| && Modes[i] == m
  {
    match m
    case Fragmentation => 0
    case Dissociation => 1
    case Aggression => 2
    case Paranoia => 3
    case Mania => 4
    case Depression => 5
    case Rationalization => 6
  }

  lemma IndexOfModes(i: nat)
    requires i < |Modes|
    ensures IndexOf(Modes[i]) == i
  {
  }

  /** The mode a stored name denotes, if any. */
  function ModeNamed(name: string): (r: Option<Mode>)
    ensures r.Some? ==> ModeName(r.value) == name
    ensures r.None? ==> forall m: Mode :: ModeName(m) != name
  {
    if name == "FRAGMENTATION" then Some(Fragmentation)
    else if name == "DISSOCIATION" then Some(Dissociation)
    else if name == "AGGRESSION" then Some(Aggression)
    else if name == "PARANOIA" then Some(Paranoia)
    else if name == "MANIA" then Some(Mania)
    else if name == "DEPRESSION" then Some(Depression)
    else if name == "RATIONALIZATION" then Some(Rationalization)
    else None
  }

  lemma ModeNamedInverse(m: Mode)
    ensures ModeNamed(ModeName(m)) == Some(m)
  {
  }

  /** A stored mode name that is one of the seven. */
  predicate IsModeName(name: string) {
    ModeNamed(name).Some?
  }

  /** The score of a mode before jitter. */
  function BaseScore(m: Mode, v: Vectors, sub: SubVectors): real {
    match m
    case Fragmentation => v.corruption * 1.6 + 0.02 * sub.dread
    case Dissociation => v.panic * 1.3 + 0.1 * sub.startle
    case Aggression => v.malice * 1.4
    case Paranoia => v.obsession * 1.5
    case Mania => v.hope * (0.4 + v.corruption * 0.8)
    case Depression => (1.0 - v.hope) * 1.2
    case Rationalization => 0.2 + (v.hope * 0.3)
  }

  /** The jitter one draw adds to a score. */
  function Jitter(u: UnitDraw): (j: real)
    ensures -0.01 <= j < 0.01
  {
    (u - 0.5) * 0.02
  }

  /** The jittered score table; the i-th draw goes to the i-th mode. */
  function Scores(v: Vectors, sub: SubVectors, draws: seq<UnitDraw>): (s: seq<real>)
    requires |draws| == |Modes|
    ensures |s| == |Modes|
  {
    seq(|Modes|, i requires 0 <= i < |Modes| => BaseScore(Modes[i], v, sub) + Jitter(draws[i]))
  }

  /** `max(scores, key=scores.get)`: an index of a largest score, the
      earliest one when several are equal. */
  function BestIndex(s: seq<real>): (b: nat)
    requires |s| > 0
    ensures b < |s|
    ensures forall i :: 0 <= i < |s| ==> s[i] <= s[b]
    ensures forall i :: 0 <= i < b ==> s[i] < s[b]
  {
    if |s| == 1 then 0
    else
      var b := BestIndex(s[..|s| - 1]);
      assert forall i :: 0 <= i < |s| - 1 ==> s[..|s| - 1][i] == s[i];
      if s[|s| - 1] > s[b] then |s| - 1 else b
  }

  /** `scores.get(current_defense, 0.0)`. */
  function CurrentScore(s: seq<real>, name: string): real
    requires |s| == |Modes|
  {
    match ModeNamed(name)
    case Some(m) => s[IndexOf(m)]
    case None => 0.0
  }

  /** The part of the engine state the selection reads and writes. */
  datatype DefenseState = DefenseState(current: string, lastChange: real)

  /** One selection at time `now` over a score table. */
  function Step(st: DefenseState, s: seq<real>, now: real, cfg: Config): DefenseState
    requires |s| == |Modes|
  {
    if now - st.lastChange < cfg.transitionDelay then st
    else
      var b := BestIndex(s);
      if s[b] > CurrentScore(s, st.current) + cfg.transitionHysteresis
      then DefenseState(ModeName(Modes[b]), now)
      else st
  }

  /** Within the dwell time after the last change nothing changes. */
  lemma StepDwell(st: DefenseState, s: seq<real>, now: real, cfg: Config)
    requires |s| == |Modes|
    requires now - st.lastChange < cfg.transitionDelay
    ensures Step(st, s, now, cfg) == st
  {
  }

  /** A change happens only after the dwell time, only to the best-scoring
      mode, only when it beats the current mode by more than the margin, and
      it stamps the time of the change; otherwise the state is kept. */
  lemma StepTransition(st: DefenseState, s: seq<real>, now: real, cfg: Config)
    requires |s| == |Modes|
    ensures var r := Step(st, s, now, cfg);
      var b := BestIndex(s);
      if now - st.lastChange >= cfg.transitionDelay && s[b] > CurrentScore(s, st.current) + cfg.transitionHysteresis
      then r == DefenseState(ModeName(Modes[b]), now)
           && forall i :: 0 <= i < |s| ==> s[i] <= s[b]
      else r == st
  {
  }

  /** With a non-negative margin a transition really changes the mode. */
  lemma StepChangesMode(st: DefenseState, s: seq<real>, now: real, cfg: Config)
    requires |s| == |Modes| && cfg.transitionHysteresis >= 0.0
    requires Step(st, s, now, cfg) != st
    ensures Step(st, s, now, cfg).current != st.current
    ensures Step(st, s, now, cfg).lastChange == now
  {
    var b := BestIndex(s);
    ModeNamedInverse(Modes[b]);
    IndexOfModes(b);
    assert CurrentScore(s, ModeName(Modes[b])) == s[b];
  }

  /** The stored mode stays one of the seven names. */
  lemma StepKeepsModeName(st: DefenseState, s: seq<real>, now: real, cfg: Config)
    requires |s| == |Modes| && IsModeName(st.current)
    ensures IsModeName(Step(st, s, now, cfg).current)
  {
    var b := BestIndex(s);
    ModeNamedInverse(Modes[b]);
  }

  /** Two transitions are at least the dwell time apart. */
  lemma {:induction false} NoQuickSecondTransition(st: DefenseState, s1: seq<real>, s2: seq<real>,
                                                    now1: real, now2: real, cfg: Config)
    requires |s1| == |Modes| && |s2| == |Modes|
    requires Step(st, s1, now1, cfg) != st
    requires now2 - now1 < cfg.transitionDelay
    ensures var mid := Step(st, s1, now1, cfg); Step(mid, s2, now2, cfg) == mid
  {
    StepTransition(st, s1, now1, cfg);
  }

  /** The `n` draws a stream yields next. */
  function NextDraws(rng: Stream, n: nat): (ds: seq<UnitDraw>)
    ensures |ds| == n
    ensures forall i :: 0 <= i < n ==> ds[i] == rng.draws(rng.pos + i)
  {
    if n == 0 then [] else NextDraws(rng, n - 1) + [rng.draws(rng.pos + n - 1)]
  }
}
