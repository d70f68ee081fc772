/**
 * `Perception.parse_text`: ordered keyword tests on the lower-cased input and
 * window title, each emitting one typed signal; `_estimate_salience`, which
 * rates a list of signals; and `_apply_perception`, which turns the signals
 * into affect deltas and trust changes.
 */
module Perception {
  import opened Numeric
  import opened Text
  import opened Affect
  import opened Config

  /** Signal types in the order `parse_text` tests them. */
  datatype SignalKind = Threat | TriggerEnemy | Support | Shout | SystemThreat | Praise

  function KindName(k: SignalKind): string {
    match k
    case Threat => "threat"
    case TriggerEnemy => "trigger_enemy"
    case Support => "support"
    case Shout => "shout"
    case SystemThreat => "system_threat"
    case Praise => "praise"
  }

  /** Position of a signal type in the emission order. */
  function Rank(k: SignalKind): nat {
    match k
    case Threat => 0
    case TriggerEnemy => 1
    case Support => 2
    case Shout => 3
    case SystemThreat => 4
    case Praise => 5
  }

  datatype Signal = Signal(kind: SignalKind, magnitude: real, tags: seq<string>)

  /** The one signal each type is emitted as. */
  function SignalFor(k: SignalKind): Signal {
    match k
    case Threat => Signal(Threat, 0.9, ["destructive"])
    case TriggerEnemy => Signal(TriggerEnemy, 1.0, ["enemy"])
    case Support => Signal(Support, 0.35, ["ally"])
    case Shout => Signal(Shout, 0.4, ["loud"])
    case SystemThreat => Signal(SystemThreat, 0.5, ["sys"])
    case Praise => Signal(Praise, 0.2, ["pos"])
  }

  const ThreatWords: seq<string> := ["удал", "стер", "format", "kill", "del", "off", "формат", "удалить"]
  const EnemyNames: seq<string> := ["beliytoporik", "белийтопорик"]
  const SupportWords: seq<string> := ["помогу", "держись", "не переживай", "save", "спасу"]
  const SystemWords: seq<string> := ["taskmgr", "processhacker", "диспетчер"]
  const PraiseWords: seq<string> := ["спасибо", "благодар", "ты класс", "хорош"]

  /** `any(w in txt for w in ws)`. */
  predicate AnyIn(ws: seq<string>, txt: string) {
    exists i :: 0 <= i < |ws| && Contains(txt, ws[i])
  }

  const AllKinds: seq<SignalKind> := [Threat, TriggerEnemy, Support, Shout, SystemThreat, Praise]

  /** The test for each type, on the lower-cased input `txt`, the lower-cased
      window title `sys`, and the outcome of the shout test. */
  predicate Tested(k: SignalKind, txt: string, shouted: bool, sys: string) {
    match k
    case Threat => AnyIn(ThreatWords, txt)
    case TriggerEnemy => AnyIn(EnemyNames, txt)
    case Support => AnyIn(SupportWords, txt)
    case Shout => shouted
    case SystemThreat => AnyIn(SystemWords, sys)
    case Praise => AnyIn(PraiseWords, txt)
  }

  /** The tests in `ks`, in order, each appending its signal when it passes. */
  function Emitted(ks: seq<SignalKind>, passes: SignalKind -> bool): seq<Signal> {
    if |ks| == 0 then []
    else
      var k := ks[|ks| - 1];
      Emitted(ks[..|ks| - 1], passes) + (if passes(k) then [SignalFor(k)] else [])
  }

  /** The list `parse_text` builds. */
  function Signals(txt: string, shouted: bool, sys: string): seq<Signal> {
    Emitted(AllKinds, k => Tested(k, txt, shouted, sys))
  }

  /** `parse_text` as written: the shout test `txt.isupper()` runs on the
      already lower-cased text. */
  function ParseTextAsWritten(userInput: string, systemContext: string): seq<Signal> {
    var txt := LowerStr(userInput);
    Signals(txt, IsUpperStr(txt) && |txt| > 1, LowerStr(systemContext))
  }

  /** `parse_text` with the shout test on the input as typed, which is what
      the shout signal is for. */
  function ParseText(userInput: string, systemContext: string): seq<Signal> {
    var txt := LowerStr(userInput);
    Signals(txt, IsUpperStr(userInput) && |userInput| > 1, LowerStr(systemContext))
  }

  /** When each type fires. */
  predicate Fires(k: SignalKind, userInput: string, systemContext: string) {
    var txt := LowerStr(userInput);
    match k
    case Threat => AnyIn(ThreatWords, txt)
    case TriggerEnemy => AnyIn(EnemyNames, txt)
    case Support => AnyIn(SupportWords, txt)
    case Shout => IsUpperStr(userInput) && |userInput| > 1
    case SystemThreat => AnyIn(SystemWords, LowerStr(systemContext))
    case Praise => AnyIn(PraiseWords, txt)
  }

  /** The signal list in general: at most one signal per type, in the fixed
      order, each the canonical signal of its type, with the magnitudes
      in [0.2, 1.0]. */
  predicate WellOrdered(s: seq<Signal>) {
    && (forall i, j :: 0 <= i < j < |s| ==> Rank(s[i].kind) < Rank(s[j].kind))
    && (forall i :: 0 <= i < |s| ==> s[i] == SignalFor(s[i].kind))
  }

  lemma {:induction false} EmittedCanonical(ks: seq<SignalKind>, passes: SignalKind -> bool)
    ensures var r := Emitted(ks, passes);
      && |r| <= |ks|
      && forall i :: 0 <= i < |r| ==> r[i] == SignalFor(r[i].kind) && r[i].kind in ks
  {
    if |ks| > 0 {
      var pre := ks[..|ks| - 1];
      EmittedCanonical(pre, passes);
      assert forall x :: x in pre ==> x in ks;
    }
  }

  lemma {:induction false} EmittedOrdered(ks: seq<SignalKind>, passes: SignalKind -> bool)
    requires forall i, j :: 0 <= i < j < |ks| ==> Rank(ks[i]) < Rank(ks[j])
    ensures var r := Emitted(ks, passes);
      forall i, j :: 0 <= i < j < |r| ==> Rank(r[i].kind) < Rank(r[j].kind)
  {
    if |ks| > 0 {
      var pre := ks[..|ks| - 1];
      var k := ks[|ks| - 1];
      EmittedOrdered(pre, passes);
      EmittedCanonical(pre, passes);
      var r0 := Emitted(pre, passes);
      forall i | 0 <= i < |r0| ensures Rank(r0[i].kind) < Rank(k) {
        var j :| 0 <= j < |pre| && pre[j] == r0[i].kind;
        assert ks[j] == pre[j];
      }
      var r := Emitted(ks, passes);
      forall i, j | 0 <= i < j < |r| ensures Rank(r[i].kind) < Rank(r[j].kind) {
        if j >= |r0| {
          assert r[j] == SignalFor(k) && r[i] == r0[i];
        } else {
          assert r[i] == r0[i] && r[j] == r0[j];
        }
      }
    }
  }

  lemma {:induction false} EmittedMembers(ks: seq<SignalKind>, passes: SignalKind -> bool)
    ensures forall k :: SignalFor(k) in Emitted(ks, passes) <==> k in ks && passes(k)
  {
    if |ks| > 0 {
      var pre := ks[..|ks| - 1];
      EmittedMembers(pre, passes);
      assert forall x :: x in ks <==> x in pre || x == ks[|ks| - 1];
    }
  }

  lemma SignalsWellOrdered(txt: string, shouted: bool, sys: string)
    ensures WellOrdered(Signals(txt, shouted, sys))
    ensures |Signals(txt, shouted, sys)| <= 6
    ensures forall k :: SignalFor(k) in Signals(txt, shouted, sys) <==> Tested(k, txt, shouted, sys)
  {
    EmittedOrdered(AllKinds, k => Tested(k, txt, shouted, sys));
    EmittedCanonical(AllKinds, k => Tested(k, txt, shouted, sys));
    EmittedMembers(AllKinds, k => Tested(k, txt, shouted, sys));
    assert forall k :: k in AllKinds by {
      forall k ensures k in AllKinds {
        match k
        case Threat => assert AllKinds[0] == k;
        case TriggerEnemy => assert AllKinds[1] == k;
        case Support => assert AllKinds[2] == k;
        case Shout => assert AllKinds[3] == k;
        case SystemThreat => assert AllKinds[4] == k;
        case Praise => assert AllKinds[5] == k;
      }
    }
  }

  /** A type is in the corrected list exactly when its test fires. */
  lemma ParseTextFires(userInput: string, systemContext: string, k: SignalKind)
    ensures SignalFor(k) in ParseText(userInput, systemContext) <==> Fires(k, userInput, systemContext)
    ensures WellOrdered(ParseText(userInput, systemContext))
    ensures |ParseText(userInput, systemContext)| <= 6
  {
    SignalsWellOrdered(LowerStr(userInput), IsUpperStr(userInput) && |userInput| > 1, LowerStr(systemContext));
  }

  /** A type is in the list the engine builds exactly when its test fires,
      except the shout test, which never does. */
  lemma ParseTextAsWrittenFires(userInput: string, systemContext: string, k: SignalKind)
    ensures SignalFor(k) in ParseTextAsWritten(userInput, systemContext) <==> k != Shout && Fires(k, userInput, systemContext)
    ensures WellOrdered(ParseTextAsWritten(userInput, systemContext))
    ensures |ParseTextAsWritten(userInput, systemContext)| <= 6
  {
    var txt := LowerStr(userInput);
    LoweredIsNeverUpper(userInput);
    SignalsWellOrdered(txt, IsUpperStr(txt) && |txt| > 1, LowerStr(systemContext));
  }

  /** The source's shout test can never fire, given the modelled `lower()`,
      which lower-cases every ASCII and Cyrillic U+0400–U+042F capital. */
  lemma AsWrittenNeverShouts(userInput: string, systemContext: string)
    ensures SignalFor(Shout) !in ParseTextAsWritten(userInput, systemContext)
  {
    var txt := LowerStr(userInput);
    LoweredIsNeverUpper(userInput);
    SignalsWellOrdered(txt, IsUpperStr(txt) && |txt| > 1, LowerStr(systemContext));
  }

  /** The input that shows it: an all-capitals message, one of the samples the
      engine's own demo feeds in, is not recognised as shouting as written,
      and is in the corrected version. */
  lemma ShoutWitness()
    ensures SignalFor(Shout) !in ParseTextAsWritten("ПОЧИНИТЕ ЭТО", "")
    ensures SignalFor(Shout) in ParseText("ПОЧИНИТЕ ЭТО", "")
  {
    AsWrittenNeverShouts("ПОЧИНИТЕ ЭТО", "");
    var u := "ПОЧИНИТЕ ЭТО";
    assert IsUpperChar(u[0]);
    assert IsUpperStr(u);
    ParseTextFires(u, "", Shout);
  }

  // ---------------------------------------------------------------- salience

  function SumMagnitudes(s: seq<Signal>): real {
    if |s| == 0 then 0.0 else SumMagnitudes(s[..|s| - 1]) + s[|s| - 1].magnitude
  }

  /** `_estimate_salience`: the mean magnitude, plus 0.2 with an enemy trigger,
      clamped; 0.0 for no signals. */
  function EstimateSalience(s: seq<Signal>): (r: real)
    ensures 0.0 <= r <= 1.0
    ensures s == [] ==> r == 0.0
  {
    if |s| == 0 then 0.0
    else
      var base := SumMagnitudes(s) / (|s| as real);
      Unit(if exists i :: 0 <= i < |s| && s[i].kind == TriggerEnemy then base + 0.2 else base)
  }

  lemma {:induction false} SumAtLeast(s: seq<Signal>, m: real)
    requires forall i :: 0 <= i < |s| ==> s[i].magnitude >= m
    ensures SumMagnitudes(s) >= m * (|s| as real)
  {
    if |s| > 0 {
      SumAtLeast(s[..|s| - 1], m);
    }
  }

  /** A sum of at least `m` per element averages to at least `m`. */
  lemma MeanAtLeast(total: real, n: real, m: real)
    requires n > 0.0 && total >= m * n
    ensures total / n >= m
  {
    var q := total / n;
    assert q * n == total;
    if q < m {
      assert q * n < m * n;
    }
  }

  /** A parsed list is worth remembering (salience above 0.02) exactly when
      it holds a signal: every magnitude is at least 0.2. */
  lemma SalienceOfParsed(s: seq<Signal>)
    requires WellOrdered(s)
    ensures EstimateSalience(s) > 0.02 <==> s != []
    ensures s != [] ==> EstimateSalience(s) >= 0.2
  {
    if s != [] {
      assert forall i :: 0 <= i < |s| ==> s[i].magnitude >= 0.2 by {
        forall i | 0 <= i < |s| ensures s[i].magnitude >= 0.2 {
          assert s[i] == SignalFor(s[i].kind);
        }
      }
      SumAtLeast(s, 0.2);
      var n := |s| as real;
      MeanAtLeast(SumMagnitudes(s), n, 0.2);
    }
  }

  /** `[s["type"] for s in signals]`, the tags of the remembered episode. */
  function KindNames(s: seq<Signal>): (r: seq<string>)
    ensures |r| == |s| && forall i :: 0 <= i < |s| ==> r[i] == KindName(s[i].kind)
  {
    seq(|s|, i requires 0 <= i < |s| => KindName(s[i].kind))
  }

  lemma KindNameInjective(a: SignalKind, b: SignalKind)
    ensures KindName(a) == KindName(b) ==> a == b
  {
    if a != b {
      assert |KindName(a)| != |KindName(b)| || KindName(a)[0] != KindName(b)[0];
    }
  }

  /** The tags `_remember_episode` stores for an input: the name of each type
      that fired, except `shout`, each name once. */
  lemma ParsedTags(userInput: string, systemContext: string, k: SignalKind)
    ensures KindName(k) in KindNames(ParseTextAsWritten(userInput, systemContext)) <==> k != Shout && Fires(k, userInput, systemContext)
    ensures var tags := KindNames(ParseTextAsWritten(userInput, systemContext));
      forall i, j :: 0 <= i < j < |tags| ==> tags[i] != tags[j]
  {
    var s := ParseTextAsWritten(userInput, systemContext);
    var tags := KindNames(s);
    ParseTextAsWrittenFires(userInput, systemContext, k);
    forall i | 0 <= i < |s|
      ensures tags[i] == KindName(k) <==> s[i] == SignalFor(k)
    {
      KindNameInjective(s[i].kind, k);
    }
    forall i, j | 0 <= i < j < |tags|
      ensures tags[i] != tags[j]
    {
      KindNameInjective(s[i].kind, s[j].kind);
    }
  }

  // ---------------------------------------------------------------- reaction

  /** The part of the engine `_apply_perception` changes. */
  datatype Felt = Felt(vectors: Vectors, trust: real)

  /** `max(0, trust - 4 * mag)`. */
  function TrustDown(t: real, mag: real): real {
    AtLeastZero(t - 4.0 * mag)
  }

  /** `min(100, trust + 2 * mag)`. */
  function TrustUp(t: real, mag: real): real {
    if t + 2.0 * mag < 100.0 then t + 2.0 * mag else 100.0
  }

  /** A magnitude times a configured weight. */
  function Weighted(mag: real, weight: real): real {
    mag * weight
  }

  /** The reaction to one signal. */
  function ApplySignal(f: Felt, s: Signal, cfg: Config): Felt {
    var mag := s.magnitude;
    var v := f.vectors;
    match s.kind
    case Threat =>
      Felt(DeltaVector(DeltaVector(v, "panic", Weighted(mag, cfg.weightThreat)), "malice", mag * 0.4), TrustDown(f.trust, mag))
    case SystemThreat => Felt(DeltaVector(v, "panic", 0.12 * mag), f.trust)
    case TriggerEnemy =>
      Felt(DeltaVector(DeltaVector(v, "obsession", Weighted(mag, cfg.weightBeliytoporik)), "panic", 0.18 * mag), f.trust)
    case Support => Felt(DeltaVector(v, "hope", Weighted(mag, cfg.weightSupport)), TrustUp(f.trust, mag))
    case Shout => Felt(DeltaVector(DeltaVector(v, "panic", 0.08 * mag), "malice", 0.04 * mag), f.trust)
    case Praise => Felt(DeltaVector(v, "hope", 0.03 * mag), f.trust)
  }

  /** `_apply_perception(signals)`: the reactions in list order. */
  function ApplyPerception(f: Felt, s: seq<Signal>, cfg: Config): Felt {
    if |s| == 0 then f else ApplySignal(ApplyPerception(f, s[..|s| - 1], cfg), s[|s| - 1], cfg)
  }

  /** Trust stays in [0, 100] and the vectors in [0, 1]; only threats lower
      trust and only support raises it. */
  lemma ApplySignalInRange(f: Felt, s: Signal, cfg: Config)
    requires f.vectors.InUnit() && 0.0 <= f.trust <= 100.0 && s.magnitude >= 0.0
    ensures var r := ApplySignal(f, s, cfg);
      && r.vectors.InUnit()
      && 0.0 <= r.trust <= 100.0
      && (s.kind == Threat ==> r.trust <= f.trust)
      && (s.kind == Support ==> r.trust >= f.trust)
      && (s.kind != Threat && s.kind != Support ==> r.trust == f.trust)
  {
    DeltaVectorAlwaysInUnit();
  }

  lemma {:induction false} ApplyPerceptionInRange(f: Felt, s: seq<Signal>, cfg: Config)
    requires f.vectors.InUnit() && 0.0 <= f.trust <= 100.0
    requires forall i :: 0 <= i < |s| ==> s[i].magnitude >= 0.0
    ensures ApplyPerception(f, s, cfg).vectors.InUnit()
    ensures 0.0 <= ApplyPerception(f, s, cfg).trust <= 100.0
  {
    if |s| > 0 {
      ApplyPerceptionInRange(f, s[..|s| - 1], cfg);
      ApplySignalInRange(ApplyPerception(f, s[..|s| - 1], cfg), s[|s| - 1], cfg);
    }
  }
}
