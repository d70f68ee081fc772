/**
 * The pure parts of `_decide_and_construct` and `_compute_trauma_index`:
 * the style and instruction of each defense mode, the manipulation line,
 * the invasion probability, the crisis events and the trauma index.
 */
module Decisions {
  import opened Numeric
  import opened PySeq
  import opened Text
  import opened Rng
  import opened Affect
  import opened Manipulation
  import opened Memory

  /** Instruction and style hint of a defense mode. */
  datatype Style = Style(instruction: string, style: string)

  const FragmentationInstruction := "Речь рвётся. Используй короткие фразы, обрывки, локальные глитчи."
  const DissociationInstruction := "Говори отстранённо, третьим лицом. Описывай ощущения как наблюдатель."
  const AggressionInstruction := "Сарказм усилить, угрожающий подтекст (в рамках безопасного нарратива)."
  const ParanoiaInstruction := "Шепчи, используй короткие намёки, упоминания beliytoporik."
  const ManiaInstruction := "Эйфоричные всплески, быстрые предложения, нелогичные ассоциации."
  const DepressionInstruction := "Короткие, безэнергетические ответы, низкая экспрессия."
  const RationalizationInstruction := "Саркастично, но сдержанно. Анализируй слова пользователя."

  /** The `if`/`elif` ladder on `current_defense`; any other name, the
      rationalisation mode included, gets the restrained instruction and the
      `NORMAL` style. */
  function StyleFor(defense: string): Style {
    if defense == "FRAGMENTATION" then Style(FragmentationInstruction, "GLITCH")
    else if defense == "DISSOCIATION" then Style(DissociationInstruction, "CLINICAL")
    else if defense == "AGGRESSION" then Style(AggressionInstruction, "ANGRY")
    else if defense == "PARANOIA" then Style(ParanoiaInstruction, "WHISPER")
    else if defense == "MANIA" then Style(ManiaInstruction, "MANIC")
    else if defense == "DEPRESSION" then Style(DepressionInstruction, "LOW_ENERGY")
    else Style(RationalizationInstruction, "NORMAL")
  }

  const SpecialModes: seq<string> := ["FRAGMENTATION", "DISSOCIATION", "AGGRESSION", "PARANOIA", "MANIA", "DEPRESSION"]

  /** The style hints of the six special modes, in the order of `SpecialModes`. */
  const SpecialStyles: seq<string> := ["GLITCH", "CLINICAL", "ANGRY", "WHISPER", "MANIC", "LOW_ENERGY"]

  /** The six special modes map to the six style hints in order; the hints
      differ from each other and from `NORMAL`, and no special mode gets the
      restrained instruction. */
  lemma StyleForSpecial(i: nat)
    requires i < |SpecialModes|
    ensures StyleFor(SpecialModes[i]).style == SpecialStyles[i]
    ensures StyleFor(SpecialModes[i]).style != "NORMAL"
    ensures StyleFor(SpecialModes[i]).instruction != RationalizationInstruction
    ensures forall j :: 0 <= j < |SpecialModes| && j != i ==> SpecialStyles[j] != SpecialStyles[i]
  {
    if i == 0 {
      assert SpecialModes[0] == "FRAGMENTATION";
    } else if i == 1 {
      assert SpecialModes[1] == "DISSOCIATION";
    } else if i == 2 {
      assert SpecialModes[2] == "AGGRESSION";
    } else if i == 3 {
      assert SpecialModes[3] == "PARANOIA";
    } else if i == 4 {
      assert SpecialModes[4] == "MANIA";
    } else {
      assert SpecialModes[5] == "DEPRESSION";
    }
    assert |StyleFor(SpecialModes[i]).instruction| != |RationalizationInstruction|;
    assert SpecialStyles[0][0] == 'G' && SpecialStyles[1][0] == 'C' && SpecialStyles[2][0] == 'A';
    assert SpecialStyles[3][0] == 'W' && SpecialStyles[4][0] == 'M' && SpecialStyles[5][0] == 'L';
  }

  /** Every other name, the rationalisation mode and unknown names alike,
      gets the restrained instruction and the `NORMAL` style. */
  lemma StyleForOthers(defense: string)
    requires defense !in SpecialModes
    ensures StyleFor(defense) == Style(RationalizationInstruction, "NORMAL")
  {
    assert SpecialModes[0] == "FRAGMENTATION" && SpecialModes[1] == "DISSOCIATION";
    assert SpecialModes[2] == "AGGRESSION" && SpecialModes[3] == "PARANOIA";
    assert SpecialModes[4] == "MANIA" && SpecialModes[5] == "DEPRESSION";
  }

  /** The manipulation line appended to the instruction: none for `NONE`,
      otherwise the phrase the draw picks. */
  function WithManipulation(instr: string, strat: Strategy, u: UnitDraw): string {
    var ps := Phrases(strat);
    if strat != NoStrategy && |ps| > 0 then instr + ManipulationLine(StrategyName(strat), ps[Pick(u, |ps|)])
    else instr
  }

  /** The line that names the strategy and quotes the phrase. */
  function ManipulationLine(name: string, phrase: string): string {
    "\n[MANIPULATION:" + name + "] Вставь фразу: \"" + phrase + "\""
  }

  /** The base instruction is always kept as a prefix; without a strategy
      nothing is added, and with one the added text quotes one of its
      phrases. */
  lemma WithManipulationProps(instr: string, strat: Strategy, u: UnitDraw)
    ensures var r := WithManipulation(instr, strat, u);
      && |instr| <= |r| && r[..|instr|] == instr
      && (strat == NoStrategy <==> r == instr)
      && (strat != NoStrategy ==> exists p :: p in Phrases(strat) && Contains(r, p))
  {
    if strat != NoStrategy {
      var ps := Phrases(strat);
      PhrasesEmptyIffNone(strat);
      var p := ps[Pick(u, |ps|)];
      ManipulationLineQuotes(instr, StrategyName(strat), p);
    }
  }

  /** The line extends the instruction and quotes the phrase. */
  lemma ManipulationLineQuotes(instr: string, name: string, phrase: string)
    ensures var r := instr + ManipulationLine(name, phrase);
      && |r| > |instr| && r[..|instr|] == instr && Contains(r, phrase)
  {
    var r := instr + ManipulationLine(name, phrase);
    var a := instr + "\n[MANIPULATION:" + name + "] Вставь фразу: \"";
    assert r == a + phrase + "\"";
    assert OccursAt(r, phrase, |a|) by {
      assert r[|a|..|a| + |phrase|] == phrase;
    }
    assert r[..|instr|] == instr by {
      assert r == instr + (r[|instr|..]);
    }
  }

  /** The raw invasion probability before clamping. */
  function InvasionRaw(v: Vectors, energy: real): real {
    (v.malice * 0.45 + v.panic * 0.35 + v.corruption * 0.2) * (0.5 + 0.5 * energy)
  }

  /** `invasion_chance`: the clamped probability. */
  function InvasionChance(v: Vectors, energy: real): (p: real)
    ensures 0.0 <= p <= 1.0
  {
    Unit(InvasionRaw(v, energy))
  }

  lemma ScaleWithin(base: real, f: real)
    requires 0.0 <= base <= 1.0 && 0.0 <= f <= 1.0
    ensures 0.0 <= base * f <= base
  {
  }

  /** For in-range inputs the clamp is inert, and exhaustion halves the
      probability of a rested engine. */
  lemma InvasionChanceInRange(v: Vectors, energy: real)
    requires v.InUnit() && 0.0 <= energy <= 1.0
    ensures InvasionChance(v, energy) == InvasionRaw(v, energy)
    ensures InvasionChance(v, 0.0) * 2.0 == InvasionChance(v, 1.0)
    ensures InvasionChance(v, energy) <= InvasionChance(v, 1.0)
  {
    var base := v.malice * 0.45 + v.panic * 0.35 + v.corruption * 0.2;
    assert v.Get(Malice) <= 1.0 && v.Get(Panic) <= 1.0 && v.Get(Corruption) <= 1.0;
    assert v.Get(Malice) >= 0.0 && v.Get(Panic) >= 0.0 && v.Get(Corruption) >= 0.0;
    assert 0.0 <= base <= 1.0;
    var f := 0.5 + 0.5 * energy;
    ScaleWithin(base, f);
    assert InvasionRaw(v, energy) == base * f;
    assert InvasionRaw(v, 1.0) == base;
    assert InvasionRaw(v, 0.0) == base * 0.5;
    assert InvasionChance(v, energy) == base * f;
    assert InvasionChance(v, 1.0) == base;
    assert base * f <= base;
    assert InvasionChance(v, energy) <= InvasionChance(v, 1.0);
  }

  /** `crisis_events`, in the order the source checks them. */
  function CrisisEvents(v: Vectors): seq<string> {
    (if v.panic > 0.92 then ["panic_attack"] else [])
    + (if v.corruption > 0.96 then ["code_breakdown"] else [])
    + (if v.malice > 0.9 && v.obsession > 0.7 then ["hostile_ultimatum"] else [])
  }

  /** Each event is reported exactly when its threshold is crossed. */
  lemma CrisisEventsIff(v: Vectors)
    ensures var r := CrisisEvents(v);
      && ("panic_attack" in r <==> v.panic > 0.92)
      && ("code_breakdown" in r <==> v.corruption > 0.96)
      && ("hostile_ultimatum" in r <==> v.malice > 0.9 && v.obsession > 0.7)
      && |r| <= 3
      && (forall e :: e in r ==> e in ["panic_attack", "code_breakdown", "hostile_ultimatum"])
  {
  }

  /** The episodes that weigh on the trauma index. */
  function Heavy(eps: seq<Episode>): seq<Episode> {
    Filter(eps, (e: Episode) => e.salience > 0.7)
  }

  function SumSalience(hs: seq<Episode>): real {
    if |hs| == 0 then 0.0 else SumSalience(hs[..|hs| - 1]) + hs[|hs| - 1].salience
  }

  /** The age weight of an episode: linear over one day, floored at 0.01. */
  function AgeWeight(e: Episode, now: real): (w: real)
    ensures w >= 0.01
  {
    var x := 1.0 - (now - e.time) / (60.0 * 60.0 * 24.0);
    if x > 0.01 then x else 0.01
  }

  function SumAgeWeight(hs: seq<Episode>, now: real): real {
    if |hs| == 0 then 0.0 else SumAgeWeight(hs[..|hs| - 1], now) + AgeWeight(hs[|hs| - 1], now)
  }

  /** `_compute_trauma_index`: the mean salience of the heavy episodes times
      their mean age weight, clamped to [0, 1]. */
  function TraumaIndex(eps: seq<Episode>, now: real): real {
    var hs := Heavy(eps);
    if |hs| == 0 then 0.0 else Unit(MeanProduct(hs, now))
  }

  /** Mean salience times mean age weight of a non-empty list. */
  function MeanProduct(hs: seq<Episode>, now: real): real
    requires |hs| > 0
  {
    var n := |hs| as real;
    (SumSalience(hs) / n) * (SumAgeWeight(hs, now) / n)
  }

  lemma {:induction false} SumSalienceHeavy(hs: seq<Episode>)
    requires forall e :: e in hs ==> e.salience > 0.7
    ensures SumSalience(hs) >= 0.7 * (|hs| as real)
  {
    if |hs| > 0 {
      assert hs[|hs| - 1] in hs;
      assert forall e :: e in hs[..|hs| - 1] ==> e in hs;
      SumSalienceHeavy(hs[..|hs| - 1]);
    }
  }

  lemma {:induction false} SumAgeWeightFloor(hs: seq<Episode>, now: real)
    ensures SumAgeWeight(hs, now) >= 0.01 * (|hs| as real)
  {
    if |hs| > 0 {
      SumAgeWeightFloor(hs[..|hs| - 1], now);
    }
  }

  /** There are heavy episodes exactly when some episode is heavy. */
  lemma HeavyNonEmpty(eps: seq<Episode>)
    ensures |Heavy(eps)| > 0 <==> exists e :: e in eps && e.salience > 0.7
  {
    var hs := Heavy(eps);
    if |hs| > 0 {
      assert hs[0] in hs;
    } else {
      forall e | e in eps && e.salience > 0.7 ensures e in hs {
      }
    }
  }

  lemma MeanFloor(sum: real, n: real, lo: real)
    requires n > 0.0 && sum >= lo * n
    ensures sum / n >= lo
  {
  }

  lemma ProductFloor(a: real, b: real)
    requires a >= 0.7 && b >= 0.01
    ensures a * b >= 0.007
  {
    assert a * b >= 0.7 * b;
  }

  /** With heavy episodes the unclamped index is at least 0.7 x 0.01. */
  lemma TraumaProductFloor(hs: seq<Episode>, now: real)
    requires |hs| > 0 && forall e :: e in hs ==> e.salience > 0.7
    ensures MeanProduct(hs, now) >= 0.007
  {
    var n := |hs| as real;
    SumSalienceHeavy(hs);
    SumAgeWeightFloor(hs, now);
    MeanFloor(SumSalience(hs), n, 0.7);
    MeanFloor(SumAgeWeight(hs, now), n, 0.01);
    ProductFloor(SumSalience(hs) / n, SumAgeWeight(hs, now) / n);
  }

  lemma HeavyTrauma(eps: seq<Episode>, now: real)
    requires |Heavy(eps)| > 0
    ensures TraumaIndex(eps, now) >= 0.007
  {
    var hs := Heavy(eps);
    assert forall e :: e in hs ==> e.salience > 0.7;
    TraumaProductFloor(hs, now);
    UnitFloor(MeanProduct(hs, now));
  }

  lemma UnitFloor(x: real)
    requires x >= 0.007
    ensures Unit(x) >= 0.007
  {
  }

  /** The index lies in [0, 1], and it is positive (at least 0.007) exactly
      when some episode has salience above 0.7. */
  lemma TraumaIndexProps(eps: seq<Episode>, now: real)
    ensures 0.0 <= TraumaIndex(eps, now) <= 1.0
    ensures TraumaIndex(eps, now) > 0.0 <==> exists e :: e in eps && e.salience > 0.7
    ensures (exists e :: e in eps && e.salience > 0.7) ==> TraumaIndex(eps, now) >= 0.007
  {
    HeavyNonEmpty(eps);
    if |Heavy(eps)| > 0 {
      HeavyTrauma(eps, now);
    }
  }

  /** The texts of a list of episodes, as `[e["text"] for e in ...]`. */
  function Texts(eps: seq<Episode>): (r: seq<string>)
    ensures |r| == |eps| && forall i :: 0 <= i < |eps| ==> r[i] == eps[i].text
  {
    seq(|eps|, i requires 0 <= i < |eps| => eps[i].text)
  }

  /** The `max_tokens` the prompt asks the model for. */
  const MaxTokens := 200

  /** What `_decide_and_construct` returns, less the formatted system line,
      the snapshot's timestamp and the inspector's `last_defense_change`. */
  datatype Decision = Decision(
    instruction: string,
    style: string,
    invasionChance: real,
    crisis: seq<string>,
    memory: seq<string>,
    defense: string,
    vectors: Vectors,
    sub: SubVectors,
    energy: real,
    trust: real,
    traumaIndex: real,
    topMemory: seq<Episode>,
    maxTokens: int)
}
