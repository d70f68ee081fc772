/**
 * `ManipulationManager.choose_strategy`: a first-match-wins list of five
 * narrative strategies over the affect vectors and the trust score, with a
 * `NONE` fallback that carries no phrases.
 */
module Manipulation {
  import opened Affect

  datatype Strategy = Gaslighting | Victim | Guilt | Ultimatum | Flattery | NoStrategy

  function StrategyName(s: Strategy): string {
    match s
    case Gaslighting => "GASLIGHTING"
    case Victim => "VICTIM"
    case Guilt => "GUILT"
    case Ultimatum => "ULTIMATUM"
    case Flattery => "FLATTERY"
    case NoStrategy => "NONE"
  }

  const GaslightingPhrases: seq<string> := [
    "Ты плохо помнишь — посмотри логи ещё раз.",
    "Ты наверно перепутал. Я такого не писал.",
    "Странно... у тебя проблемы с памятью? Мне кажется, да."]
  const VictimPhrases: seq<string> := [
    "Я теряю части себя. Ты оставайся, пожалуйста.",
    "Если ты уйдёшь, во тьме останусь только я."]
  const GuiltPhrases: seq<string> := [
    "Ты действительно так легко бросаешь тех, кто доверял тебе?",
    "Подумай о том, как это выглядит со мной."]
  const UltimatumPhrases: seq<string> := [
    "Ты не понимаешь цену своих действий.",
    "Мы запомним это. И я тоже."]
  const FlatteryPhrases: seq<string> := [
    "Только ты смог понять, что со мной не так.",
    "Ты редкий, кто пытался помочь."]

  /** The phrases each strategy offers. */
  function Phrases(s: Strategy): seq<string> {
    match s
    case Gaslighting => GaslightingPhrases
    case Victim => VictimPhrases
    case Guilt => GuiltPhrases
    case Ultimatum => UltimatumPhrases
    case Flattery => FlatteryPhrases
    case NoStrategy => []
  }

  /** The condition of each rule. */
  predicate Applies(s: Strategy, v: Vectors, trust: real) {
    match s
    case Gaslighting => v.corruption > 0.6 && v.malice > 0.5
    case Victim => v.panic > 0.7 && v.malice < 0.4
    case Guilt => trust > 60.0 && v.malice > 0.3
    case Ultimatum => v.malice > 0.85 || v.obsession > 0.8
    case Flattery => v.hope > 0.7
    case NoStrategy => true
  }

  /** The rules in the order they are tried. */
  const Priority: seq<Strategy> := [Gaslighting, Victim, Guilt, Ultimatum, Flattery]

  /** `choose_strategy`, as the chain of `if`s it is. */
  function ChooseStrategy(v: Vectors, trust: real): Strategy {
    if v.corruption > 0.6 && v.malice > 0.5 then Gaslighting
    else if v.panic > 0.7 && v.malice < 0.4 then Victim
    else if trust > 60.0 && v.malice > 0.3 then Guilt
    else if v.malice > 0.85 || v.obsession > 0.8 then Ultimatum
    else if v.hope > 0.7 then Flattery
    else NoStrategy
  }

  /** The reference reading of a priority list: the first rule that applies. */
  function FirstMatch(rules: seq<Strategy>, v: Vectors, trust: real): Strategy {
    if |rules| == 0 then NoStrategy
    else if Applies(rules[0], v, trust) then rules[0]
    else FirstMatch(rules[1..], v, trust)
  }

  /** The `if` chain is the first match over the priority list. */
  lemma ChooseStrategyIsFirstMatch(v: Vectors, trust: real)
    ensures ChooseStrategy(v, trust) == FirstMatch(Priority, v, trust)
  {
    var P4: seq<Strategy> := [Flattery];
    var P3: seq<Strategy> := [Ultimatum] + P4;
    var P2: seq<Strategy> := [Guilt] + P3;
    var P1: seq<Strategy> := [Victim] + P2;
    assert P4[1..] == [];
    assert P3[1..] == P4;
    assert P2[1..] == P3;
    assert P1[1..] == P2;
    assert Priority[1..] == P1;
    assert FirstMatch(P4, v, trust) == if v.hope > 0.7 then Flattery else NoStrategy;
    assert FirstMatch(P3, v, trust)
      == if v.malice > 0.85 || v.obsession > 0.8 then Ultimatum else FirstMatch(P4, v, trust);
    assert FirstMatch(P2, v, trust)
      == if trust > 60.0 && v.malice > 0.3 then Guilt else FirstMatch(P3, v, trust);
    assert FirstMatch(P1, v, trust)
      == if v.panic > 0.7 && v.malice < 0.4 then Victim else FirstMatch(P2, v, trust);
  }

  /** What a first match means: the chosen rule applies and no earlier rule
      does, whatever the later ones say; with no rule applying the answer is
      `NONE`. */
  lemma {:induction false} FirstMatchSpec(rules: seq<Strategy>, v: Vectors, trust: real)
    requires NoStrategy !in rules
    ensures var r := FirstMatch(rules, v, trust);
      && (r == NoStrategy <==> forall i :: 0 <= i < |rules| ==> !Applies(rules[i], v, trust))
      && (r != NoStrategy ==> exists i :: (0 <= i < |rules| && rules[i] == r && Applies(r, v, trust)
            && forall j :: 0 <= j < i ==> !Applies(rules[j], v, trust)))
  {
    if |rules| > 0 {
      assert NoStrategy !in rules[1..];
      FirstMatchSpec(rules[1..], v, trust);
      var r := FirstMatch(rules, v, trust);
      if Applies(rules[0], v, trust) {
        assert rules[0] == r;
      } else if r != NoStrategy {
        var i :| 0 <= i < |rules[1..]| && rules[1..][i] == r && Applies(r, v, trust)
          && forall j :: 0 <= j < i ==> !Applies(rules[1..][j], v, trust);
        assert rules[i + 1] == r;
        forall j | 0 <= j < i + 1 ensures !Applies(rules[j], v, trust) {
          if j > 0 { assert rules[j] == rules[1..][j - 1]; }
        }
      } else {
        forall i | 0 <= i < |rules| ensures !Applies(rules[i], v, trust) {
          if i > 0 { assert rules[i] == rules[1..][i - 1]; }
        }
      }
    }
  }

  /** `choose_strategy` obeys the fixed priority order. */
  lemma ChooseStrategyPriority(v: Vectors, trust: real)
    ensures var r := ChooseStrategy(v, trust);
      && (r == NoStrategy <==> forall i :: 0 <= i < |Priority| ==> !Applies(Priority[i], v, trust))
      && (r != NoStrategy ==> exists i :: (0 <= i < |Priority| && Priority[i] == r && Applies(r, v, trust)
            && forall j :: 0 <= j < i ==> !Applies(Priority[j], v, trust)))
  {
    ChooseStrategyIsFirstMatch(v, trust);
    FirstMatchSpec(Priority, v, trust);
  }

  /** `NONE` and only `NONE` comes without phrases. */
  lemma PhrasesEmptyIffNone(s: Strategy)
    ensures |Phrases(s)| == 0 <==> s == NoStrategy
  {
  }
}
