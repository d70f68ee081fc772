/**
 * `AdvancedPsychoEngine`: the object that owns the affect vectors, the
 * defense mode, the trust score, the random stream, the memory module and
 * the state file, and whose `perceive` runs parse, remember, react, update
 * and decide in that order.
 *
 * Every method is proved against a pure function of the engine's state
 * (`Remembered`, `Reacted`, `Updated`, `Decided`, composed by `Perceived`),
 * and the properties of the engine are lemmas about those functions.
 */
module Engine {
  import opened Wrappers
  import opened Numeric
  import opened PySeq
  import opened Text
  import opened Rng
  import opened Config
  import opened Affect
  import opened Facts
  import opened Memory
  import opened Perception
  import opened Manipulation
  import opened Defense
  import opened Decisions
  import opened Persistence

  /** `_update_loop` saves every this many updates. */
  const SaveEvery := 8
  /** The chance per update of a consolidation pass. */
  const ConsolidateChance := 0.02

  /** Everything the engine holds, as one value. */
  datatype EngineState = EngineState(
    mood: Mood,
    defense: DefenseState,
    trust: real,
    lastUpdate: real,
    sinceSave: int,
    rng: Stream,
    memory: Store,
    stateFile: Option<StatePayload>)

  /** The part `save_state` writes. */
  function PersistedOf(st: EngineState): Persisted {
    Persisted(st.mood.vectors, st.mood.energy, st.defense.current, st.trust, st.defense.lastChange, st.memory)
  }

  /** The persisted part of a new engine. */
  const Initial: Persisted := Persisted(InitialVectors, 1.0, "RATIONALIZATION", 50.0, 0.0, Store([], []))

  /** The episode `perceive` stores for an input, when it stores one. */
  function InputEpisode(userInput: string, signals: seq<Signal>, now: real): Episode {
    Episode(now, SliceTo(userInput, TextLimit), Unit(EstimateSalience(signals)), KindNames(signals), false)
  }

  /** Whether `perceive` stores the input: salient enough and not blank. */
  predicate Memorable(userInput: string, signals: seq<Signal>) {
    EstimateSalience(signals) > 0.02 && Strip(userInput) != ""
  }

  /** The remember step of `perceive`. */
  function Remembered(st: EngineState, userInput: string, signals: seq<Signal>, now: real, cap: int): EngineState {
    if Memorable(userInput, signals) then
      st.(memory := st.memory.(episodes := Appended(st.memory.episodes, InputEpisode(userInput, signals, now), cap)))
    else st
  }

  /** The react step: `_apply_perception`. */
  function Reacted(st: EngineState, signals: seq<Signal>, cfg: Config): EngineState {
    var f := Perception.ApplyPerception(Felt(st.mood.vectors, st.trust), signals, cfg);
    st.(mood := st.mood.(vectors := f.vectors), trust := f.trust)
  }

  /** What `decay_memory(dt)` does to a memory snapshot. */
  function DecayedStore(m: Store, dt: real): (r: Store)
    ensures |r.episodes| == |m.episodes|
    ensures forall i :: 0 <= i < |m.episodes| ==> r.episodes[i] == DecayedEpisode(m.episodes[i], dt)
    ensures r.semantic == DecayedFacts(m.semantic, dt)
  {
    Store(seq(|m.episodes|, i requires 0 <= i < |m.episodes| => DecayedEpisode(m.episodes[i], dt)),
          DecayedFacts(m.semantic, dt))
  }

  /** `decay_memory` keeps every episode but its salience, which stays at
      least zero and never rises; a fact keeps its key and value, and it is
      found afterwards exactly when its decayed confidence reaches the floor,
      with that confidence; no key is added and keys stay distinct. */
  lemma DecayedStoreFades(m: Store, dt: real, k: string)
    requires DistinctKeys(m.semantic) && dt >= 0.0
    requires forall i :: 0 <= i < |m.episodes| ==> 0.0 <= m.episodes[i].salience <= 1.0
    ensures var r := DecayedStore(m, dt);
      && |r.episodes| == |m.episodes|
      && (forall i :: 0 <= i < |m.episodes| ==>
            && 0.0 <= r.episodes[i].salience <= m.episodes[i].salience
            && r.episodes[i].(salience := m.episodes[i].salience) == m.episodes[i])
      && DistinctKeys(r.semantic)
      && Lookup(r.semantic, k) == DecayedLookup(Lookup(m.semantic, k), dt)
  {
    forall i | 0 <= i < |m.episodes|
      ensures DecayedStore(m, dt).episodes[i].salience <= m.episodes[i].salience
    {
      DecayedEpisodeFades(m.episodes[i], dt);
    }
    forall i | 0 <= i < |m.episodes|
      ensures 0.0 <= DecayedStore(m, dt).episodes[i].salience
      ensures DecayedStore(m, dt).episodes[i].(salience := m.episodes[i].salience) == m.episodes[i]
    {
      DecayedEpisodeFades(m.episodes[i], dt);
    }
    DecayedFactsDistinct(m.semantic, dt);
    DecayedFactsLookup(m.semantic, dt, k);
  }

  /** Memory after the decay and the occasional consolidation of an update. */
  function UpdatedMemory(m: Store, dt: real, u: UnitDraw, now: real): Store {
    var decayed := DecayedStore(m, dt);
    if u < ConsolidateChance then Consolidated(decayed, now) else decayed
  }

  /** The stream after `k` draws. */
  function Skip(rng: Stream, k: nat): (r: Stream)
    ensures r.draws == rng.draws && r.pos == rng.pos + k
  {
    Stream(rng.draws, rng.pos + k)
  }

  /** The state after the counter of `_update_loop` and the save it
      triggers. */
  function Counted(st: EngineState, cfg: Config): EngineState {
    if st.sinceSave + 1 >= SaveEvery
    then st.(sinceSave := 0, stateFile := Some(Saved(PersistedOf(st), cfg.persistVersion)))
    else st.(sinceSave := st.sinceSave + 1)
  }

  /** The update step: `_update_loop` at time `now`. One draw decides the
      consolidation, seven more jitter the defense scores. */
  function Updated(st: EngineState, now: real, cfg: Config): EngineState {
    var dt := Elapsed(now, st.lastUpdate);
    var mood := Tick(st.mood, dt, cfg);
    var memory := UpdatedMemory(st.memory, dt, st.rng.Peek(), now);
    var rng := st.rng.Advance();
    var scores := Scores(mood.vectors, mood.sub, NextDraws(rng, |Modes|));
    var defense := Step(st.defense, scores, now, cfg);
    Counted(EngineState(mood, defense, st.trust, now, st.sinceSave, Skip(rng, |Modes|), memory, st.stateFile), cfg)
  }

  /** Whether the decision draws a phrase. */
  predicate Manipulates(st: EngineState) {
    ChooseStrategy(st.mood.vectors, st.trust) != NoStrategy
  }

  /** `_decide_and_construct`: the decision and the stream after it. */
  function Decided(st: EngineState, now: real): (Decision, Stream) {
    var v := st.mood.vectors;
    var style := StyleFor(st.defense.current);
    var strat := ChooseStrategy(v, st.trust);
    var eps := st.memory.episodes;
    var d := Decision(
      WithManipulation(style.instruction, strat, st.rng.Peek()),
      style.style,
      InvasionChance(v, st.mood.energy),
      CrisisEvents(v),
      Texts(TopEligible(eps, 3, 0.05)),
      st.defense.current,
      v, st.mood.sub, st.mood.energy, st.trust,
      TraumaIndex(eps, now),
      TopEligible(eps, 5, 0.02),
      MaxTokens);
    (d, if Manipulates(st) then st.rng.Advance() else st.rng)
  }

  /** `perceive(user_input, system_context)` at time `now`, with `parse_text`
      as written. */
  function Perceived(st: EngineState, userInput: string, systemContext: string, now: real, cfg: Config): (Decision, EngineState) {
    var signals := ParseTextAsWritten(userInput, systemContext);
    var s := Updated(Reacted(Remembered(st, userInput, signals, now, cfg.maxEpisodeHistory), signals, cfg), now, cfg);
    var (d, rng) := Decided(s, now);
    (d, s.(rng := rng))
  }

  /** The ranges the engine's state keeps. */
  ghost predicate Sane(st: EngineState) {
    && st.mood.InRange()
    && 0.0 <= st.trust <= 100.0
    && DistinctKeys(st.memory.semantic)
    && forall i :: 0 <= i < |st.memory.episodes| ==> 0.0 <= st.memory.episodes[i].salience <= 1.0
  }

  /** The state snapshot and prompt the decision carries: the current
      vectors, sub-vectors, energy, trust and mode, all in range, with the
      invasion chance and trauma index in [0, 1] and a 200-token budget. */
  lemma DecidedReportsState(st: EngineState, now: real)
    requires Sane(st)
    ensures Decided(st, now).0.vectors == st.mood.vectors && Decided(st, now).0.vectors.InUnit()
    ensures Decided(st, now).0.sub == st.mood.sub && Decided(st, now).0.sub.InUnit()
    ensures Decided(st, now).0.energy == st.mood.energy && 0.0 <= Decided(st, now).0.energy <= 1.0
    ensures Decided(st, now).0.trust == st.trust && 0.0 <= Decided(st, now).0.trust <= 100.0
    ensures Decided(st, now).0.defense == st.defense.current
    ensures 0.0 <= Decided(st, now).0.invasionChance <= 1.0
    ensures 0.0 <= Decided(st, now).0.traumaIndex <= 1.0
    ensures Decided(st, now).0.maxTokens == 200
  {
    TraumaIndexProps(st.memory.episodes, now);
  }

  /** The fact values `rag_retrieve` finds: those whose key or value contains
      the lower-cased query, in insertion order. */
  function RagFacts(sem: seq<FactEntry>, q: string): seq<string> {
    if |sem| == 0 then []
    else
      var e := sem[|sem| - 1];
      RagFacts(sem[..|sem| - 1], q)
        + (if Contains(LowerStr(e.key), q) || Contains(LowerStr(e.fact.value), q) then [e.fact.value] else [])
  }

  // ---------------------------------------------------------------- properties

  /** Every signal the parser emits has a positive magnitude. */
  lemma ParsedMagnitudes(userInput: string, systemContext: string)
    ensures var s := ParseTextAsWritten(userInput, systemContext);
      forall i :: 0 <= i < |s| ==> s[i].magnitude > 0.0
  {
    ParseTextAsWrittenFires(userInput, systemContext, Threat);
  }

  /** The stored list is a suffix of the old list plus the new episode. */
  lemma AppendedSuffix(eps: seq<Episode>, ep: Episode, cap: int)
    ensures var s := eps + [ep];
      var r := Appended(eps, ep, cap);
      |r| <= |s| && r == s[|s| - |r|..]
  {
  }

  /** Appending an episode with salience in [0, 1] keeps every salience there. */
  lemma AppendedSaliences(eps: seq<Episode>, ep: Episode, cap: int)
    requires forall i :: 0 <= i < |eps| ==> 0.0 <= eps[i].salience <= 1.0
    requires 0.0 <= ep.salience <= 1.0
    ensures var r := Appended(eps, ep, cap);
      forall i :: 0 <= i < |r| ==> 0.0 <= r[i].salience <= 1.0
  {
    var s := eps + [ep];
    var r := Appended(eps, ep, cap);
    AppendedSuffix(eps, ep, cap);
    forall i | 0 <= i < |r| ensures 0.0 <= r[i].salience <= 1.0 {
      var j := |s| - |r| + i;
      assert r[i] == s[j];
      if j < |eps| {
        assert s[j] == eps[j];
      } else {
        assert s[j] == ep;
      }
    }
  }

  lemma RememberedSane(st: EngineState, userInput: string, signals: seq<Signal>, now: real, cap: int)
    requires Sane(st)
    ensures Sane(Remembered(st, userInput, signals, now, cap))
  {
    if Memorable(userInput, signals) {
      var ep := InputEpisode(userInput, signals, now);
      AppendedSaliences(st.memory.episodes, ep, cap);
      var r := Remembered(st, userInput, signals, now, cap);
      assert r == st.(memory := st.memory.(episodes := Appended(st.memory.episodes, ep, cap)));
    }
  }

  lemma ReactedSane(st: EngineState, userInput: string, systemContext: string, cfg: Config)
    requires Sane(st)
    ensures Sane(Reacted(st, ParseTextAsWritten(userInput, systemContext), cfg))
  {
    ParsedMagnitudes(userInput, systemContext);
    ApplyPerceptionInRange(Felt(st.mood.vectors, st.trust), ParseTextAsWritten(userInput, systemContext), cfg);
  }

  /** Decay and consolidation keep the number and texts of the episodes,
      saliences in [0, 1] and fact keys distinct. */
  lemma UpdatedMemorySane(m: Store, dt: real, u: UnitDraw, now: real)
    requires DistinctKeys(m.semantic) && dt >= 0.0
    requires forall i :: 0 <= i < |m.episodes| ==> 0.0 <= m.episodes[i].salience <= 1.0
    ensures var r := UpdatedMemory(m, dt, u, now);
      && DistinctKeys(r.semantic)
      && |r.episodes| == |m.episodes|
      && (forall i :: 0 <= i < |r.episodes| ==> 0.0 <= r.episodes[i].salience <= 1.0)
      && (forall i :: 0 <= i < |r.episodes| ==> r.episodes[i].text == m.episodes[i].text)
  {
    var d := DecayedStore(m, dt);
    forall i | 0 <= i < |m.episodes|
      ensures 0.0 <= d.episodes[i].salience <= 1.0 && d.episodes[i].text == m.episodes[i].text
    {
      DecayedEpisodeFades(m.episodes[i], dt);
    }
    DecayedFactsDistinct(m.semantic, dt);
    if u < ConsolidateChance {
      ConsolidatedProps(d, now);
    }
  }

  lemma UpdatedSane(st: EngineState, now: real, cfg: Config)
    requires Sane(st) && cfg.WellFormed()
    ensures Sane(Updated(st, now, cfg))
  {
    var dt := Elapsed(now, st.lastUpdate);
    TickInRange(st.mood, dt, cfg);
    UpdatedMemorySane(st.memory, dt, st.rng.Peek(), now);
  }

  /** `perceive` keeps every vector, sub-vector and the energy in [0, 1],
      trust in [0, 100], saliences in [0, 1] and fact keys distinct. */
  lemma PerceivedSane(st: EngineState, userInput: string, systemContext: string, now: real, cfg: Config)
    requires Sane(st) && cfg.WellFormed()
    ensures Sane(Perceived(st, userInput, systemContext, now, cfg).1)
  {
    var signals := ParseTextAsWritten(userInput, systemContext);
    var s1 := Remembered(st, userInput, signals, now, cfg.maxEpisodeHistory);
    RememberedSane(st, userInput, signals, now, cfg.maxEpisodeHistory);
    ReactedSane(s1, userInput, systemContext, cfg);
    UpdatedSane(Reacted(s1, signals, cfg), now, cfg);
  }

  /** Whatever was loaded, after one `perceive` every vector is in [0, 1]. */
  lemma PerceivedVectorsInUnit(st: EngineState, userInput: string, systemContext: string, now: real, cfg: Config)
    ensures Perceived(st, userInput, systemContext, now, cfg).1.mood.vectors.InUnit()
  {
    var signals := ParseTextAsWritten(userInput, systemContext);
    var s2 := Reacted(Remembered(st, userInput, signals, now, cfg.maxEpisodeHistory), signals, cfg);
    var dt := Elapsed(now, s2.lastUpdate);
    assert Updated(s2, now, cfg).mood.vectors == ClampAll(Decayed(s2.mood.vectors, dt, cfg));
  }

  /** One `perceive` takes eight draws (one for consolidation, seven for the
      defense jitter) and a ninth exactly when the instruction carries a
      manipulation line. */
  lemma PerceivedDraws(st: EngineState, userInput: string, systemContext: string, now: real, cfg: Config)
    ensures var (d, r) := Perceived(st, userInput, systemContext, now, cfg);
      && r.rng.draws == st.rng.draws
      && (r.rng.pos == st.rng.pos + 8 || r.rng.pos == st.rng.pos + 9)
      && (r.rng.pos == st.rng.pos + 9 <==> d.instruction != StyleFor(d.defense).instruction)
  {
    var signals := ParseTextAsWritten(userInput, systemContext);
    var s := Updated(Reacted(Remembered(st, userInput, signals, now, cfg.maxEpisodeHistory), signals, cfg), now, cfg);
    assert s.rng == Skip(st.rng, 8);
    var strat := ChooseStrategy(s.mood.vectors, s.trust);
    WithManipulationProps(StyleFor(s.defense.current).instruction, strat, s.rng.Peek());
  }

  /** The save counter runs 1..7 and every eighth `perceive` writes the
      state file, which then loads back as the engine's persisted state. */
  lemma PerceivedSaves(st: EngineState, userInput: string, systemContext: string, now: real, cfg: Config, other: Persisted)
    requires 0 <= st.sinceSave < SaveEvery
    ensures var r := Perceived(st, userInput, systemContext, now, cfg).1;
      && 0 <= r.sinceSave < SaveEvery
      && (st.sinceSave + 1 < SaveEvery ==> r.sinceSave == st.sinceSave + 1 && r.stateFile == st.stateFile)
      && (st.sinceSave + 1 == SaveEvery ==>
            r.sinceSave == 0 && r.stateFile.Some?
            && Load(other, r.stateFile.value, cfg.persistVersion) == PersistedOf(r))
  {
    var r := Perceived(st, userInput, systemContext, now, cfg).1;
    if st.sinceSave + 1 == SaveEvery {
      LoadSaved(PersistedOf(r), other, cfg.persistVersion);
    }
  }

  /** The defense mode changes only after the dwell time, then to a
      different mode stamped with `now`, and it stays one of the seven names. */
  lemma PerceivedDefense(st: EngineState, userInput: string, systemContext: string, now: real, cfg: Config)
    requires cfg.WellFormed()
    ensures var r := Perceived(st, userInput, systemContext, now, cfg).1;
      && (now - st.defense.lastChange < cfg.transitionDelay ==> r.defense == st.defense)
      && (r.defense != st.defense ==> r.defense.current != st.defense.current && r.defense.lastChange == now)
      && (IsModeName(st.defense.current) ==> IsModeName(r.defense.current))
  {
    var signals := ParseTextAsWritten(userInput, systemContext);
    var s2 := Reacted(Remembered(st, userInput, signals, now, cfg.maxEpisodeHistory), signals, cfg);
    var mood := Tick(s2.mood, Elapsed(now, s2.lastUpdate), cfg);
    var scores := Scores(mood.vectors, mood.sub, NextDraws(s2.rng.Advance(), |Modes|));
    assert Updated(s2, now, cfg).defense == Step(st.defense, scores, now, cfg);
    if Step(st.defense, scores, now, cfg) != st.defense {
      StepChangesMode(st.defense, scores, now, cfg);
    }
    if IsModeName(st.defense.current) {
      StepKeepsModeName(st.defense, scores, now, cfg);
    }
  }

  /** A memorable input becomes the newest episode, cut to 2000 characters,
      and the list grows by one up to the capacity; any other input leaves
      the number of episodes alone. */
  lemma PerceivedRemembers(st: EngineState, userInput: string, systemContext: string, now: real, cfg: Config)
    requires Sane(st) && cfg.WellFormed()
    ensures var r := Perceived(st, userInput, systemContext, now, cfg).1;
      var n := |st.memory.episodes|;
      if Memorable(userInput, ParseTextAsWritten(userInput, systemContext)) then
        && |r.memory.episodes| == (if n + 1 < cfg.maxEpisodeHistory then n + 1 else cfg.maxEpisodeHistory)
        && r.memory.episodes[|r.memory.episodes| - 1].text == SliceTo(userInput, TextLimit)
      else |r.memory.episodes| == n
  {
    var signals := ParseTextAsWritten(userInput, systemContext);
    var s1 := Remembered(st, userInput, signals, now, cfg.maxEpisodeHistory);
    RememberedSane(st, userInput, signals, now, cfg.maxEpisodeHistory);
    ReactedSane(s1, userInput, systemContext, cfg);
    var s2 := Reacted(s1, signals, cfg);
    var dt := Elapsed(now, s2.lastUpdate);
    UpdatedMemorySane(s2.memory, dt, s2.rng.Peek(), now);
    assert Updated(s2, now, cfg).memory == UpdatedMemory(s2.memory, dt, s2.rng.Peek(), now);
    if Memorable(userInput, signals) {
      AppendedKeepsNewest(st.memory.episodes, InputEpisode(userInput, signals, now), cfg.maxEpisodeHistory);
    }
  }

  /** The prompt's memory (`memory_snippets` in `_decide_and_construct`): the
      texts of at most three stored episodes of salience at least 0.05, as
      many as are eligible up to three. */
  lemma SnippetBounds(eps: seq<Episode>)
    ensures var snippets := Texts(TopEligible(eps, 3, 0.05));
      && |snippets| == (var n := |Eligible(eps, 0.05)|; if n < 3 then n else 3)
      && (forall i :: 0 <= i < |snippets| ==> exists e :: e in eps && e.salience >= 0.05 && e.text == snippets[i])
  {
    var top := TopEligible(eps, 3, 0.05);
    TopEligibleSize(eps, 3, 0.05);
    forall i | 0 <= i < |top|
      ensures exists e :: e in eps && e.salience >= 0.05 && e.text == Texts(top)[i]
    {
      TopEligibleMembers(eps, 3, 0.05);
      assert top[i] in top;
    }
  }

  /** The inspector's `top_memory`: at most five stored episodes of salience
      at least 0.02, each at most as often as it is stored. */
  lemma TopMemoryBounds(eps: seq<Episode>)
    ensures var top := TopEligible(eps, 5, 0.02);
      && |top| == (var n := |Eligible(eps, 0.02)|; if n < 5 then n else 5)
      && (forall e :: e in top ==> e in eps && e.salience >= 0.02)
      && multiset(top) <= multiset(eps)
  {
    TopEligibleSize(eps, 5, 0.02);
    TopEligibleMembers(eps, 5, 0.02);
  }

  /** One entry of the coupling table applied to `w`. */
  function Couple(w: Vectors, src: Dim, amount: real, l: Link): Vectors {
    if l.source == src then w.Set(l.target, Unit(w.Get(l.target) + amount * l.coefficient)) else w
  }

  /** One more entry of the coupling loop. */
  lemma PropagateSnoc(v: Vectors, src: Dim, amount: real, links: seq<Link>, i: nat)
    requires i < |links|
    ensures Propagate(v, src, amount, links[..i + 1]) == Couple(Propagate(v, src, amount, links[..i]), src, amount, links[i])
  {
    assert links[..i + 1][..i] == links[..i];
    assert links[..i + 1][i] == links[i];
  }

  /** The body of the coupling loop. */
  method CoupleStep(w: Vectors, d: Dim, amount: real, l: Link) returns (v: Vectors)
    ensures v == Couple(w, d, amount, l)
  {
    v := w;
    if l.source == d {
      v := v.Set(l.target, Unit(v.Get(l.target) + amount * l.coefficient));
    }
  }

  /** The loop of `_delta_vector` over a coupling table. */
  method PropagateLoop(v0: Vectors, d: Dim, amount: real, links: seq<Link>) returns (v: Vectors)
    ensures v == Propagate(v0, d, amount, links)
  {
    v := v0;
    var i := 0;
    while i < |links|
      invariant 0 <= i <= |links|
      invariant v == Propagate(v0, d, amount, links[..i])
    {
      var l := links[i];
      PropagateSnoc(v0, d, amount, links, i);
      v := CoupleStep(v, d, amount, l);
      i := i + 1;
    }
    assert links[..|links|] == links;
  }

  /** Whether a fact is found for a lower-cased query. */
  predicate RagMatch(e: FactEntry, q: string) {
    Contains(LowerStr(e.key), q) || Contains(LowerStr(e.fact.value), q)
  }

  /** The values found are exactly the values of the matching facts. */
  lemma {:induction false} RagFactsSpec(sem: seq<FactEntry>, q: string)
    ensures forall x :: x in RagFacts(sem, q) <==> exists e :: e in sem && RagMatch(e, q) && e.fact.value == x
  {
    if |sem| > 0 {
      var pre := sem[..|sem| - 1];
      var e := sem[|sem| - 1];
      RagFactsSpec(pre, q);
      assert sem == pre + [e];
      forall x | x in RagFacts(sem, q) ensures exists e' :: e' in sem && RagMatch(e', q) && e'.fact.value == x {
        if x in RagFacts(pre, q) {
          var e' :| e' in pre && RagMatch(e', q) && e'.fact.value == x;
          assert e' in sem;
        } else {
          assert e in sem && RagMatch(e, q) && e.fact.value == x;
        }
      }
      forall x | exists e' :: e' in sem && RagMatch(e', q) && e'.fact.value == x ensures x in RagFacts(sem, q) {
        var e' :| e' in sem && RagMatch(e', q) && e'.fact.value == x;
        if e' in pre {
          assert x in RagFacts(pre, q);
        } else {
          assert e' == e;
        }
      }
    }
  }

  /** The empty query matches every fact, so every value is found. */
  lemma {:induction false} RagFactsEmptyQuery(sem: seq<FactEntry>)
    ensures |RagFacts(sem, "")| == |sem|
  {
    if |sem| > 0 {
      RagFactsEmptyQuery(sem[..|sem| - 1]);
      assert OccursAt(LowerStr(sem[|sem| - 1].key), "", 0);
    }
  }

  /** The clamp loop of `_update_loop` over the five dimensions. */
  method ClampLoop(v0: Vectors) returns (v: Vectors)
    ensures v == ClampAll(v0)
  {
    v := v0;
    var i := 0;
    while i < |AllDims|
      invariant 0 <= i <= |AllDims|
      invariant forall j :: 0 <= j < i ==> v.Get(AllDims[j]) == Unit(v0.Get(AllDims[j]))
      invariant forall j :: i <= j < |AllDims| ==> v.Get(AllDims[j]) == v0.Get(AllDims[j])
    {
      var d := AllDims[i];
      v := v.Set(d, Unit(v.Get(d)));
      i := i + 1;
    }
    assert v.Get(AllDims[0]) == Unit(v0.Get(Panic));
    assert v.Get(AllDims[1]) == Unit(v0.Get(Corruption));
    assert v.Get(AllDims[2]) == Unit(v0.Get(Malice));
    assert v.Get(AllDims[3]) == Unit(v0.Get(Hope));
    assert v.Get(AllDims[4]) == Unit(v0.Get(Obsession));
  }

  /** The scoring half of `_choose_defense_mechanism`: the seven base scores
      in table order, each jittered by the next draw. */
  method JitteredScores(v: Vectors, sv: SubVectors, rng: Stream) returns (scores: seq<real>, r: Stream)
    ensures scores == Scores(v, sv, NextDraws(rng, |Modes|))
    ensures r == Skip(rng, |Modes|)
  {
    r := rng;
    scores := seq(|Modes|, i requires 0 <= i < |Modes| => BaseScore(Modes[i], v, sv));
    var i := 0;
    while i < |Modes|
      invariant 0 <= i <= |Modes| && |scores| == |Modes|
      invariant r == Skip(rng, i)
      invariant forall j :: 0 <= j < i ==> scores[j] == BaseScore(Modes[j], v, sv) + Jitter(rng.draws(rng.pos + j))
      invariant forall j :: i <= j < |Modes| ==> scores[j] == BaseScore(Modes[j], v, sv)
    {
      scores := scores[i := scores[i] + Jitter(r.Peek())];
      r := r.Advance();
      i := i + 1;
    }
  }

  /** The manipulation step of `_decide_and_construct`: with a strategy, one
      draw picks the phrase appended to the instruction. */
  method Manipulated(instr: string, strat: Strategy, rng: Stream) returns (r: string, next: Stream)
    ensures r == WithManipulation(instr, strat, rng.Peek())
    ensures next == if strat != NoStrategy then rng.Advance() else rng
  {
    r, next := instr, rng;
    var phrases := Phrases(strat);
    PhrasesEmptyIffNone(strat);
    if strat != NoStrategy && |phrases| > 0 {
      var chosen := phrases[Pick(rng.Peek(), |phrases|)];
      next := rng.Advance();
      r := instr + ManipulationLine(StrategyName(strat), chosen);
    }
  }

  class PsychoEngine {
    const cfg: Config
    var vectors: Vectors
    var sub: SubVectors
    var energy: real
    var currentDefense: string
    var trust: real
    var lastDefenseChange: real
    var lastUpdateTime: real
    var episodesSinceSave: int
    var rng: Stream
    var memory: MemoryStore
    /** The contents of the state file: what the last save wrote. */
    var stateFile: Option<StatePayload>

    ghost predicate Valid()
      reads this, memory
    {
      cfg.WellFormed() && memory.Valid() && memory.capacity == cfg.maxEpisodeHistory
    }

    function Snapshot(): EngineState
      reads this, memory
    {
      EngineState(Mood(vectors, sub, energy), DefenseState(currentDefense, lastDefenseChange), trust,
                  lastUpdateTime, episodesSinceSave, rng, memory.Snapshot(), stateFile)
    }

    /** `__init__` followed by `load_state()`; `file` is the decoded state
        file, `None` when there is none. */
    constructor(cfg: Config, rng: Stream, now: real, file: Option<StatePayload>)
      requires cfg.WellFormed()
      requires file.Some? ==> file.value.Decoded()
      ensures Valid()
      ensures PersistedOf(Snapshot()) == if file.Some? then Load(Initial, file.value, cfg.persistVersion) else Initial
      ensures sub == ZeroSubVectors && lastUpdateTime == now && episodesSinceSave == 0
      ensures this.rng == rng && stateFile == file && this.cfg == cfg
    {
      this.cfg := cfg;
      vectors := InitialVectors;
      sub := ZeroSubVectors;
      energy := 1.0;
      currentDefense := "RATIONALIZATION";
      trust := 50.0;
      memory := new MemoryStore(cfg.maxEpisodeHistory);
      lastUpdateTime := now;
      episodesSinceSave := 0;
      lastDefenseChange := 0.0;
      this.rng := rng;
      stateFile := file;
      new;
      if file.Some? {
        LoadState(file.value);
      }
    }

    /** `load_state` on the decoded file. */
    method LoadState(data: StatePayload)
      requires Valid() && data.Decoded()
      modifies this, memory
      ensures Valid() && memory == old(memory)
      ensures PersistedOf(Snapshot()) == Load(old(PersistedOf(Snapshot())), data, cfg.persistVersion)
      ensures sub == old(sub) && lastUpdateTime == old(lastUpdateTime)
      ensures episodesSinceSave == old(episodesSinceSave) && rng == old(rng) && stateFile == old(stateFile)
    {
      if Version(data) < cfg.persistVersion {
        if data.vectors.Some? {
          vectors := Merged(vectors, data.vectors.value);
        }
        energy := OrElse(data.energy, energy);
      } else {
        if data.vectors.Some? {
          vectors := Merged(vectors, data.vectors.value);
        }
        energy := OrElse(data.energy, energy);
        if data.memory.Some? && data.memory.value.Truthy() {
          memory.ImportState(data.memory.value);
        }
      }
      currentDefense := OrElse(data.defense, currentDefense);
      trust := OrElse(data.trust, trust);
      lastDefenseChange := OrElse(data.lastDefenseChange, 0.0);
    }

    /** `save_state`. */
    method SaveState()
      modifies this
      ensures stateFile == Some(Saved(PersistedOf(old(Snapshot())), cfg.persistVersion))
      ensures Snapshot() == old(Snapshot()).(stateFile := stateFile) && memory == old(memory)
    {
      stateFile := Some(Saved(PersistedOf(Snapshot()), cfg.persistVersion));
    }

    /** `emergency_reset`: calm vectors, zero sub-vectors, full energy, the
        rationalisation mode, neutral trust and an empty memory, saved at
        once. The time of the last mode change is kept. */
    method EmergencyReset()
      requires Valid()
      modifies this
      ensures Valid() && fresh(memory)
      ensures PersistedOf(Snapshot()) == Initial.(vectors := ResetVectors, lastDefenseChange := old(lastDefenseChange))
      ensures sub == ZeroSubVectors
      ensures stateFile == Some(Saved(PersistedOf(Snapshot()), cfg.persistVersion))
      ensures lastUpdateTime == old(lastUpdateTime) && episodesSinceSave == old(episodesSinceSave) && rng == old(rng)
    {
      vectors := ResetVectors;
      sub := ZeroSubVectors;
      energy := 1.0;
      currentDefense := "RATIONALIZATION";
      trust := 50.0;
      memory := new MemoryStore(cfg.maxEpisodeHistory);
      SaveState();
    }

    /** `_delta_vector(name, amount)`: unknown names are ignored; otherwise the
        named dimension moves and the coupling table propagates the change. */
    method DeltaVector(name: string, amount: real)
      modifies this
      ensures vectors == Affect.DeltaVector(old(vectors), name, amount)
      ensures Snapshot() == old(Snapshot()).(mood := old(Snapshot()).mood.(vectors := vectors))
      ensures memory == old(memory)
    {
      var named := DimNamed(name);
      if named.None? {
        return;
      }
      var d := named.value;
      vectors := PropagateLoop(vectors.Set(d, Unit(vectors.Get(d) + amount)), d, amount, CrossInfluence);
    }

    /** One signal of `_apply_perception`. */
    method ApplySignal(s: Signal)
      modifies this
      ensures Felt(vectors, trust) == Perception.ApplySignal(old(Felt(vectors, trust)), s, cfg)
      ensures Snapshot() == old(Snapshot()).(mood := old(Snapshot()).mood.(vectors := vectors), trust := trust)
      ensures memory == old(memory)
    {
      var mag := s.magnitude;
      match s.kind
      case Threat =>
        DeltaVector("panic", Weighted(mag, cfg.weightThreat));
        DeltaVector("malice", mag * 0.4);
        trust := TrustDown(trust, mag);
      case SystemThreat =>
        DeltaVector("panic", 0.12 * mag);
      case TriggerEnemy =>
        DeltaVector("obsession", Weighted(mag, cfg.weightBeliytoporik));
        DeltaVector("panic", 0.18 * mag);
      case Support =>
        DeltaVector("hope", Weighted(mag, cfg.weightSupport));
        trust := TrustUp(trust, mag);
      case Shout =>
        DeltaVector("panic", 0.08 * mag);
        DeltaVector("malice", 0.04 * mag);
      case Praise =>
        DeltaVector("hope", 0.03 * mag);
    }

    /** `_apply_perception(signals)`: the signals in order. */
    method ApplyPerception(signals: seq<Signal>)
      modifies this
      ensures Snapshot() == Reacted(old(Snapshot()), signals, cfg) && memory == old(memory)
    {
      ghost var st0 := Snapshot();
      var i := 0;
      while i < |signals|
        invariant 0 <= i <= |signals|
        invariant Snapshot() == Reacted(st0, signals[..i], cfg) && memory == old(memory)
      {
        assert signals[..i + 1][..i] == signals[..i];
        ApplySignal(signals[i]);
        i := i + 1;
      }
      assert signals[..|signals|] == signals;
    }
  
    /** The clamp pass of `_update_loop`, one dimension at a time. */
    method ClampVectors()
      modifies this
      ensures vectors == ClampAll(old(vectors))
      ensures Snapshot() == old(Snapshot()).(mood := old(Snapshot()).mood.(vectors := vectors))
      ensures memory == old(memory)
    {
      var v := ClampLoop(vectors);
      vectors := v;
    }

    /** The decay and drift assignments of `_update_loop`. */
    method DecayVectors(dt: real)
      modifies this
      ensures vectors == Decayed(old(vectors), dt, cfg)
      ensures Snapshot() == old(Snapshot()).(mood := old(Snapshot()).mood.(vectors := vectors))
      ensures memory == old(memory)
    {
      var v, c := vectors, cfg;
      v := v.(panic := Unit(v.panic - Scaled(c.decayFast, dt)));
      v := v.(malice := Unit(v.malice - Scaled(c.decaySlow, dt)));
      v := v.(obsession := Unit(v.obsession - Scaled(c.decaySlow * 0.8, dt)));
      v := v.(corruption := Unit(v.corruption + Scaled(c.corruptionDrift, dt) - Scaled(v.hope * 0.0009, dt)));
      vectors := v;
    }

    /** The sub-vector and energy assignments of `_update_loop`. */
    method UpdateSubAndEnergy(dt: real)
      modifies this
      ensures vectors == old(vectors)
      ensures sub == Startled(old(sub), vectors.panic)
      ensures energy == Recovered(old(energy), vectors.panic, dt, cfg)
      ensures Snapshot() == old(Snapshot()).(mood := Mood(vectors, sub, energy))
      ensures memory == old(memory)
    {
      sub := sub.(startle := Unit(sub.startle * 0.9 + vectors.panic * 0.02));
      sub := sub.(dread := Unit(sub.dread * 0.995 + vectors.panic * 0.001));
      if vectors.panic > 0.7 {
        energy := AtLeastZero(energy - Scaled(cfg.energyCostPerAction, dt) * 0.2);
      } else {
        energy := AtMostOne(energy + Scaled(cfg.energyRecoveryRate, dt));
      }
    }

    /** The passes of `_update_loop` before the memory: `Tick`. */
    method Decay(dt: real)
      modifies this
      ensures Mood(vectors, sub, energy) == Tick(old(Mood(vectors, sub, energy)), dt, cfg)
      ensures Snapshot() == old(Snapshot()).(mood := Mood(vectors, sub, energy))
      ensures memory == old(memory)
    {
      DecayVectors(dt);
      UpdateSubAndEnergy(dt);
      ClampVectors();
    }

    /** `_choose_defense_mechanism` at time `now`: seven draws jitter the
        scores in table order, then the dwell and margin gates decide. */
    method ChooseDefenseMechanism(now: real)
      modifies this
      ensures DefenseState(currentDefense, lastDefenseChange)
           == Step(old(DefenseState(currentDefense, lastDefenseChange)),
                   Scores(vectors, sub, NextDraws(old(rng), |Modes|)), now, cfg)
      ensures rng == Skip(old(rng), |Modes|)
      ensures Snapshot() == old(Snapshot()).(defense := DefenseState(currentDefense, lastDefenseChange), rng := rng)
      ensures memory == old(memory)
    {
      var scores, r := JitteredScores(vectors, sub, rng);
      rng := r;
      var best := BestIndex(scores);
      var currentScore := CurrentScore(scores, currentDefense);
      if now - lastDefenseChange < cfg.transitionDelay {
        return;
      }
      if scores[best] > currentScore + cfg.transitionHysteresis {
        currentDefense := ModeName(Modes[best]);
        lastDefenseChange := now;
      }
    }

    /** The memory passes of `_update_loop`: decay by `dt`, then one draw
        decides whether to consolidate. */
    method UpdateMemory(dt: real, now: real)
      requires Valid()
      modifies this, memory
      ensures Valid() && memory == old(memory)
      ensures rng == old(rng).Advance()
      ensures memory.Snapshot() == UpdatedMemory(old(memory.Snapshot()), dt, old(rng).Peek(), now)
      ensures Snapshot() == old(Snapshot()).(rng := rng, memory := memory.Snapshot())
    {
      ghost var m0 := memory.Snapshot();
      memory.DecayMemory(dt);
      assert memory.Snapshot() == DecayedStore(m0, dt);
      var u := rng.Peek();
      rng := rng.Advance();
      if u < ConsolidateChance {
        memory.Consolidate(now);
      }
    }

    /** The save counter of `_update_loop`: every eighth update writes the
        state file. */
    method CountUpdate()
      modifies this
      ensures Snapshot() == Counted(old(Snapshot()), cfg) && memory == old(memory)
    {
      episodesSinceSave := episodesSinceSave + 1;
      if episodesSinceSave >= SaveEvery {
        SaveState();
        episodesSinceSave := 0;
      }
    }

    /** `_update_loop` at time `now`. */
    method UpdateLoop(now: real)
      requires Valid()
      modifies this, memory
      ensures Valid() && memory == old(memory)
      ensures Snapshot() == Updated(old(Snapshot()), now, cfg)
    {
      var dt := Elapsed(now, lastUpdateTime);
      lastUpdateTime := now;
      Decay(dt);
      UpdateMemory(dt, now);
      ChooseDefenseMechanism(now);
      CountUpdate();
    }

    /** `_decide_and_construct` at time `now`: one draw picks the phrase, and
        only when a strategy applies. */
    method DecideAndConstruct(now: real) returns (d: Decision)
      modifies this
      ensures (d, rng) == Decided(old(Snapshot()), now)
      ensures Snapshot() == old(Snapshot()).(rng := rng) && memory == old(memory)
    {
      var next;
      d, next := Decide(now);
      rng := next;
    }

    /** The decision and the stream after it, computed from the current state. */
    method Decide(now: real) returns (d: Decision, next: Stream)
      ensures (d, next) == Decided(Snapshot(), now)
    {
      var style := StyleFor(currentDefense);
      var instr;
      instr, next := Manipulated(style.instruction, ChooseStrategy(vectors, trust), rng);
      var invasion := InvasionChance(vectors, energy);
      var crisis := CrisisEvents(vectors);
      var snippets := Texts(memory.RecallTop(3, 0.05));
      var trauma := TraumaIndex(memory.episodes, now);
      d := Decision(instr, style.style, invasion, crisis, snippets, currentDefense, vectors, sub, energy, trust,
                    trauma, memory.RecallTop(5, 0.02), MaxTokens);
    }

    /** The remember step of `perceive`: a salient, non-blank input is stored. */
    method RememberInput(userInput: string, signals: seq<Signal>, now: real)
      requires Valid()
      modifies memory
      ensures Valid()
      ensures Snapshot() == Remembered(old(Snapshot()), userInput, signals, now, cfg.maxEpisodeHistory)
    {
      var salience := EstimateSalience(signals);
      if salience > 0.02 && Strip(userInput) != "" {
        var _ := memory.RememberEpisode(userInput, salience, KindNames(signals), now);
      }
    }

    /** `perceive(user_input, system_context)` at time `now`, with `parse_text`
        as written. */
    method Perceive(userInput: string, systemContext: string, now: real) returns (d: Decision)
      requires Valid()
      modifies this, memory
      ensures Valid() && memory == old(memory)
      ensures (d, Snapshot()) == Perceived(old(Snapshot()), userInput, systemContext, now, cfg)
    {
      var signals := ParseTextAsWritten(userInput, systemContext);
      RememberInput(userInput, signals, now);
      ApplyPerception(signals);
      UpdateLoop(now);
      d := DecideAndConstruct(now);
    }

    /** `rag_retrieve(query, top_k)`: the first `k` matching fact values,
        or, when no fact matches, the texts of the keyword recall. */
    method RagRetrieve(query: string, k: int) returns (r: seq<string>)
      ensures var facts := RagFacts(memory.semantic, LowerStr(query));
        r == if |facts| > 0 then SliceTo(facts, k) else Texts(memory.RecallByKeyword(query, k))
    {
      var q := LowerStr(query);
      var sem := memory.semantic;
      var facts: seq<string> := [];
      var i := 0;
      while i < |sem|
        invariant 0 <= i <= |sem|
        invariant facts == RagFacts(sem[..i], q)
      {
        var e := sem[i];
        assert sem[..i + 1][..i] == sem[..i];
        if Contains(LowerStr(e.key), q) || Contains(LowerStr(e.fact.value), q) {
          facts := facts + [e.fact.value];
        }
        i := i + 1;
      }
      assert sem[..|sem|] == sem;
      if |facts| > 0 {
        return SliceTo(facts, k);
      }
      return Texts(memory.RecallByKeyword(query, k));
    }
  }
}
