# Artyom character-state engine, in Dafny

This project models the core of a chat companion that plays a distressed
program called Artyom.

**The engine (`AdvancedPsychoEngine`)** keeps:
- five affect dimensions in [0, 1]: panic, corruption, malice, hope and obsession;
- two pairs of sub-vectors;
- an energy level;
- a trust score in [0, 100];
- a defense mode with a dwell timer;
- a memory module of episodes and semantic facts.

**Each `perceive` call** does five things, in order:
1. parses the user's line into typed signals;
2. may remember the line as an episode;
3. applies the signals to the affect vectors, with a one-hop cross-influence table;
4. runs the update loop: dt-scaled decay, sub-vector averaging, energy, memory decay, occasional consolidation, defense choice and periodic save;
5. builds a decision: style, manipulation phrase, invasion chance, crisis events, memory snippets and trauma index.

**Around the engine:**
- The console front end (main.py) keeps a bounded chat history. It assembles the message list, serialises it into the model's prompt format and filters the model's reply.
- A false-memory helper keeps a duplicate-free list of phrases. It may plant one of them into the chat log.

**Modules.** There is one module per concept:

| module | models |
|---|---|
| `Numeric` | `_clamp`, `clamp01` |
| `PySeq` | Python slicing |
| `Text` | lower-casing, `strip`, `split`, `in` on strings |
| `Config` | `PsychoConfig` as an immutable record |
| `Rng` | the random stream |
| `Affect` | vectors, cross-influence and decay |
| `Facts` | the semantic dict as an ordered list |
| `Ranking` | a stable descending sort (the stability is `Ranking.SortDescStable`) |
| `Memory` | `MemoryModule`, as a class |
| `Perception` | `parse_text`, salience and `_apply_perception` |
| `Manipulation` | `choose_strategy` |
| `Defense` | `_choose_defense_mechanism` |
| `Decisions` | the pieces of `_decide_and_construct` and `_compute_trauma_index` |
| `Persistence` | the load/save records |
| `Engine` | `AdvancedPsychoEngine`, as a class |
| `Chat` | the helpers in main.py |
| `FalseMemories` | false_memory.py |

**How the model handles time, randomness and files:**
- The clock is a `now` parameter.
- The random generator is an infinite stream of draws in [0, 1) with a cursor.
  - `random.choice` and `randint` over n items pick index ⌊u·n⌋.
- Decoded JSON files are records with optional fields.

**How the proofs are set up:**
- Each state-changing method of the two big classes is proved equal to a pure function of the old state. Examples: the memory store's `Consolidate`, and the engine's `UpdateLoop` and `Perceive`.
- The properties are then proved as lemmas about those functions.

A few places where the model follows the code as written rather than what its
comments or documentation suggest:
- `_clamp` maps a float NaN and anything that cannot be converted to `lo`. A NaN produced by converting a value such as the string `"nan"` passes through `max(lo, min(hi, NaN))`, which yields `hi` (`Numeric.ClampValue`).
- `clamp01(NaN)` is 1.0 for the same reason.
- `_update_loop` floors dt at 10⁻⁶ seconds, so an update at an unchanged clock still decays a little (`Affect.Elapsed`).
- `save_state` does not write the sub-vectors. A save followed by a load therefore restores everything held in the persisted record, and the sub-vectors of the loading engine stay as they were.
- `get_false_recollection` draws a phrase but does not put it in the text it returns. Only the faked time of day appears.
- `emergency_reset` keeps `last_defense_change`.

## Model

| member | source | states |
|---|---|---|
| Numeric.Clamp | advanced_psycho_engine.py:514 | `max(lo, min(hi, x))`: result ≥ lo; ≤ hi when lo ≤ hi; identity inside the range; pinned at each end; `lo` when hi < lo |
| Numeric.Unit | advanced_psycho_engine.py:504-514 | the default-range clamp lands in [0, 1] and is the identity on [0, 1] |
| Numeric.ClampValue | advanced_psycho_engine.py:504-514 | `_clamp` on any Python value: within [lo, hi]; float NaN and a failed conversion give lo; a converted NaN gives hi; a finite value in range is returned unchanged |
| Numeric.Clamp01 | main.py:94-99 | `clamp01` is always in [0, 1]; a non-numeric value gives 0.0; NaN gives 1.0; values in [0, 1] are kept |
| Numeric.ClampMonotone | advanced_psycho_engine.py:514 | clamping preserves order |
| PySeq.SliceTo | advanced_psycho_engine.py:62 | `s[:k]` is a prefix of length min(k, len) for k ≥ 0 and len + k (floored at 0) for negative k |
| PySeq.LastN | advanced_psycho_engine.py:70 | `s[-n:]` is a suffix of length min(n, len) for n > 0, the whole list for n = 0, and len + n (floored at 0) for negative n |
| PySeq.Filter | advanced_psycho_engine.py:74 | a list comprehension keeps exactly the members that pass the test, each at most as often as it occurs |
| PySeq.FilterCounts | advanced_psycho_engine.py:74 | a passing element is kept as often as it occurs, and a failing one not at all |
| PySeq.Kept | advanced_psycho_engine.py:74 | the positions of the passing elements, increasing, and no other |
| PySeq.FilterKeepsOrder | advanced_psycho_engine.py:74 | the comprehension's result is the input read at the passing positions, in order |
| Text.LowerStr | advanced_psycho_engine.py:150 | `lower()` keeps the length, maps each character, and leaves no upper-case letter |
| Text.Strip | main.py:246 | `strip()` is empty exactly for all-blank text, otherwise starts and ends with a non-blank; it is the slice of the input that starts after the leading blanks and covers every non-blank character |
| Text.Words | advanced_psycho_engine.py:87 | `split()` yields non-empty words with no blanks |
| Text.WordsAreRuns | advanced_psycho_engine.py:87 | every word of `split()` is a maximal run of non-blank characters of the input |
| Text.RunsAreWords | advanced_psycho_engine.py:87 | every maximal run of non-blank characters is a word of `split()` |
| Config.DefaultWellFormed | advanced_psycho_engine.py:19-30 | the default constants satisfy the ranges the proofs rely on |
| Rng.Pick | false_memory.py:63 | a drawn index is inside the list |
| Affect.DimNamed | advanced_psycho_engine.py:295-296 | a name maps to the dimension of that name, or to none when no dimension has it |
| Affect.DimNamedInverse | advanced_psycho_engine.py:214-220 | every dimension is found by its own name |
| Affect.PropagateTable | advanced_psycho_engine.py:229-235 | the cross-influence table: panic feeds corruption (0.008) and malice (0.02); malice feeds panic (0.01); obsession feeds malice (0.03); hope feeds panic (−0.02); corruption feeds nothing |
| Affect.DeltaVectorEffect | advanced_psycho_engine.py:294-300 | an unknown name changes nothing; otherwise the named dimension becomes clamp(v + amount), every table target becomes clamp(v_t + amount·mul) from its value before the call (no second hop), and every other dimension is untouched |
| Affect.DeltaVectorAlwaysInUnit | advanced_psycho_engine.py:294-300 | `_delta_vector` keeps all five dimensions in [0, 1] |
| Affect.Elapsed | advanced_psycho_engine.py:304 | dt is at least 10⁻⁶ and at least the clock difference, and equals it when that is at least 10⁻⁶ |
| Affect.ClampAll | advanced_psycho_engine.py:321-322 | the final clamp puts every dimension in [0, 1] and clamps each one separately |
| Affect.TickInRange | advanced_psycho_engine.py:304-322 | after the decay, sub-vector and energy steps, all vectors, sub-vectors and energy are in [0, 1] |
| Affect.TickDecays | advanced_psycho_engine.py:307-309 | panic, malice and obsession never increase, and hope is unchanged |
| Affect.TickEnergy | advanced_psycho_engine.py:316-319 | energy falls only when panic > 0.7; above that threshold it never rises, and below it it never falls |
| Facts.FindKey | advanced_psycho_engine.py:98 | the position of a key is its first occurrence; none exactly when the key is absent |
| Facts.Lookup | advanced_psycho_engine.py:97-99 | a key's fact is present exactly when the key is |
| Facts.Upsert | advanced_psycho_engine.py:95 | assigning an existing key keeps the size; a new key is appended last |
| Facts.UpsertKeys | advanced_psycho_engine.py:95 | after assignment the keys are the old keys plus the new one |
| Facts.UpsertLookup | advanced_psycho_engine.py:95 | last write wins: the assigned key reads back the new fact, and every other key reads as before |
| Facts.UpsertDistinct | advanced_psycho_engine.py:95 | assignment keeps keys distinct |
| Facts.DecayedFactsDistinct | advanced_psycho_engine.py:111-115 | decay keeps keys distinct |
| Facts.DecayedFactsKeys | advanced_psycho_engine.py:111-115 | decay never adds a key |
| Facts.DecayedFactsLookup | advanced_psycho_engine.py:111-115 | per key, the fact after decay is the decayed fact, or absent when its confidence fell below 0.05 |
| Facts.DecayedFactsConfidence | advanced_psycho_engine.py:111-115 | a surviving fact keeps its value and time, and its confidence is non-increasing and ≥ 0.05; a fact whose confidence falls below 0.05 is deleted, one at or above it is kept |
| Facts.DecayedFactsAboveFloor | advanced_psycho_engine.py:113-115 | every fact left after decay has confidence ≥ 0.05 |
| Ranking.Insert | advanced_psycho_engine.py:75 | insertion adds exactly one element |
| Ranking.SortDesc | advanced_psycho_engine.py:75 | the descending sort is a permutation of its input |
| Ranking.SortDescSorted | advanced_psycho_engine.py:75 | the descending sort is ordered by its key |
| PySeq.FilterConcat | advanced_psycho_engine.py:74 | filtering a concatenation is the concatenation of the filtered parts |
| Ranking.SortDescStable | advanced_psycho_engine.py:75 | the sort is stable: for any filter that selects one key, the sorted list filters to exactly the input's filtered list, so equal keys keep their input order |
| Ranking.TopOfRanking | advanced_psycho_engine.py:75-76 | the first k of the sorted list are ordered, drawn from the input multiset, min(k, n) long, and rank at least as high as any element left out |
| Memory.AppendedKeepsNewest | advanced_psycho_engine.py:67-70 | after an append with a positive cap, the length is min(n + 1, cap), the new episode is last, and the others are the newest old ones in their original order |
| Memory.AppendedZeroCap | advanced_psycho_engine.py:68-70 | with a cap of 0, `episodes[-0:]` keeps everything |
| Memory.EmptyQueryMatchesAll | advanced_psycho_engine.py:84-90 | the empty query is in every text, so every episode scores |
| Memory.DecayRateFavoursSalient | advanced_psycho_engine.py:108 | more salient episodes decay no faster |
| Memory.DecayedEpisodeFades | advanced_psycho_engine.py:106-109 | decay keeps salience ≥ 0 and non-increasing, and changes nothing but salience |
| Memory.BoostAllEffect | advanced_psycho_engine.py:125-130 | a boosted salience stays in [0, 1] and never falls; an untagged episode is unchanged; only salience changes |
| Memory.BoostPositive | advanced_psycho_engine.py:126-129 | an episode's boost is positive exactly when it has tags |
| Memory.TopIndicesValid | advanced_psycho_engine.py:132 | the promotion candidates are the top min(5, n) positions |
| Memory.TopIndicesOrdered | advanced_psycho_engine.py:132 | the candidates are in non-increasing salience order |
| Memory.TopIndicesTop | advanced_psycho_engine.py:132 | no episode left out is more salient than a candidate |
| Memory.PromoteEpisodes | advanced_psycho_engine.py:132-136 | promotion sets `consolidated` exactly on candidates with salience > 0.8, never clears it, and changes nothing else |
| Memory.PromoteFacts | advanced_psycho_engine.py:133-135 | promotion adds facts under exactly the promoted keys, keeps keys distinct, and leaves other facts alone |
| Memory.LastPromoted | advanced_psycho_engine.py:132-135 | the last promotable candidate stored under a key, which exists exactly when the key is a promoted key |
| Memory.PromotedFactValues | advanced_psycho_engine.py:133-135 | each promoted key holds the text, the clamped `min(1.0, salience)` as confidence, and the time of the last episode promoted under it |
| Memory.PromoteOnce | advanced_psycho_engine.py:133-136 | a second promotion of the same candidates changes nothing (once-only flag) |
| Memory.PromoteNothing | advanced_psycho_engine.py:133 | with no promotable candidate, promotion is the identity |
| Memory.ConsolidatedProps | advanced_psycho_engine.py:117-136 | consolidation keeps the count and texts, keeps salience in [0, 1], keeps keys distinct, never clears the `consolidated` flag, and sets it only on top-5 episodes with salience > 0.8; keys not promoted keep their facts, and a promoted key holds the fact of the last boosted top episode promoted under it |
| Memory.TopEligibleSize | advanced_psycho_engine.py:73-76 | `recall_top` returns min(top_k, eligible) episodes |
| Memory.TopEligibleMembers | advanced_psycho_engine.py:74 | every recalled episode is stored and meets the minimum salience, and none is recalled more often than it is stored |
| Memory.TopEligibleSorted | advanced_psycho_engine.py:75 | recall is sorted by (salience, time), descending |
| Memory.TopEligibleBest | advanced_psycho_engine.py:75-76 | no eligible episode left out ranks above a recalled one |
| Memory.TopMatchesSize | advanced_psycho_engine.py:89-92 | keyword recall returns min(top_k, matches) episodes |
| Memory.TopMatchesMembers | advanced_psycho_engine.py:81-90 | every recalled episode is stored and has a positive raw score, and none is recalled more often than it is stored |
| Memory.TopMatchesSorted | advanced_psycho_engine.py:91 | keyword recall is ordered by score × salience, descending |
| Memory.TopMatchesBest | advanced_psycho_engine.py:91-92 | no match left out outweighs a recalled one |
| Memory.DecayFactList | advanced_psycho_engine.py:111-115 | the delete-while-iterating loop over a snapshot of the items equals the pure fact decay |
| Memory.PromoteList | advanced_psycho_engine.py:132-136 | the promotion loop equals the pure promotion |
| Memory.ImportExport | advanced_psycho_engine.py:138-143 | importing an export gives the same store back |
| Memory.MemoryStore.constructor | advanced_psycho_engine.py:52-55 | a new store is empty |
| Memory.MemoryStore.RememberEpisode | advanced_psycho_engine.py:57-71 | the stored episode is `text[:2000]` with clamped salience, its tags, `consolidated = False`, time `now`; it is appended under the cap and facts are untouched |
| Memory.MemoryStore.RecallTop | advanced_psycho_engine.py:73-76 | at most top_k episodes, all meeting the minimum, each at most as often as it is stored, sorted by (salience, time) descending, and none left out ranks higher |
| Memory.MemoryStore.RecallByKeyword | advanced_psycho_engine.py:78-92 | at most top_k episodes with a positive raw score, each at most as often as it is stored, ordered by score × salience, and none left out weighs more |
| Memory.MemoryStore.RememberFact | advanced_psycho_engine.py:94-95 | the fact list after the call is the upsert of (value, clamped confidence, now) |
| Memory.MemoryStore.RecallFact | advanced_psycho_engine.py:97-99 | None exactly for an absent key; otherwise the stored value |
| Memory.MemoryStore.DecayMemory | advanced_psycho_engine.py:101-115 | no episode is removed, each is decayed in place, and the facts become their decayed list |
| Memory.MemoryStore.DecayEpisodes | advanced_psycho_engine.py:106-109 | the episode loop decays each episode in place |
| Memory.MemoryStore.DecayFacts | advanced_psycho_engine.py:111-115 | the fact loop, deletions included, gives the decayed list |
| Memory.MemoryStore.Consolidate | advanced_psycho_engine.py:117-136 | the store after the call is the consolidation of the old store |
| Memory.MemoryStore.CountTags | advanced_psycho_engine.py:120-123 | the tag-count dict counts every tag across all episodes |
| Memory.MemoryStore.BoostEpisodes | advanced_psycho_engine.py:125-130 | the boost loop gives the boosted episodes |
| Memory.MemoryStore.PromoteTop | advanced_psycho_engine.py:132-136 | the promotion loop gives the pure promotion of the top five |
| Memory.MemoryStore.ImportState | advanced_psycho_engine.py:141-143 | the store becomes the imported payload, with a missing part read as empty |
| Memory.MemoryStore.Export | advanced_psycho_engine.py:138-139 | the export is truthy and imports back to the same store |
| Perception.EmittedMembers | advanced_psycho_engine.py:149-167 | a signal type is emitted exactly when its test passes |
| Perception.EmittedOrdered | advanced_psycho_engine.py:149-167 | signals come out in the fixed order of the tests |
| Perception.SignalsWellOrdered | advanced_psycho_engine.py:149-167 | at most six signals, in test order, each present exactly when its test passes |
| Perception.ParseTextFires | advanced_psycho_engine.py:148-167 | corrected parser: each signal type is emitted exactly when its keyword test (or the shout test on the input as typed) fires; at most six, in order |
| Perception.ParseTextAsWrittenFires | advanced_psycho_engine.py:148-167 | the parser as written, which the engine uses: each type but shout is emitted exactly when its test fires, shout never is; at most six, in order |
| Perception.AsWrittenNeverShouts | advanced_psycho_engine.py:150-159 | as written, the shout signal is never emitted |
| Perception.ShoutWitness | advanced_psycho_engine.py:159 | "ПОЧИНИТЕ ЭТО" does not shout as written but does shout in the corrected parser |
| Perception.EstimateSalience | advanced_psycho_engine.py:264-270 | salience is in [0, 1] and 0 for no signals |
| Perception.SalienceOfParsed | advanced_psycho_engine.py:264-270 | for parsed signals, salience is > 0.02 exactly when there is a signal, and then at least 0.2 |
| Perception.KindNameInjective | advanced_psycho_engine.py:248 | different signal types have different names |
| Perception.ParsedTags | advanced_psycho_engine.py:248 | an input is tagged with a type's name exactly when that type's test fires, except `shout`; no tag appears twice |
| Perception.ApplySignalInRange | advanced_psycho_engine.py:272-292 | one signal keeps vectors in [0, 1] and trust in [0, 100]; a threat never raises trust, support never lowers it, and other signals leave it alone |
| Perception.ApplyPerceptionInRange | advanced_psycho_engine.py:272-292 | all signals together keep vectors in [0, 1] and trust in [0, 100] |
| Manipulation.ChooseStrategyPriority | advanced_psycho_engine.py:174-204 | NONE exactly when no rule applies; otherwise the first applicable rule in the order GASLIGHTING, VICTIM, GUILT, ULTIMATUM, FLATTERY, even when later ones also apply |
| Manipulation.FirstMatchSpec | advanced_psycho_engine.py:178-204 | first-match-wins over any rule list |
| Manipulation.PhrasesEmptyIffNone | advanced_psycho_engine.py:179-204 | a strategy has phrases exactly when it is not NONE |
| Defense.IndexOf | advanced_psycho_engine.py:337-345 | every mode has its place in the score table |
| Defense.ModeNamedInverse | advanced_psycho_engine.py:337-345 | every mode is found by its own name |
| Defense.Jitter | advanced_psycho_engine.py:347 | a jitter is in [−0.01, 0.01) |
| Defense.BestIndex | advanced_psycho_engine.py:348 | `max` picks a highest score, and the first one in dict order among ties |
| Defense.StepDwell | advanced_psycho_engine.py:351-352 | inside the dwell window neither the mode nor its timestamp changes |
| Defense.StepTransition | advanced_psycho_engine.py:348-355 | a change happens exactly when the window has passed and the best score beats the current one (0.0 for an unknown mode) by more than the hysteresis; then the best mode is chosen, stamped `now` |
| Defense.StepChangesMode | advanced_psycho_engine.py:353-355 | a change always picks a different mode and stamps `now` |
| Defense.StepKeepsModeName | advanced_psycho_engine.py:354 | a valid mode name stays valid |
| Defense.NoQuickSecondTransition | advanced_psycho_engine.py:351-355 | after a change, no second change happens within the dwell time |
| Defense.NextDraws | advanced_psycho_engine.py:346-347 | the seven jitters are the next seven draws, in table order |
| Decisions.StyleForSpecial | advanced_psycho_engine.py:360-377 | the six named modes map to GLITCH, CLINICAL, ANGRY, WHISPER, MANIC and LOW_ENERGY respectively, no two modes share a style, none is NORMAL, and none gets the rationalisation instruction |
| Decisions.StyleForOthers | advanced_psycho_engine.py:378-379 | any other mode gets the rationalisation instruction and NORMAL |
| Decisions.WithManipulationProps | advanced_psycho_engine.py:381-384 | the instruction is kept as a prefix; it is extended exactly when a strategy is chosen, and then with one of that strategy's phrases |
| Decisions.ManipulationLineQuotes | advanced_psycho_engine.py:383-384 | the appended manipulation line keeps the instruction as a strict prefix and quotes the phrase |
| Decisions.InvasionChance | advanced_psycho_engine.py:386-388 | the invasion chance is in [0, 1] |
| Decisions.InvasionChanceInRange | advanced_psycho_engine.py:386-388 | for bounded state the clamp does nothing; full energy doubles the empty-energy chance, and the chance never exceeds it |
| Decisions.CrisisEventsIff | advanced_psycho_engine.py:390-396 | each crisis event is listed exactly when its own threshold is crossed, independently of the others |
| Decisions.HeavyNonEmpty | advanced_psycho_engine.py:431-433 | there is a heavy episode exactly when one has salience > 0.7 |
| Decisions.TraumaIndexProps | advanced_psycho_engine.py:429-438 | the trauma index is in [0, 1], is positive exactly when some episode has salience > 0.7, and is then at least 0.007 |
| Decisions.AgeWeight | advanced_psycho_engine.py:437 | the age weight of an episode is at least 0.01 |
| Persistence.MergedProps | advanced_psycho_engine.py:460 | `vectors.update(...)` with a saved record gives that record's vectors; with no dimension it changes nothing; merging the same record twice is merging it once |
| Persistence.Saved | advanced_psycho_engine.py:476-484 | every key is written; the saved record is a valid decoded file exactly when the fact keys are distinct |
| Persistence.LoadSaved | advanced_psycho_engine.py:458-484 | loading what was saved restores the saved record, whatever the loading engine held |
| Persistence.LoadLegacy | advanced_psycho_engine.py:459-461 | a file older than version 3 merges its vectors and keeps memory |
| Persistence.LoadMemory | advanced_psycho_engine.py:462-467 | memory is replaced only for a current-version file with a truthy memory part |
| Persistence.LoadEmpty | advanced_psycho_engine.py:458-470 | an empty file keeps everything but resets `last_defense_change` to 0.0 |
| Persistence.LoadDistinct | advanced_psycho_engine.py:458-470 | loading keeps fact keys distinct |
| Engine.DecayedStoreFades | advanced_psycho_engine.py:101-115 | `decay_memory` keeps every episode but its salience, which stays ≥ 0 and never rises; a fact is found afterwards exactly when its decayed confidence is at least 0.05, with that confidence; keys stay distinct |
| Engine.ParsedMagnitudes | advanced_psycho_engine.py:153-167 | every parsed signal has a positive magnitude |
| Engine.RememberedSane | advanced_psycho_engine.py:247-248 | remembering keeps the engine's ranges |
| Engine.ReactedSane | advanced_psycho_engine.py:272-292 | reacting keeps the engine's ranges |
| Engine.UpdatedMemorySane | advanced_psycho_engine.py:324-326 | decay plus occasional consolidation keeps count, texts, salience range and distinct keys |
| Engine.UpdatedSane | advanced_psycho_engine.py:302-333 | an update keeps every range |
| Engine.PerceivedSane | advanced_psycho_engine.py:244-252 | `perceive` keeps every range: vectors, sub-vectors and energy in [0, 1], trust in [0, 100], saliences in [0, 1], distinct fact keys |
| Engine.PerceivedVectorsInUnit | advanced_psycho_engine.py:244-252 | after `perceive` the vectors are in [0, 1] from any state |
| Engine.PerceivedDraws | advanced_psycho_engine.py:244-252 | `perceive` takes one draw for consolidation (line 325) and seven jitters (346-347), plus one more exactly when a phrase is chosen (382-383) |
| Engine.PerceivedSaves | advanced_psycho_engine.py:330-333 | the save counter counts to 8; on the eighth update the state is saved so that loading it gives the engine's persisted record, and the counter restarts |
| Engine.PerceivedDefense | advanced_psycho_engine.py:351-355 | inside the dwell window the defense is unchanged; a change picks a new mode stamped `now`; mode names stay valid |
| Engine.PerceivedRemembers | advanced_psycho_engine.py:245-248 | with the parser as written, a salient, non-blank input is stored last as `text[:2000]` under the cap (lines 67-70); otherwise memory keeps its size |
| Engine.DecidedReportsState | advanced_psycho_engine.py:400-416 | from a state in range, the decision reports the current vectors, sub-vectors, energy, trust and mode, all in range, an invasion chance and trauma index in [0, 1], and `max_tokens` 200 |
| Engine.SnippetBounds | advanced_psycho_engine.py:398 | the prompt's memory holds min(3, eligible) texts, each of a stored episode with salience ≥ 0.05 |
| Engine.TopMemoryBounds | advanced_psycho_engine.py:442 | the inspector's `top_memory` holds min(5, eligible) stored episodes with salience ≥ 0.02, each at most as often as it is stored |
| Engine.PropagateLoop | advanced_psycho_engine.py:297-300 | the cross-influence loop equals the pure propagation |
| Engine.RagFactsSpec | advanced_psycho_engine.py:495-497 | the fact values found are exactly those whose key or value contains the lower-cased query |
| Engine.RagFactsEmptyQuery | advanced_psycho_engine.py:495-497 | the empty query finds every fact |
| Engine.JitteredScores | advanced_psycho_engine.py:337-347 | the jitter loop gives the scores of the next seven draws and advances the stream by seven |
| Engine.PsychoEngine.constructor | advanced_psycho_engine.py:208-241 | initial vectors, sub-vectors, energy, mode, trust and an empty memory, then the state file loaded over them when present |
| Engine.PsychoEngine.LoadState | advanced_psycho_engine.py:452-471 | the persisted record becomes the load of the file over the old one, and nothing else changes |
| Engine.PsychoEngine.SaveState | advanced_psycho_engine.py:474-489 | the state file becomes the saved record of the current state, and nothing else changes |
| Engine.PsychoEngine.EmergencyReset | advanced_psycho_engine.py:254-261 | the reset vectors, energy 1.0, RATIONALIZATION, trust 50, zero sub-vectors and a fresh empty memory, with the dwell timestamp kept, and the result saved |
| Engine.PsychoEngine.DeltaVector | advanced_psycho_engine.py:294-300 | the vectors become the pure `_delta_vector` result, nothing else changes |
| Engine.PsychoEngine.ApplySignal | advanced_psycho_engine.py:281-292 | one branch of `_apply_perception`, on vectors and trust only |
| Engine.PsychoEngine.ApplyPerception | advanced_psycho_engine.py:272-292 | the signal loop gives the pure reaction |
| Engine.ClampLoop | advanced_psycho_engine.py:321-322 | the clamp loop over the five dimensions gives each one clamped to [0, 1] |
| Engine.PsychoEngine.ClampVectors | advanced_psycho_engine.py:321-322 | the vectors become the clamped vectors, and nothing else changes |
| Engine.PsychoEngine.DecayVectors | advanced_psycho_engine.py:307-311 | the decay and drift of the four decaying dimensions |
| Engine.PsychoEngine.UpdateSubAndEnergy | advanced_psycho_engine.py:313-319 | the sub-vector averages and the energy step |
| Engine.PsychoEngine.Decay | advanced_psycho_engine.py:307-322 | the whole affect tick |
| Engine.PsychoEngine.ChooseDefenseMechanism | advanced_psycho_engine.py:335-355 | seven draws are taken before the gates; the mode becomes the step of the scored table; nothing else changes |
| Engine.PsychoEngine.UpdateMemory | advanced_psycho_engine.py:324-326 | memory becomes its decay plus the consolidation decided by one draw, and the stream advances by one |
| Engine.PsychoEngine.CountUpdate | advanced_psycho_engine.py:330-333 | the save counter advances, and on the eighth update the state is saved and the counter restarts; nothing else changes |
| Engine.PsychoEngine.UpdateLoop | advanced_psycho_engine.py:302-333 | the state after the call is the pure update of the old state |
| Engine.Manipulated | advanced_psycho_engine.py:381-384 | the instruction extended with a phrase picked by one draw when a strategy applies; the stream advances exactly then |
| Engine.PsychoEngine.DecideAndConstruct | advanced_psycho_engine.py:357-427 | the decision and the stream are the pure decision; no other state changes |
| Engine.PsychoEngine.RememberInput | advanced_psycho_engine.py:245-248 | the memory becomes the remember step: the input is appended under the cap exactly when it is salient and non-blank |
| Engine.PsychoEngine.Perceive | advanced_psycho_engine.py:244-252 | the decision and the new state are the pure `perceive` with the parser as written, in the order parse, remember, react, update, decide |
| Engine.PsychoEngine.RagRetrieve | advanced_psycho_engine.py:492-501 | up to top_k matching fact values in dict order, or the texts of the keyword recall when no fact matches |
| Chat.LoadHistory | main.py:153-162 | a list payload keeps its last min(n, 40) entries; any other payload gives [] |
| Chat.AppendedHistoryProps | main.py:171-173 | after an append the history is 1 to 40 long, ends with the new entry, and the rest is a suffix of the old history in order |
| Chat.ArtyomCore.constructor | main.py:153-162 | the history starts as the loaded history |
| Chat.ArtyomCore.AppendHistory | main.py:171-173 | the history becomes the capped append of (now, role, content) |
| Chat.MessagesShape | main.py:212-215 | one system message, then the last min(len, 10) history entries in order, then the user's input |
| Chat.BuildMessages | main.py:212-215 | the message loop builds exactly that list |
| Chat.RoleTag | main.py:233 | "user" stays "user", and every other role becomes "assistant" |
| Chat.FirstSystem | main.py:227-228 | none exactly when there is no system message; otherwise the content of the first one |
| Chat.WrapForModel | main.py:225-235 | the buffer loop builds the wrapped prompt |
| Chat.WrappedStartsWithHeader | main.py:226 | the prompt starts with the fixed system header |
| Chat.LaterSystemIgnored | main.py:227-232 | changing any system message after the first leaves the prompt unchanged |
| Chat.BodyAppend | main.py:231-234 | the turns are rendered one by one in input order |
| Chat.BodySingle | main.py:232-234 | a system turn renders as nothing, any other as its tagged block |
| Chat.PromptShape | main.py:212-235 | the prompt of a built message list is the header, the system block with its end tag, the rendered history turns, then the user turn |
| Chat.ReplaceAllNoMatch | main.py:240-241 | a substitution without a match changes nothing |
| Chat.ReplaceAllIntroduces | main.py:240-241 | a substitution with a match puts the replacement in the text |
| Chat.HasLatinRun | main.py:244 | the run test holds exactly when five ASCII letters in a row occur |
| Chat.NameInLowered | main.py:240-244 | the lower-cased text contains the lower-case name exactly when the name matches case-insensitively |
| Chat.CleanOutput | main.py:238-246 | the reply is the noise string, or has no five-letter Latin run, or contains `beliytoporik` in lower case; noise exactly when the substituted text is blocked, otherwise the stripped substituted text |
| Chat.StripKeepsRuns | main.py:246 | stripping adds no Latin run and keeps the name in the lower-cased text |
| Chat.CleanOutputKeepsRussian | main.py:238-246 | text without ASCII letters or the Cyrillic name is only stripped |
| Chat.CleanOutputBlocksLatin | main.py:244-245 | a Latin run without either spelling of the name is replaced by noise |
| Chat.CleanOutputSparesName | main.py:240-246 | when the Latin name occurs and the Cyrillic pass finds nothing more to replace, Latin runs do not block the reply: it is the stripped substituted text |
| FalseMemories.WithFalseMemory | false_memory.py:40-43 | the new list holds the old phrases plus the text; it is unchanged exactly when the text was there; it grows by at most one at the end; no duplicate appears |
| FalseMemories.WithFalseMemoryIdempotent | false_memory.py:40-43 | adding a phrase twice equals adding it once |
| FalseMemories.SeedingGivesSeeds | false_memory.py:12-18 | the three seed adds on an empty list give exactly the three phrases, in order, without duplicates |
| FalseMemories.FalseRecollection | false_memory.py:45-55 | the text is non-empty exactly when the gate passes; it is empty for low corruption and malice or an empty list; otherwise it is the fixed line with the time of day |
| FalseMemories.RecollectionChanceBounded | false_memory.py:50 | with vectors in [0, 1] the chance is at most one half (exactly one half at corruption = malice = 1), so no draw ≥ 0.5 recollects |
| FalseMemories.Inserted | false_memory.py:70 | `list.insert` adds one element at the index |
| FalseMemories.InsertedRemoved | false_memory.py:70 | removing the inserted element gives the original list |
| FalseMemories.AlteredLog | false_memory.py:57-71 | the log is unchanged unless the gate passes; otherwise it grows by one |
| FalseMemories.AlteredLogForges | false_memory.py:61-70 | the forged entry is at the drawn index, says "USER", carries the time of the entry it displaced, holds a stored phrase, and every original entry keeps its order |
| FalseMemories.FalseMemory.constructor | false_memory.py:8-18 | the log is the loaded log, and the phrase list is the three seeds |
| FalseMemories.FalseMemory.AddFalseMemory | false_memory.py:40-43 | the list becomes the duplicate-free add, and the log is untouched |
| FalseMemories.FalseMemory.AddMessageToLog | false_memory.py:35-38 | one entry (stamp, sender, message) is appended to the log |
| FalseMemories.FalseMemory.SubtlyAlterLog | false_memory.py:57-71 | the log becomes the altered log of its draws, and the phrases are untouched |

## Left out

**I/O and frameworks**
- File reading and writing is out: the config file, the state file, the history file and the chat log. Modelling I/O is out of scope. Decoded contents are parameters (`StatePayload`, `HistoryPayload`, the loaded log), and a save is a payload value kept in the engine.
- `json.load` failures and the exception swallowing in `load_state` and `_load_history` are modelled only as the payload variants they lead to (`Unreadable`, a missing file).
- Logging, the console loop, colour output, the spinner thread, the thread pool and the window-title API are out. They are I/O, concurrency or foreign OS calls.
- The LLM HTTP call with its retries is out. It is network I/O.
- The modules/ effect plugins and their dynamic loading with `importlib` are out. They are foreign side effects and reflection.
- `PsychoConfig.load_from_file` is out. The config is the immutable default record; overriding constants from a file is I/O.

**Clock and randomness**
- `time.time()` and `datetime.now()` are a `now` parameter. The source reads the clock afresh at every read: in `remember_episode` (line 61), `remember_fact` (line 95), `_update_loop` (line 303), `_choose_defense_mechanism` (line 336), `_compute_trauma_index` (line 436) and the snapshot's timestamp (line 407). Within one `perceive` the model uses a single `now` for every clock read.
- `random.Random` is the draw stream.
  - CPython's `choice` and `randint` are modelled as ⌊u·n⌋ of one draw. This keeps the draw count and the range but not CPython's exact index.
  - In false_memory.py the module-level `random` is a separate generator from the engine's. Its draws are parameters.

**Numbers and text**
- IEEE-754 arithmetic is out: values are exact reals. NaN and non-numbers are modelled only where `_clamp` and `clamp01` handle them (`Numeric.PyValue`).
- `lower()`, `isupper()` and the case-insensitive substitution in `clean_output` cover ASCII and the Cyrillic capitals U+0400–U+042F (А–Я and Ѐ–Џ, which include Ё), not full Unicode case mapping.

**Data shapes**
- History, episode and log items in files are assumed to be well-formed records. A file list holding non-records is not modelled.
- `load_state` in the current-version branch replaces the whole vectors dict with the file's. The model keeps the five dimensions and fills a missing one from the old value. A file with extra or missing vector keys is therefore not modelled exactly.
- `save_state` does not write the sub-vectors, so a load restores everything except them. `Persistence.LoadSaved` states the round trip on the persisted record, which has no sub-vectors.

**Decision output**
- `get_inspector_data` is modelled only through its `top_memory` list (`recall_top(5, 0.02)`), which the decision carries. Its copies of the vectors, mode and trust are decision fields too, but its dict shape is not modelled.
- The formatted `llm_prompt` system line and the state snapshot's ISO timestamp are not modelled. These are string formatting of values the decision already carries.

**Stated weakly**
- FalseMemories.FalseRecollection: the time of day is a parameter. `randint(5, 60)` and the `%H:%M` formatting are not modelled, since they need the wall clock.
- Text.Words: the words are stated to be exactly the maximal non-blank runs, not that they come in input order, because the one caller (line 87) only takes their set.
- Chat.CleanOutput: the case-insensitive match is only as wide as `Text.Lower`, which covers ASCII and the Cyrillic capitals U+0400–U+042F.
- Engine.PsychoEngine.RagRetrieve: `str(value)` is the identity, because fact values are strings in the model. The source also accepts other values, but only strings are stored by this core.

## Findings

| source | as written | input that shows it | evidently intended | confidence | as-written member | corrected member |
|---|---|---|---|---|---|---|
| advanced_psycho_engine.py:150-159 | `txt.isupper()` runs on `txt`, which is already lower-cased, so the shout signal is never emitted for inputs whose capitals are in the modelled ranges (ASCII and Cyrillic U+0400–U+042F); capitals that `lower()` leaves alone, such as "ℍℍ", are not modelled | `parse_text("ПОЧИНИТЕ ЭТО")` returns no shout signal | test the input as typed, so that an all-capitals message shouts | not executed | Perception.AsWrittenNeverShouts (with Perception.ParseTextAsWritten and Perception.ShoutWitness) | Perception.ParseTextFires (about Perception.ParseText); the engine keeps the parser as written, like the source |
