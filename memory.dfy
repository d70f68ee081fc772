/**
 * `MemoryModule`: a bounded list of episodes (what was said, how salient it
 * was, its signal tags) and the semantic fact store. Recall ranks episodes,
 * decay lets salience and confidence fade with time, and consolidation boosts
 * frequently tagged episodes and promotes the most salient ones to facts,
 * each episode once.
 */
module Memory {
  import opened Wrappers
  import opened Numeric
  import opened PySeq
  import opened Text
  import opened Ranking
  import opened Facts

  datatype Episode = Episode(time: real, text: string, salience: real, tags: seq<string>, consolidated: bool)

  /** Stored episode texts are cut to this many characters. */
  const TextLimit := 2000
  /** Consolidated facts are keyed by this many leading characters, stripped. */
  const FactKeyLength := 60
  /** How many of the most salient episodes a consolidation looks at. */
  const PromoteCount := 5
  /** Salience an episode needs to become a fact. */
  const PromoteThreshold := 0.8

  // ---------------------------------------------------------------- appending

  /** The episode list after `append` and the `[-MAX:]` cut. */
  function Appended(eps: seq<Episode>, ep: Episode, cap: int): seq<Episode> {
    var s := eps + [ep];
    if |s| > cap then LastN(s, cap) else s
  }

  /** With a positive cap the list holds at most `cap` episodes, the new one is
      last, and what is kept are the newest episodes in their original order. */
  lemma AppendedKeepsNewest(eps: seq<Episode>, ep: Episode, cap: int)
    requires cap > 0
    ensures var r := Appended(eps, ep, cap);
      && |r| == (if |eps| + 1 < cap then |eps| + 1 else cap)
      && r[|r| - 1] == ep
      && r == (eps + [ep])[|eps| + 1 - |r|..]
      && r[..|r| - 1] == eps[|eps| + 1 - |r|..]
  {
    var s := eps + [ep];
    var r := Appended(eps, ep, cap);
    assert r[..|r| - 1] == s[|s| - |r|..|s| - 1];
    assert s[..|s| - 1] == eps;
  }

  /** A cap of zero bounds nothing: `s[-0:]` is all of `s`. */
  lemma AppendedZeroCap(eps: seq<Episode>, ep: Episode)
    ensures Appended(eps, ep, 0) == eps + [ep]
  {
  }

  // ---------------------------------------------------------------- recall

  /** `recall_top`'s sort key `(salience, time)`. */
  function RecencyKey(e: Episode): RankKey {
    RankKey(e.salience, e.time)
  }

  /** The episodes at or above `minSal`, in list order. */
  function Eligible(eps: seq<Episode>, minSal: real): seq<Episode> {
    Filter(eps, (e: Episode) => e.salience >= minSal)
  }

  /** `recall_by_keyword`'s raw score of an episode text `t` for a query `q`,
      both already lower-cased: 1 for a substring hit plus 0.05 per shared word. */
  function KeywordScore(q: string, t: string): real {
    (if Contains(t, q) then 1.0 else 0.0) + 0.05 * (|WordSet(q) * WordSet(t)| as real)
  }

  /** The key episodes are ranked by: score times salience. */
  function KeywordWeight(q: string, e: Episode): real {
    KeywordScore(q, LowerStr(e.text)) * e.salience
  }

  /** The episodes with a positive raw score, in list order. */
  function KeywordMatches(eps: seq<Episode>, q: string): seq<Episode> {
    Filter(eps, (e: Episode) => KeywordScore(q, LowerStr(e.text)) > 0.0)
  }

  /** An empty query is a substring of every text, so it matches everything. */
  lemma EmptyQueryMatchesAll(eps: seq<Episode>)
    ensures KeywordMatches(eps, "") == eps
  {
    forall e | e in eps ensures KeywordScore("", LowerStr(e.text)) > 0.0 {
      assert OccursAt(LowerStr(e.text), "", 0);
      assert |WordSet("") * WordSet(LowerStr(e.text))| >= 0;
    }
    FilterAll(eps, (e: Episode) => KeywordScore("", LowerStr(e.text)) > 0.0);
  }

  lemma {:induction false} FilterAll<T(!new)>(s: seq<T>, p: T -> bool)
    requires forall x :: x in s ==> p(x)
    ensures Filter(s, p) == s
  {
    if |s| > 0 {
      var pre := s[..|s| - 1];
      assert forall x :: x in pre ==> x in s;
      FilterAll(pre, p);
      assert p(s[|s| - 1]);
      assert Filter(s, p) == Filter(pre, p) + [s[|s| - 1]];
      assert s == pre + [s[|s| - 1]];
    }
  }

  // ---------------------------------------------------------------- decay

  /** `0.0002 + (1.0 - salience) * 0.001`: weak episodes fade faster. */
  function DecayRate(s: real): (rate: real)
    ensures s <= 1.0 ==> rate >= 0.0002
  {
    0.0002 + (1.0 - s) * 0.001
  }

  lemma DecayRateFavoursSalient(s1: real, s2: real)
    requires s1 <= s2
    ensures DecayRate(s2) <= DecayRate(s1)
  {
  }

  function DecayedEpisode(e: Episode, dt: real): Episode {
    e.(salience := AtLeastZero(e.salience - DecayRate(e.salience) * dt))
  }

  /** Decay keeps the episode apart from its salience, which never rises and
      never goes below zero. */
  lemma DecayedEpisodeFades(e: Episode, dt: real)
    requires e.salience <= 1.0 && dt >= 0.0
    ensures var d := DecayedEpisode(e, dt);
      && d.salience >= 0.0
      && (e.salience >= 0.0 ==> d.salience <= e.salience)
      && d.(salience := e.salience) == e
  {
    var r := DecayRate(e.salience);
    assert r * dt >= 0.0;
  }

  // ---------------------------------------------------------------- consolidation

  /** Occurrences of `t` in one tag list. */
  function Count(ts: seq<string>, t: string): nat {
    if |ts| == 0 then 0 else Count(ts[..|ts| - 1], t) + (if ts[|ts| - 1] == t then 1 else 0)
  }

  /** `tag_count[t]` after the counting loop over `eps`. */
  function TagCount(eps: seq<Episode>, t: string): nat {
    if |eps| == 0 then 0 else TagCount(eps[..|eps| - 1], t) + Count(eps[|eps| - 1].tags, t)
  }

  /** `dict.get(t, 0)` on the count map. */
  function CountOf(m: map<string, nat>, t: string): nat {
    if t in m then m[t] else 0
  }

  /** An episode's boost: 0.01 per occurrence, over all episodes, of each of its tags. */
  function Boost(ts: seq<string>, eps: seq<Episode>): real {
    if |ts| == 0 then 0.0 else Boost(ts[..|ts| - 1], eps) + 0.01 * (TagCount(eps, ts[|ts| - 1]) as real)
  }

  /** One episode after the boost pass; `if boost:` skips a zero boost. */
  function Boosted(e: Episode, eps: seq<Episode>): Episode {
    var b := Boost(e.tags, eps);
    if b != 0.0 then e.(salience := Unit(e.salience + b)) else e
  }

  function BoostAll(eps: seq<Episode>): (r: seq<Episode>)
    ensures |r| == |eps|
  {
    seq(|eps|, i requires 0 <= i < |eps| => Boosted(eps[i], eps))
  }

  lemma {:induction false} CountMember(ts: seq<string>, t: string)
    requires t in ts
    ensures Count(ts, t) >= 1
  {
    if ts[|ts| - 1] != t {
      assert t in ts[..|ts| - 1];
      CountMember(ts[..|ts| - 1], t);
    }
  }

  lemma {:induction false} TagCountMember(eps: seq<Episode>, i: nat, t: string)
    requires i < |eps| && t in eps[i].tags
    ensures TagCount(eps, t) >= 1
  {
    if i == |eps| - 1 {
      CountMember(eps[i].tags, t);
    } else {
      TagCountMember(eps[..|eps| - 1], i, t);
    }
  }

  /** Every tag of an episode in the list has been counted at least once, so
      the boost is positive exactly when the episode has tags. */
  lemma {:induction false} BoostPositive(eps: seq<Episode>, i: nat, ts: seq<string>)
    requires i < |eps| && forall t :: t in ts ==> t in eps[i].tags
    ensures ts != [] <==> Boost(ts, eps) > 0.0
    ensures Boost(ts, eps) >= 0.0
  {
    if ts != [] {
      assert forall t :: t in ts[..|ts| - 1] ==> t in ts;
      BoostPositive(eps, i, ts[..|ts| - 1]);
      TagCountMember(eps, i, ts[|ts| - 1]);
    }
  }

  /** The boost pass keeps salience within [0, 1], raises exactly the tagged
      episodes (short of the cap) and changes nothing but salience. */
  lemma BoostAllEffect(eps: seq<Episode>, i: nat)
    requires i < |eps| && 0.0 <= eps[i].salience <= 1.0
    ensures var b := BoostAll(eps)[i];
      && 0.0 <= b.salience <= 1.0
      && b.salience >= eps[i].salience
      && (eps[i].tags == [] ==> b == eps[i])
      && b.(salience := eps[i].salience) == eps[i]
  {
    BoostPositive(eps, i, eps[i].tags);
  }

  /** Orders positions by their episode's salience, as `key=lambda x: x["salience"]`. */
  function SalienceKey(eps: seq<Episode>): nat -> RankKey {
    (i: nat) => if i < |eps| then RankKey(eps[i].salience, 0.0) else RankKey(0.0, 0.0)
  }

  /** `[0, 1, ..., n - 1]`. */
  function Positions(n: nat): (r: seq<nat>)
    ensures |r| == n && forall i :: 0 <= i < n ==> r[i] == i
  {
    if n == 0 then [] else Positions(n - 1) + [n - 1]
  }

  /** The positions of `sorted(episodes, key=salience, reverse=True)[:5]`. */
  function TopIndices(eps: seq<Episode>): seq<nat> {
    SliceTo(SortDesc(Positions(|eps|), SalienceKey(eps)), PromoteCount)
  }

  lemma TopIndicesValid(eps: seq<Episode>)
    ensures var top := TopIndices(eps);
      && |top| == (if |eps| < PromoteCount then |eps| else PromoteCount)
      && forall a :: 0 <= a < |top| ==> top[a] < |eps|
  {
    var all := Positions(|eps|);
    var top := TopIndices(eps);
    TopOfRanking(all, SalienceKey(eps), PromoteCount);
    forall a | 0 <= a < |top| ensures top[a] < |eps| {
      assert top[a] in multiset(top);
      assert top[a] in multiset(all);
      var j :| 0 <= j < |all| && all[j] == top[a];
    }
  }

  /** The five positions, read in order, have non-increasing salience. */
  lemma TopIndicesOrdered(eps: seq<Episode>)
    ensures var top := TopIndices(eps);
      && (forall a :: 0 <= a < |top| ==> top[a] < |eps|)
      && (forall a, b :: 0 <= a < b < |top| ==> eps[top[a]].salience >= eps[top[b]].salience)
  {
    var key := SalienceKey(eps);
    var top := TopIndices(eps);
    TopIndicesValid(eps);
    SortDescSorted(Positions(|eps|), key);
    var sorted := SortDesc(Positions(|eps|), key);
    assert top == sorted[..|top|];
    forall a, b | 0 <= a < b < |top| ensures eps[top[a]].salience >= eps[top[b]].salience {
      assert top[a] == sorted[a] && top[b] == sorted[b];
      assert RanksAtLeast(key(sorted[a]), key(sorted[b]));
      assert key(top[a]) == RankKey(eps[top[a]].salience, 0.0);
      assert key(top[b]) == RankKey(eps[top[b]].salience, 0.0);
    }
  }

  /** No position left out of the five is more salient than one taken. */
  lemma TopIndicesTop(eps: seq<Episode>)
    ensures var top := TopIndices(eps);
      forall i, j :: 0 <= i < |eps| && i !in top && j in top && j < |eps| ==> eps[j].salience >= eps[i].salience
  {
    var all := Positions(|eps|);
    var key := SalienceKey(eps);
    var top := TopIndices(eps);
    TopIndicesValid(eps);
    TopOfRanking(all, key, PromoteCount);
    forall i, j | 0 <= i < |eps| && i !in top && j in top && j < |eps| ensures eps[j].salience >= eps[i].salience {
      assert all[i] == i && i in all;
      var b :| 0 <= b < |top| && top[b] == j;
      assert RanksAtLeast(key(j), key(i));
      assert key(j) == RankKey(eps[j].salience, 0.0);
      assert key(i) == RankKey(eps[i].salience, 0.0);
    }
  }

  /** A memory snapshot: the two collections `consolidate` changes. */
  datatype Store = Store(episodes: seq<Episode>, semantic: seq<FactEntry>)

  /** `(text[:60]).strip()`. */
  function FactKey(e: Episode): string {
    Strip(SliceTo(e.text, FactKeyLength))
  }

  /** What a promoted episode is remembered as: its text, with confidence
      `min(1.0, salience)` clamped again by `remember_fact`. */
  function PromotedFact(e: Episode, now: real): Fact {
    Fact(e.text, Unit(AtMostOne(e.salience)), now)
  }

  predicate Promotable(e: Episode) {
    e.salience > PromoteThreshold && !e.consolidated
  }

  /** One iteration of the promotion loop, on position `i`. */
  function PromoteOne(st: Store, i: nat, now: real): Store {
    if i < |st.episodes| && Promotable(st.episodes[i]) then
      var e := st.episodes[i];
      Store(st.episodes[i := e.(consolidated := true)], Upsert(st.semantic, FactKey(e), PromotedFact(e, now)))
    else st
  }

  /** The promotion loop over `idxs`. */
  function Promote(st: Store, idxs: seq<nat>, now: real): Store {
    if |idxs| == 0 then st
    else PromoteOne(Promote(st, idxs[..|idxs| - 1], now), idxs[|idxs| - 1], now)
  }

  /** The keys promotion writes: those of the promotable episodes among `idxs`. */
  function PromotedKeys(eps: seq<Episode>, idxs: seq<nat>): set<string> {
    set i | i in idxs && i < |eps| && Promotable(eps[i]) :: FactKey(eps[i])
  }

  /** The flag closed form: an episode ends up consolidated iff it was, or it is
      among `idxs` and salient enough. Nothing else about an episode changes. */
  lemma {:induction false} PromoteEpisodes(st: Store, idxs: seq<nat>, now: real)
    ensures var r := Promote(st, idxs, now).episodes;
      && |r| == |st.episodes|
      && forall i :: 0 <= i < |r| ==>
           r[i] == st.episodes[i].(consolidated := st.episodes[i].consolidated
                                    || (i in idxs && st.episodes[i].salience > PromoteThreshold))
  {
    if |idxs| > 0 {
      var pre := idxs[..|idxs| - 1];
      PromoteEpisodes(st, pre, now);
      assert forall i :: i in idxs <==> i in pre || i == idxs[|idxs| - 1];
    }
  }

  /** The fact closed form: promotion adds exactly the promoted keys, leaves
      every other key's fact alone and keeps the keys distinct. */
  lemma {:induction false} PromoteFacts(st: Store, idxs: seq<nat>, now: real)
    requires DistinctKeys(st.semantic)
    ensures var r := Promote(st, idxs, now).semantic;
      && DistinctKeys(r)
      && KeySet(r) == KeySet(st.semantic) + PromotedKeys(st.episodes, idxs)
      && forall k :: k !in PromotedKeys(st.episodes, idxs) ==> Lookup(r, k) == Lookup(st.semantic, k)
  {
    if |idxs| > 0 {
      var pre := idxs[..|idxs| - 1];
      var i := idxs[|idxs| - 1];
      var mid := Promote(st, pre, now);
      PromoteFacts(st, pre, now);
      PromoteEpisodes(st, pre, now);
      var eps := st.episodes;
      assert forall j :: j in idxs <==> j in pre || j == i;
      if i < |mid.episodes| && Promotable(mid.episodes[i]) {
        var e := mid.episodes[i];
        assert e.text == eps[i].text && Promotable(eps[i]);
        UpsertDistinct(mid.semantic, FactKey(e), PromotedFact(e, now));
        UpsertKeys(mid.semantic, FactKey(e), PromotedFact(e, now));
        assert PromotedKeys(eps, idxs) == PromotedKeys(eps, pre) + {FactKey(e)};
        forall k | k !in PromotedKeys(eps, idxs)
          ensures Lookup(Promote(st, idxs, now).semantic, k) == Lookup(st.semantic, k)
        {
          UpsertLookup(mid.semantic, FactKey(e), PromotedFact(e, now), k);
        }
      } else {
        assert PromotedKeys(eps, idxs) == PromotedKeys(eps, pre);
      }
    }
  }

  /** The position whose episode ends up stored under key `k`: the last
      promotable position among `idxs` with that key. A position met again
      is already consolidated, so only its first occurrence counts. */
  function LastPromoted(eps: seq<Episode>, idxs: seq<nat>, k: string): (r: Option<nat>)
    ensures r.Some? ==> r.value in idxs && r.value < |eps| && Promotable(eps[r.value]) && FactKey(eps[r.value]) == k
    ensures r.None? <==> k !in PromotedKeys(eps, idxs)
  {
    if |idxs| == 0 then None
    else
      var i := idxs[|idxs| - 1];
      var pre := idxs[..|idxs| - 1];
      assert forall j :: j in idxs <==> j in pre || j == i;
      if i < |eps| && Promotable(eps[i]) && FactKey(eps[i]) == k && i !in pre then Some(i)
      else LastPromoted(eps, pre, k)
  }

  /** Under each promoted key promotion stores the text, confidence and time
      of the last episode promoted with that key. */
  lemma {:induction false} PromotedFactValues(st: Store, idxs: seq<nat>, now: real)
    ensures var r := Promote(st, idxs, now).semantic;
      forall k :: LastPromoted(st.episodes, idxs, k).Some? ==>
        Lookup(r, k) == Some(PromotedFact(st.episodes[LastPromoted(st.episodes, idxs, k).value], now))
  {
    if |idxs| > 0 {
      var eps := st.episodes;
      var pre := idxs[..|idxs| - 1];
      var i := idxs[|idxs| - 1];
      var mid := Promote(st, pre, now);
      PromotedFactValues(st, pre, now);
      PromoteEpisodes(st, pre, now);
      var r := Promote(st, idxs, now).semantic;
      if i < |mid.episodes| && Promotable(mid.episodes[i]) {
        var e := mid.episodes[i];
        assert i !in pre && Promotable(eps[i]) && PromotedFact(e, now) == PromotedFact(eps[i], now);
        forall k | LastPromoted(eps, idxs, k).Some?
          ensures Lookup(r, k) == Some(PromotedFact(eps[LastPromoted(eps, idxs, k).value], now))
        {
          UpsertLookup(mid.semantic, FactKey(e), PromotedFact(e, now), k);
        }
      } else {
        forall k ensures LastPromoted(eps, idxs, k) == LastPromoted(eps, pre, k) {
        }
      }
    }
  }

  /** Promoting twice over the same positions promotes nothing the second time:
      the `consolidated` flag makes promotion once-only. */
  lemma PromoteOnce(st: Store, idxs: seq<nat>, now: real, later: real)
    ensures var r := Promote(st, idxs, now);
      Promote(r, idxs, later) == r
  {
    var r := Promote(st, idxs, now);
    PromoteEpisodes(st, idxs, now);
    PromoteNothing(r, idxs, later);
  }

  lemma {:induction false} PromoteNothing(st: Store, idxs: seq<nat>, now: real)
    requires forall i :: i in idxs && i < |st.episodes| ==> !Promotable(st.episodes[i])
    ensures Promote(st, idxs, now) == st
  {
    if |idxs| > 0 {
      assert forall i :: i in idxs[..|idxs| - 1] ==> i in idxs;
      PromoteNothing(st, idxs[..|idxs| - 1], now);
    }
  }

  /** What `consolidate` does to a memory snapshot. */
  function Consolidated(st: Store, now: real): Store {
    var eps := BoostAll(st.episodes);
    Promote(Store(eps, st.semantic), TopIndices(eps), now)
  }

  /** `consolidate` keeps every salience in [0, 1], never clears a
      `consolidated` flag, sets it only on one of the five most salient
      episodes with salience above 0.8, and keeps the fact keys distinct;
      a key no boosted top episode is promoted under keeps its fact, and a
      promoted key holds the fact of the last episode promoted under it. */
  lemma ConsolidatedProps(st: Store, now: real)
    requires DistinctKeys(st.semantic)
    requires forall i :: 0 <= i < |st.episodes| ==> 0.0 <= st.episodes[i].salience <= 1.0
    ensures var r := Consolidated(st, now);
      var b := BoostAll(st.episodes);
      && |r.episodes| == |st.episodes|
      && DistinctKeys(r.semantic)
      && (forall i :: 0 <= i < |r.episodes| ==> 0.0 <= r.episodes[i].salience <= 1.0)
      && (forall i :: 0 <= i < |r.episodes| ==> r.episodes[i].text == st.episodes[i].text)
      && (forall i :: 0 <= i < |r.episodes| && st.episodes[i].consolidated ==> r.episodes[i].consolidated)
      && (forall i :: 0 <= i < |r.episodes| && !st.episodes[i].consolidated && r.episodes[i].consolidated ==>
            i in TopIndices(BoostAll(st.episodes)) && r.episodes[i].salience > PromoteThreshold)
      && (forall k :: k !in PromotedKeys(b, TopIndices(b)) ==> Lookup(r.semantic, k) == Lookup(st.semantic, k))
      && (forall k :: LastPromoted(b, TopIndices(b), k).Some? ==>
            Lookup(r.semantic, k) == Some(PromotedFact(b[LastPromoted(b, TopIndices(b), k).value], now)))
  {
    var eps := BoostAll(st.episodes);
    var top := TopIndices(eps);
    PromoteEpisodes(Store(eps, st.semantic), top, now);
    PromoteFacts(Store(eps, st.semantic), top, now);
    PromotedFactValues(Store(eps, st.semantic), top, now);
    forall i | 0 <= i < |eps| ensures 0.0 <= eps[i].salience <= 1.0 && eps[i].(salience := st.episodes[i].salience) == st.episodes[i] {
      BoostAllEffect(st.episodes, i);
    }
  }

  /** `recall_top`'s result: the sorted prefix of the eligible episodes. */
  function TopEligible(eps: seq<Episode>, k: int, minSal: real): seq<Episode> {
    SliceTo(SortDesc(Eligible(eps, minSal), RecencyKey), k)
  }

  lemma TopEligibleSize(eps: seq<Episode>, k: int, minSal: real)
    ensures k >= 0 ==> |TopEligible(eps, k, minSal)| == var n := |Eligible(eps, minSal)|; if k < n then k else n
  {
    TopOfRanking(Eligible(eps, minSal), RecencyKey, k);
  }

  lemma TopEligibleMembers(eps: seq<Episode>, k: int, minSal: real)
    ensures forall e :: e in TopEligible(eps, k, minSal) ==> e in eps && e.salience >= minSal
    ensures multiset(TopEligible(eps, k, minSal)) <= multiset(Eligible(eps, minSal)) <= multiset(eps)
  {
    var xs := Eligible(eps, minSal);
    var r := SliceTo(SortDesc(xs, RecencyKey), k);
    assert r == TopEligible(eps, k, minSal);
    TopOfRanking(xs, RecencyKey, k);
    forall e | e in r ensures e in xs {
      assert e in multiset(r);
    }
  }

  lemma TopEligibleSorted(eps: seq<Episode>, k: int, minSal: real)
    ensures SortedDesc(TopEligible(eps, k, minSal), RecencyKey)
  {
    TopOfRanking(Eligible(eps, minSal), RecencyKey, k);
  }

  lemma TopEligibleBest(eps: seq<Episode>, k: int, minSal: real)
    ensures var r := TopEligible(eps, k, minSal);
      forall x, y :: x in eps && x.salience >= minSal && x !in r && y in r ==>
        RanksAtLeast(RecencyKey(y), RecencyKey(x))
  {
    TopOfRanking(Eligible(eps, minSal), RecencyKey, k);
  }

  /** The ranking `recall_by_keyword` sorts by. */
  function WeightKey(q: string): Episode -> RankKey {
    (e: Episode) => RankKey(KeywordWeight(q, e), 0.0)
  }

  /** `recall_by_keyword`'s result: the sorted prefix of the matches. */
  function TopMatches(eps: seq<Episode>, q: string, k: int): seq<Episode> {
    SliceTo(SortDesc(KeywordMatches(eps, q), WeightKey(q)), k)
  }

  lemma TopMatchesSize(eps: seq<Episode>, q: string, k: int)
    ensures k >= 0 ==> |TopMatches(eps, q, k)| == var n := |KeywordMatches(eps, q)|; if k < n then k else n
  {
    TopOfRanking(KeywordMatches(eps, q), WeightKey(q), k);
  }

  lemma TopMatchesMembers(eps: seq<Episode>, q: string, k: int)
    ensures forall e :: e in TopMatches(eps, q, k) ==> e in eps && KeywordScore(q, LowerStr(e.text)) > 0.0
    ensures multiset(TopMatches(eps, q, k)) <= multiset(KeywordMatches(eps, q)) <= multiset(eps)
  {
    var xs := KeywordMatches(eps, q);
    var r := SliceTo(SortDesc(xs, WeightKey(q)), k);
    assert r == TopMatches(eps, q, k);
    TopOfRanking(xs, WeightKey(q), k);
    forall e | e in r ensures e in xs {
      assert e in multiset(r);
    }
  }

  lemma TopMatchesSorted(eps: seq<Episode>, q: string, k: int)
    ensures var r := TopMatches(eps, q, k);
      forall i, j :: 0 <= i < j < |r| ==> KeywordWeight(q, r[i]) >= KeywordWeight(q, r[j])
  {
    var r := TopMatches(eps, q, k);
    var key := WeightKey(q);
    TopOfRanking(KeywordMatches(eps, q), key, k);
    forall i, j | 0 <= i < j < |r| ensures KeywordWeight(q, r[i]) >= KeywordWeight(q, r[j]) {
      assert RanksAtLeast(key(r[i]), key(r[j]));
    }
  }

  lemma TopMatchesBest(eps: seq<Episode>, q: string, k: int)
    ensures var r := TopMatches(eps, q, k);
      forall x, y :: x in KeywordMatches(eps, q) && x !in r && y in r ==> KeywordWeight(q, y) >= KeywordWeight(q, x)
  {
    var r := TopMatches(eps, q, k);
    var key := WeightKey(q);
    TopOfRanking(KeywordMatches(eps, q), key, k);
    forall x, y | x in KeywordMatches(eps, q) && x !in r && y in r ensures KeywordWeight(q, y) >= KeywordWeight(q, x) {
      assert RanksAtLeast(key(y), key(x));
    }
  }

  /** The decay loop finds the n-th original key just after the facts already
      processed, none of which carries it. */
  lemma DecayStepPosition(items: seq<FactEntry>, n: nat, dt: real)
    requires DistinctKeys(items) && n < |items|
    ensures FindKey(DecayedFacts(items[..n], dt) + items[n..], items[n].key) == Some(|DecayedFacts(items[..n], dt)|)
  {
    var k := items[n].key;
    forall e | e in items[..n] ensures e.key != k {
      var j :| 0 <= j < n && items[..n][j] == e;
    }
    DecayedFactsKeys(items[..n], dt);
    FindKeyAfter(DecayedFacts(items[..n], dt), items[n..], k);
  }

  /** One round of the fact-decay loop on the entry at position `j`: decay it
      in place, and delete it when it falls under the floor. */
  function DecayAt(s: seq<FactEntry>, j: nat, dt: real): seq<FactEntry>
    requires j < |s|
  {
    var f := DecayFact(s[j].fact, dt);
    var s1 := s[j := FactEntry(s[j].key, f)];
    if f.confidence < ConfidenceFloor then s1[..j] + s1[j + 1..] else s1
  }

  /** A round extends the processed prefix by one. */
  lemma DecayStep(items: seq<FactEntry>, n: nat, dt: real)
    requires n < |items|
    ensures DecayAt(DecayedFacts(items[..n], dt) + items[n..], |DecayedFacts(items[..n], dt)|, dt)
      == DecayedFacts(items[..n + 1], dt) + items[n + 1..]
  {
    var done := DecayedFacts(items[..n], dt);
    assert items[..n + 1] == items[..n] + [items[n]];
    DecayedFactsAppend(items[..n], items[n], dt);
    var s := done + items[n..];
    var j := |done|;
    assert s[j] == items[n];
    var f := DecayFact(s[j].fact, dt);
    var s1 := s[j := FactEntry(items[n].key, f)];
    assert s1 == done + [FactEntry(items[n].key, f)] + items[n + 1..];
    if f.confidence < ConfidenceFloor {
      assert s1[..j] + s1[j + 1..] == done + items[n + 1..];
    }
  }

  /** Where the n-th round of the fact-decay loop works, and what it yields. */
  lemma DecayRound(items: seq<FactEntry>, n: nat, dt: real, facts: seq<FactEntry>)
    requires DistinctKeys(items) && n < |items|
    requires facts == DecayedFacts(items[..n], dt) + items[n..]
    ensures FindKey(facts, items[n].key) == Some(|DecayedFacts(items[..n], dt)|)
    ensures DecayAt(facts, |DecayedFacts(items[..n], dt)|, dt) == DecayedFacts(items[..n + 1], dt) + items[n + 1..]
  {
    DecayStepPosition(items, n, dt);
    DecayStep(items, n, dt);
  }

  // ---------------------------------------------------------------- the store

  /** One round of the fact loop: decay the fact at `j` in place, and delete
      it when it falls under the floor. */
  method DecayOne(facts: seq<FactEntry>, j: nat, dt: real) returns (r: seq<FactEntry>)
    requires j < |facts|
    ensures r == DecayAt(facts, j, dt)
  {
    var f := DecayFact(facts[j].fact, dt);
    r := facts[j := FactEntry(facts[j].key, f)];
    if f.confidence < ConfidenceFloor {
      r := r[..j] + r[j + 1..];
    }
  }

  /** The fact loop of `decay_memory` over the items it snapshots first. */
  method DecayFactList(items: seq<FactEntry>, dt: real) returns (facts: seq<FactEntry>)
    requires DistinctKeys(items)
    ensures facts == DecayedFacts(items, dt)
  {
    facts := items;
    var n := 0;
    while n < |items|
      invariant 0 <= n <= |items|
      invariant facts == DecayedFacts(items[..n], dt) + items[n..]
    {
      var k := items[n].key;
      DecayRound(items, n, dt, facts);
      var j := FindKey(facts, k).value;
      facts := DecayOne(facts, j, dt);
      n := n + 1;
    }
    assert items[..n] == items;
  }

  /** One round of the promotion loop: an episode above the threshold and not
      yet consolidated is upserted as a fact and flagged. */
  method PromoteStep(s: Store, i: nat, now: real) returns (r: Store)
    requires i < |s.episodes|
    ensures r == PromoteOne(s, i, now)
  {
    r := s;
    var e := s.episodes[i];
    if e.salience > PromoteThreshold && !e.consolidated {
      // remember_fact(key, text, confidence=min(1.0, salience))
      var facts := Upsert(s.semantic, FactKey(e), Fact(e.text, Unit(AtMostOne(e.salience)), now));
      r := Store(s.episodes[i := e.(consolidated := true)], facts);
    }
  }

  /** The promotion loop of `consolidate` over the chosen positions. */
  method PromoteList(st: Store, top: seq<nat>, now: real) returns (r: Store)
    requires forall a :: 0 <= a < |top| ==> top[a] < |st.episodes|
    ensures r == Promote(st, top, now)
  {
    r := st;
    var n := 0;
    while n < |top|
      invariant 0 <= n <= |top|
      invariant r == Promote(st, top[..n], now)
      invariant |r.episodes| == |st.episodes|
    {
      assert top[..n + 1][..n] == top[..n];
      r := PromoteStep(r, top[n], now);
      PromoteEpisodes(st, top[..n + 1], now);
      n := n + 1;
    }
    assert top[..n] == top;
  }

  /** `export()` and the argument of `import_state`: a decoded JSON object whose
      keys may be missing. Keys of a decoded object are distinct by construction. */
  datatype MemoryPayload = MemoryPayload(episodes: Option<seq<Episode>>, semantic: Option<seq<FactEntry>>, otherKeys: bool)
  {
    /** `if mem:` on a dict: true unless it is empty. */
    predicate Truthy() { episodes.Some? || semantic.Some? || otherKeys }
  }

  /** What a memory store holds after `import_state(data)`. */
  function Imported(data: MemoryPayload): Store {
    Store(if data.episodes.Some? then data.episodes.value else [],
          if data.semantic.Some? then data.semantic.value else [])
  }

  /** Exported state imports back as itself. */
  lemma ImportExport(st: Store)
    ensures Imported(MemoryPayload(Some(st.episodes), Some(st.semantic), false)) == st
  {
  }

  class MemoryStore {
    /** `PsychoConfig.MAX_EPISODE_HISTORY`. */
    const capacity: int
    var episodes: seq<Episode>
    var semantic: seq<FactEntry>

    /** The dict's keys are distinct. */
    ghost predicate Valid()
      reads this
    {
      DistinctKeys(semantic)
    }

    function Snapshot(): Store
      reads this
    {
      Store(episodes, semantic)
    }

    constructor(capacity: int)
      ensures Valid() && this.capacity == capacity
      ensures episodes == [] && semantic == []
    {
      this.capacity := capacity;
      episodes := [];
      semantic := [];
    }

    /** `remember_episode`: stores the text cut to 2000 characters, the clamped
        salience, the tags and an unset `consolidated` flag, then keeps the
        newest `capacity` episodes. */
    method RememberEpisode(text: string, salience: real, tags: seq<string>, now: real) returns (ep: Episode)
      requires Valid()
      modifies this
      ensures Valid()
      ensures ep == Episode(now, SliceTo(text, TextLimit), Unit(salience), tags, false)
      ensures episodes == Appended(old(episodes), ep, capacity)
      ensures semantic == old(semantic)
    {
      ep := Episode(now, SliceTo(text, TextLimit), Unit(salience), tags, false);
      episodes := episodes + [ep];
      if |episodes| > capacity {
        episodes := LastN(episodes, capacity);
      }
    }

    /** `recall_top(top_k, min_salience)`: at most `k` episodes, all at or above
        `minSal`, ordered by `(salience, time)` descending, and none of the
        eligible episodes left out ranks above one returned. */
    function RecallTop(k: int, minSal: real): (r: seq<Episode>)
      reads this
      ensures k >= 0 ==> |r| == var n := |Eligible(episodes, minSal)|; if k < n then k else n
      ensures forall e :: e in r ==> e in episodes && e.salience >= minSal
      ensures multiset(r) <= multiset(Eligible(episodes, minSal)) <= multiset(episodes)
      ensures SortedDesc(r, RecencyKey)
      ensures forall x, y :: x in episodes && x.salience >= minSal && x !in r && y in r ==>
                RanksAtLeast(RecencyKey(y), RecencyKey(x))
    {
      TopEligibleSize(episodes, k, minSal);
      TopEligibleMembers(episodes, k, minSal);
      TopEligibleSorted(episodes, k, minSal);
      TopEligibleBest(episodes, k, minSal);
      TopEligible(episodes, k, minSal)
    }

    /** `recall_by_keyword(query, top_k)`: at most `k` episodes, each with a
        positive score for the lower-cased query, ordered by score times
        salience descending; no matching episode left out weighs more than
        one returned. */
    function RecallByKeyword(query: string, k: int): (r: seq<Episode>)
      reads this
      ensures k >= 0 ==> |r| == var n := |KeywordMatches(episodes, LowerStr(query))|; if k < n then k else n
      ensures forall e :: e in r ==> e in episodes && KeywordScore(LowerStr(query), LowerStr(e.text)) > 0.0
      ensures multiset(r) <= multiset(KeywordMatches(episodes, LowerStr(query))) <= multiset(episodes)
      ensures forall i, j :: 0 <= i < j < |r| ==>
                KeywordWeight(LowerStr(query), r[i]) >= KeywordWeight(LowerStr(query), r[j])
      ensures forall x, y :: x in KeywordMatches(episodes, LowerStr(query)) && x !in r && y in r ==>
                KeywordWeight(LowerStr(query), y) >= KeywordWeight(LowerStr(query), x)
    {
      var q := LowerStr(query);
      TopMatchesSize(episodes, q, k);
      TopMatchesMembers(episodes, q, k);
      TopMatchesSorted(episodes, q, k);
      TopMatchesBest(episodes, q, k);
      TopMatches(episodes, q, k)
    }

    /** `remember_fact(key, value, confidence)`: last write wins. */
    method RememberFact(key: string, value: string, confidence: real, now: real)
      requires Valid()
      modifies this
      ensures Valid()
      ensures semantic == Upsert(old(semantic), key, Fact(value, Unit(confidence), now))
      ensures episodes == old(episodes)
    {
      UpsertDistinct(semantic, key, Fact(value, Unit(confidence), now));
      semantic := Upsert(semantic, key, Fact(value, Unit(confidence), now));
    }

    /** `recall_fact(key)`: the stored value, or `None` for an unknown key. */
    function RecallFact(key: string): (r: Option<string>)
      reads this
      ensures r.None? <==> key !in KeySet(semantic)
      ensures r.Some? ==> exists f :: FactEntry(key, f) in semantic && f.value == r.value
    {
      match Lookup(semantic, key)
      case None => None
      case Some(f) => Some(f.value)
    }

    /** `decay_memory(dt)`: every episode fades by its own rate, every fact
        loses confidence, and facts that fall under the floor are deleted. */
    method DecayMemory(dt: real)
      requires Valid()
      modifies this
      ensures Valid()
      ensures |episodes| == |old(episodes)|
      ensures forall i :: 0 <= i < |episodes| ==> episodes[i] == DecayedEpisode(old(episodes)[i], dt)
      ensures semantic == DecayedFacts(old(semantic), dt)
    {
      DecayEpisodes(dt);
      DecayFacts(dt);
    }

    /** The episode loop of `decay_memory`. */
    method DecayEpisodes(dt: real)
      modifies this
      ensures |episodes| == |old(episodes)|
      ensures forall i :: 0 <= i < |episodes| ==> episodes[i] == DecayedEpisode(old(episodes)[i], dt)
      ensures semantic == old(semantic)
    {
      var i := 0;
      while i < |episodes|
        invariant 0 <= i <= |episodes| == |old(episodes)|
        invariant forall j :: 0 <= j < i ==> episodes[j] == DecayedEpisode(old(episodes)[j], dt)
        invariant forall j :: i <= j < |episodes| ==> episodes[j] == old(episodes)[j]
        invariant semantic == old(semantic)
      {
        episodes := episodes[i := DecayedEpisode(episodes[i], dt)];
        i := i + 1;
      }
    }

    /** The fact loop of `decay_memory`: it walks a snapshot of the items,
        decays each fact in place and deletes it under the floor. */
    method DecayFacts(dt: real)
      requires Valid()
      modifies this
      ensures Valid()
      ensures semantic == DecayedFacts(old(semantic), dt)
      ensures episodes == old(episodes)
    {
      var facts := DecayFactList(semantic, dt);
      DecayedFactsDistinct(semantic, dt);
      semantic := facts;
    }

    /** `consolidate()`: the tag count, the boost and the promotion passes. */
    method Consolidate(now: real)
      requires Valid()
      modifies this
      ensures Valid()
      ensures Snapshot() == Consolidated(old(Snapshot()), now)
    {
      var counts := CountTags();
      BoostEpisodes(counts);
      PromoteTop(now);
    }

    /** The first pass of `consolidate`: how often each tag occurs. */
    method CountTags() returns (counts: map<string, nat>)
      ensures forall t :: CountOf(counts, t) == TagCount(episodes, t)
    {
      counts := map[];
      var i := 0;
      while i < |episodes|
        invariant 0 <= i <= |episodes|
        invariant forall t :: CountOf(counts, t) == TagCount(episodes[..i], t)
      {
        var ts := episodes[i].tags;
        var j := 0;
        while j < |ts|
          invariant 0 <= j <= |ts|
          invariant forall t :: CountOf(counts, t) == TagCount(episodes[..i], t) + Count(ts[..j], t)
        {
          assert ts[..j + 1][..j] == ts[..j];
          counts := counts[ts[j] := CountOf(counts, ts[j]) + 1];
          j := j + 1;
        }
        assert ts[..j] == ts;
        assert episodes[..i + 1][..i] == episodes[..i];
        i := i + 1;
      }
      assert episodes[..i] == episodes;
    }

    /** The second pass of `consolidate`: each episode's salience goes up by its
        tag boost, clamped, unless the boost is zero. */
    method BoostEpisodes(counts: map<string, nat>)
      requires forall t :: CountOf(counts, t) == TagCount(episodes, t)
      modifies this
      ensures episodes == BoostAll(old(episodes))
      ensures semantic == old(semantic)
    {
      var m := 0;
      while m < |episodes|
        invariant 0 <= m <= |episodes| == |old(episodes)|
        invariant forall p :: 0 <= p < m ==> episodes[p] == Boosted(old(episodes)[p], old(episodes))
        invariant forall p :: m <= p < |episodes| ==> episodes[p] == old(episodes)[p]
        invariant semantic == old(semantic)
      {
        var e := episodes[m];
        var boost := 0.0;
        var j := 0;
        while j < |e.tags|
          invariant 0 <= j <= |e.tags|
          invariant boost == Boost(e.tags[..j], old(episodes))
        {
          assert e.tags[..j + 1][..j] == e.tags[..j];
          boost := boost + 0.01 * (CountOf(counts, e.tags[j]) as real);
          j := j + 1;
        }
        assert e.tags[..j] == e.tags;
        if boost != 0.0 {
          episodes := episodes[m := e.(salience := Unit(e.salience + boost))];
        }
        m := m + 1;
      }
    }

    /** The third pass of `consolidate`: the five most salient episodes that
        are above the threshold and not yet consolidated become facts. */
    method PromoteTop(now: real)
      requires Valid()
      modifies this
      ensures Valid()
      ensures Snapshot() == Promote(old(Snapshot()), TopIndices(old(episodes)), now)
    {
      var top := TopIndices(episodes);
      TopIndicesValid(episodes);
      var s := PromoteList(Snapshot(), top, now);
      PromoteFacts(Snapshot(), top, now);
      episodes, semantic := s.episodes, s.semantic;
    }

    /** `import_state(data)`: missing keys give empty collections. */
    method ImportState(data: MemoryPayload)
      requires data.semantic.Some? ==> DistinctKeys(data.semantic.value)
      modifies this
      ensures Valid()
      ensures Snapshot() == Imported(data)
    {
      episodes := if data.episodes.Some? then data.episodes.value else [];
      semantic := if data.semantic.Some? then data.semantic.value else [];
    }

    /** `export()`. */
    function Export(): (d: MemoryPayload)
      reads this
      ensures Imported(d) == Snapshot() && d.Truthy()
    {
      MemoryPayload(Some(episodes), Some(semantic), false)
    }
  }
}
