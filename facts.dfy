/**
 * The semantic half of the memory store: a Python dict from keys to
 * `{value, confidence, last_seen}`. The dict's iteration order matters (the
 * retrieval helper returns facts in that order), so it is an ordered list of
 * entries with distinct keys: an update keeps the entry's position, a new key
 * goes last, a deletion closes the gap.
 */
module Facts {
  import opened Wrappers
  import opened Numeric

  datatype Fact = Fact(value: string, confidence: real, lastSeen: real)
  datatype FactEntry = FactEntry(key: string, fact: Fact)

  /** Facts whose confidence drops below this are forgotten. */
  const ConfidenceFloor := 0.05
  /** Confidence lost per second. */
  const ConfidenceDecay := 0.0001

  ghost predicate DistinctKeys(fs: seq<FactEntry>) {
    forall i, j :: 0 <= i < j < |fs| ==> fs[i].key != fs[j].key
  }

  function KeySet(fs: seq<FactEntry>): set<string> {
    set e | e in fs :: e.key
  }

  /** Position of `key`, if present. */
  function FindKey(fs: seq<FactEntry>, key: string): (r: Option<nat>)
    ensures r.Some? ==> r.value < |fs| && fs[r.value].key == key
    ensures r.Some? ==> forall i :: 0 <= i < r.value ==> fs[i].key != key
    ensures r.None? <==> key !in KeySet(fs)
  {
    if |fs| == 0 then None
    else if fs[0].key == key then Some(0)
    else
      assert fs == [fs[0]] + fs[1..];
      match FindKey(fs[1..], key)
      case None => None
      case Some(i) => Some(i + 1)
  }

  /** `semantic.get(key)`. */
  function Lookup(fs: seq<FactEntry>, key: string): (r: Option<Fact>)
    ensures r.Some? <==> key in KeySet(fs)
    ensures r.Some? ==> FactEntry(key, r.value) in fs
  {
    match FindKey(fs, key)
    case None => None
    case Some(i) => Some(fs[i].fact)
  }

  /** The first position holding `key` is what FindKey reports. */
  lemma FindKeyFirst(fs: seq<FactEntry>, key: string, i: nat)
    requires i < |fs| && fs[i].key == key
    requires forall j :: 0 <= j < i ==> fs[j].key != key
    ensures FindKey(fs, key) == Some(i)
  {
    assert fs[i] in fs;
  }

  lemma FindKeyAfter(a: seq<FactEntry>, b: seq<FactEntry>, key: string)
    requires key !in KeySet(a) && |b| > 0 && b[0].key == key
    ensures FindKey(a + b, key) == Some(|a|)
  {
    forall j | 0 <= j < |a| ensures (a + b)[j].key != key {
      assert a[j] in a;
    }
    FindKeyFirst(a + b, key, |a|);
  }

  lemma LookupCons(e: FactEntry, rest: seq<FactEntry>, k: string)
    ensures Lookup([e] + rest, k) == if e.key == k then Some(e.fact) else Lookup(rest, k)
  {
    assert ([e] + rest)[1..] == rest;
  }

  lemma KeySetCons(e: FactEntry, rest: seq<FactEntry>)
    ensures KeySet([e] + rest) == {e.key} + KeySet(rest)
  {
    assert forall x :: x in [e] + rest <==> x == e || x in rest;
  }

  lemma DistinctCons(fs: seq<FactEntry>)
    requires |fs| > 0 && DistinctKeys(fs)
    ensures DistinctKeys(fs[1..]) && fs[0].key !in KeySet(fs[1..])
  {
    forall e | e in fs[1..] ensures e.key != fs[0].key {
      var j :| 0 <= j < |fs[1..]| && fs[1..][j] == e;
      assert fs[j + 1] == e;
    }
  }

  /** `semantic[key] = fact`. */
  function Upsert(fs: seq<FactEntry>, key: string, f: Fact): (r: seq<FactEntry>)
    ensures key in KeySet(fs) ==> |r| == |fs|
    ensures key !in KeySet(fs) ==> r == fs + [FactEntry(key, f)]
  {
    match FindKey(fs, key)
    case Some(i) => fs[i := FactEntry(key, f)]
    case None => fs + [FactEntry(key, f)]
  }

  lemma UpsertKeys(fs: seq<FactEntry>, key: string, f: Fact)
    ensures KeySet(Upsert(fs, key, f)) == KeySet(fs) + {key}
  {
    var r := Upsert(fs, key, f);
    match FindKey(fs, key)
    case Some(i) =>
      forall k | k in KeySet(r) ensures k in KeySet(fs) + {key} {
        var e :| e in r && e.key == k;
        var j :| 0 <= j < |r| && r[j] == e;
        if j != i { assert fs[j] == e; }
      }
      forall k | k in KeySet(fs) ensures k in KeySet(r) {
        var e :| e in fs && e.key == k;
        var j :| 0 <= j < |fs| && fs[j] == e;
        assert r[j].key == k;
      }
    case None =>
      assert forall x :: x in r <==> x in fs || x == FactEntry(key, f);
  }

  /** Last write wins, and no other key is touched. */
  lemma UpsertLookup(fs: seq<FactEntry>, key: string, f: Fact, k: string)
    ensures Lookup(Upsert(fs, key, f), k) == if k == key then Some(f) else Lookup(fs, k)
  {
    var r := Upsert(fs, key, f);
    match FindKey(fs, key)
    case Some(i) =>
      if k == key {
        FindKeyFirst(r, k, i);
      } else {
        match FindKey(fs, k)
        case None => UpsertKeys(fs, key, f);
        case Some(j) => FindKeyFirst(r, k, j);
      }
    case None =>
      if k == key {
        FindKeyFirst(r, k, |fs|);
      } else {
        match FindKey(fs, k)
        case None => UpsertKeys(fs, key, f);
        case Some(j) => FindKeyFirst(r, k, j);
      }
  }

  lemma UpsertDistinct(fs: seq<FactEntry>, key: string, f: Fact)
    requires DistinctKeys(fs)
    ensures DistinctKeys(Upsert(fs, key, f))
  {
    match FindKey(fs, key)
    case Some(i) =>
    case None =>
      forall i | 0 <= i < |fs| ensures fs[i].key != key {
        assert fs[i] in fs;
      }
  }

  /** One fact after `dt` seconds: `max(0.0, confidence - 0.0001 * dt)`. */
  function DecayFact(f: Fact, dt: real): Fact {
    f.(confidence := AtLeastZero(f.confidence - ConfidenceDecay * dt))
  }

  /** What one entry becomes: decayed, or deleted below the floor. */
  function DecayEntry(e: FactEntry, dt: real): seq<FactEntry> {
    var f := DecayFact(e.fact, dt);
    if f.confidence < ConfidenceFloor then [] else [FactEntry(e.key, f)]
  }

  /** All facts after `dt` seconds, order kept. */
  function DecayedFacts(fs: seq<FactEntry>, dt: real): seq<FactEntry> {
    if |fs| == 0 then [] else DecayEntry(fs[0], dt) + DecayedFacts(fs[1..], dt)
  }

  lemma {:induction false} DecayedFactsAppend(a: seq<FactEntry>, e: FactEntry, dt: real)
    ensures DecayedFacts(a + [e], dt) == DecayedFacts(a, dt) + DecayEntry(e, dt)
  {
    if |a| == 0 {
      assert [e][1..] == [];
    } else {
      assert (a + [e])[1..] == a[1..] + [e];
      DecayedFactsAppend(a[1..], e, dt);
    }
  }

  lemma {:induction false} DecayedFactsKeys(fs: seq<FactEntry>, dt: real)
    ensures KeySet(DecayedFacts(fs, dt)) <= KeySet(fs)
  {
    if |fs| > 0 {
      DecayedFactsKeys(fs[1..], dt);
      assert fs == [fs[0]] + fs[1..];
      KeySetCons(fs[0], fs[1..]);
      var d := DecayedFacts(fs[1..], dt);
      if DecayEntry(fs[0], dt) != [] {
        KeySetCons(DecayEntry(fs[0], dt)[0], d);
      }
    }
  }

  lemma {:induction false} DecayedFactsDistinct(fs: seq<FactEntry>, dt: real)
    requires DistinctKeys(fs)
    ensures DistinctKeys(DecayedFacts(fs, dt))
  {
    if |fs| > 0 {
      DistinctCons(fs);
      DecayedFactsDistinct(fs[1..], dt);
      DecayedFactsKeys(fs[1..], dt);
      var d := DecayedFacts(fs[1..], dt);
      forall j | 0 <= j < |d| ensures d[j].key != fs[0].key {
        assert d[j] in d;
      }
    }
  }

  /** What a lookup of one fact becomes under decay. */
  function DecayedLookup(o: Option<Fact>, dt: real): Option<Fact> {
    match o
    case None => None
    case Some(f) => if DecayFact(f, dt).confidence < ConfidenceFloor then None else Some(DecayFact(f, dt))
  }

  lemma DecayEntryLookup(e: FactEntry, d: seq<FactEntry>, dt: real, k: string)
    ensures Lookup(DecayEntry(e, dt) + d, k) ==
      if DecayEntry(e, dt) != [] && e.key == k then Some(DecayFact(e.fact, dt)) else Lookup(d, k)
  {
    if DecayEntry(e, dt) != [] {
      LookupCons(DecayEntry(e, dt)[0], d, k);
    } else {
      assert DecayEntry(e, dt) + d == d;
    }
  }

  lemma AbsentLookup(fs: seq<FactEntry>, dt: real, k: string)
    requires k !in KeySet(fs)
    ensures Lookup(DecayedFacts(fs, dt), k) == None
  {
    DecayedFactsKeys(fs, dt);
  }

  /** Decay never adds a key, removes exactly the facts that fell below the
      floor, and keeps the decayed confidence of the others. */
  lemma {:induction false} DecayedFactsLookup(fs: seq<FactEntry>, dt: real, k: string)
    requires DistinctKeys(fs)
    ensures Lookup(DecayedFacts(fs, dt), k) == DecayedLookup(Lookup(fs, k), dt)
  {
    if |fs| > 0 {
      var e := fs[0];
      var rest := fs[1..];
      assert fs == [e] + rest;
      LookupCons(e, rest, k);
      DecayEntryLookup(e, DecayedFacts(rest, dt), dt, k);
      if k == e.key {
        DistinctCons(fs);
        AbsentLookup(rest, dt, k);
      } else {
        DistinctCons(fs);
        DecayedFactsLookup(rest, dt, k);
      }
    }
  }

  /** Per key, with `dt >= 0`: a fact survives decay only if it was there
      before, keeps its value and timestamp, and loses confidence; a fact whose
      decayed confidence falls under the floor is gone. */
  lemma DecayedFactsConfidence(fs: seq<FactEntry>, dt: real, k: string)
    requires DistinctKeys(fs) && dt >= 0.0
    ensures var before := Lookup(fs, k);
      var after := Lookup(DecayedFacts(fs, dt), k);
      && (after.Some? ==>
            && before.Some?
            && after.value.value == before.value.value
            && after.value.lastSeen == before.value.lastSeen
            && ConfidenceFloor <= after.value.confidence <= before.value.confidence)
      && (before.Some? && before.value.confidence - ConfidenceDecay * dt < ConfidenceFloor ==> after.None?)
      && (before.Some? && before.value.confidence - ConfidenceDecay * dt >= ConfidenceFloor ==> after.Some?)
  {
    DecayedFactsLookup(fs, dt, k);
  }

  /** After decay, every remaining fact is at or above the floor. */
  lemma {:induction false} DecayedFactsAboveFloor(fs: seq<FactEntry>, dt: real)
    ensures forall e :: e in DecayedFacts(fs, dt) ==> e.fact.confidence >= ConfidenceFloor
  {
    if |fs| > 0 {
      DecayedFactsAboveFloor(fs[1..], dt);
    }
  }
}
