/**
 * The character's affect: five named dimensions in [0, 1], the sub-vectors
 * kept beside panic and malice, and an energy level. `_delta_vector` nudges one
 * dimension and pushes the same nudge one hop along a fixed coupling table;
 * `_update_loop` lets time pass.
 */
module Affect {
  import opened Wrappers
  import opened Numeric
  import opened Config

  /** The keys of the `vectors` dict, in insertion order. */
  datatype Dim = Panic | Corruption | Malice | Hope | Obsession

  const AllDims: seq<Dim> := [Panic, Corruption, Malice, Hope, Obsession]

  function DimName(d: Dim): string {
    match d
    case Panic => "panic"
    case Corruption => "corruption"
    case Malice => "malice"
    case Hope => "hope"
    case Obsession => "obsession"
  }

  /** `name in self.vectors`, and which dimension it names. */
  function DimNamed(name: string): (r: Option<Dim>)
    ensures r.Some? ==> DimName(r.value) == name
    ensures r.None? ==> forall d: Dim :: DimName(d) != name
  {
    if name == "panic" then Some(Panic)
    else if name == "corruption" then Some(Corruption)
    else if name == "malice" then Some(Malice)
    else if name == "hope" then Some(Hope)
    else if name == "obsession" then Some(Obsession)
    else None
  }

  lemma DimNamedInverse(d: Dim)
    ensures DimNamed(DimName(d)) == Some(d)
  {
  }

  datatype Vectors = Vectors(panic: real, corruption: real, malice: real, hope: real, obsession: real)
  {
    function Get(d: Dim): real {
      match d
      case Panic => panic
      case Corruption => corruption
      case Malice => malice
      case Hope => hope
      case Obsession => obsession
    }

    /** `vectors[d] = x`: that dimension changes and no other. */
    function Set(d: Dim, x: real): (w: Vectors)
      ensures w.Get(d) == x
      ensures forall e :: e != d ==> w.Get(e) == Get(e)
    {
      match d
      case Panic => this.(panic := x)
      case Corruption => this.(corruption := x)
      case Malice => this.(malice := x)
      case Hope => this.(hope := x)
      case Obsession => this.(obsession := x)
    }

    predicate InUnit() {
      forall d: Dim :: 0.0 <= Get(d) <= 1.0
    }
  }

  /** The starting vectors of a new engine. */
  const InitialVectors := Vectors(0.1, 0.02, 0.02, 0.6, 0.0)
  /** The vectors after an emergency reset (corruption and malice go to 0). */
  const ResetVectors := Vectors(0.1, 0.0, 0.0, 0.6, 0.0)

  /** `subvectors["panic"]` and `subvectors["malice"]` flattened. */
  datatype SubVectors = SubVectors(startle: real, dread: real, reactive: real, coldHatred: real)
  {
    predicate InUnit() {
      0.0 <= startle <= 1.0 && 0.0 <= dread <= 1.0 && 0.0 <= reactive <= 1.0 && 0.0 <= coldHatred <= 1.0
    }
  }

  const ZeroSubVectors := SubVectors(0.0, 0.0, 0.0, 0.0)

  /** One entry of `cross_influence`: a change of `source` moves `target` by
      `coefficient` times as much. */
  datatype Link = Link(source: Dim, target: Dim, coefficient: real)

  /** `cross_influence`, in its insertion order. */
  const CrossInfluence: seq<Link> := [
    Link(Panic, Corruption, 0.008),
    Link(Panic, Malice, 0.02),
    Link(Malice, Panic, 0.01),
    Link(Obsession, Malice, 0.03),
    Link(Hope, Panic, -0.02)
  ]

  /** The coupling table read as a relation: the coefficient from `s` to `t`. */
  function Coupling(s: Dim, t: Dim): Option<real> {
    match (s, t)
    case (Panic, Corruption) => Some(0.008)
    case (Panic, Malice) => Some(0.02)
    case (Malice, Panic) => Some(0.01)
    case (Obsession, Malice) => Some(0.03)
    case (Hope, Panic) => Some(-0.02)
    case _ => None
  }

  /** The table's loop of `_delta_vector` over the first |links| entries:
      each link from `src` moves its target by `amount * coefficient`. */
  function Propagate(v: Vectors, src: Dim, amount: real, links: seq<Link>): Vectors
    decreases |links|
  {
    if |links| == 0 then v
    else
      var w := Propagate(v, src, amount, links[..|links| - 1]);
      var l := links[|links| - 1];
      if l.source == src then w.Set(l.target, Unit(w.Get(l.target) + amount * l.coefficient)) else w
  }

  /** `_delta_vector(name, amount)`. */
  function DeltaVector(v: Vectors, name: string, amount: real): Vectors {
    match DimNamed(name)
    case None => v
    case Some(d) => Propagate(v.Set(d, Unit(v.Get(d) + amount)), d, amount, CrossInfluence)
  }

  /** The loop over the table from `d`, unrolled. */
  lemma PropagateTable(u: Vectors, d: Dim, amount: real)
    ensures Propagate(u, d, amount, CrossInfluence) ==
      match d
      case Panic => u.(corruption := Unit(u.corruption + amount * 0.008), malice := Unit(u.malice + amount * 0.02))
      case Malice => u.(panic := Unit(u.panic + amount * 0.01))
      case Obsession => u.(malice := Unit(u.malice + amount * 0.03))
      case Hope => u.(panic := Unit(u.panic + amount * -0.02))
      case Corruption => u
  {
    var L := CrossInfluence;
    assert L[..1][..0] == [] && L[..2][..1] == L[..1] && L[..3][..2] == L[..2];
    assert L[..4][..3] == L[..3] && L[..4] == L[..|L| - 1];
    assert L[..1][0] == L[0] && L[..2][1] == L[1] && L[..3][2] == L[2] && L[..4][3] == L[3];
    assert Propagate(u, d, amount, L[..1][..0]) == u;
    var p1 := Propagate(u, d, amount, L[..1]);
    var p2 := Propagate(u, d, amount, L[..2]);
    var p3 := Propagate(u, d, amount, L[..3]);
    var p4 := Propagate(u, d, amount, L[..4]);
    assert p1 == if d == Panic then u.Set(Corruption, Unit(u.corruption + amount * 0.008)) else u;
    assert p2 == if d == Panic then p1.Set(Malice, Unit(p1.malice + amount * 0.02)) else p1;
    assert p3 == if d == Malice then p2.Set(Panic, Unit(p2.panic + amount * 0.01)) else p2;
    assert p4 == if d == Obsession then p3.Set(Malice, Unit(p3.malice + amount * 0.03)) else p3;
    assert Propagate(u, d, amount, L) == if d == Hope then p4.Set(Panic, Unit(p4.panic + amount * -0.02)) else p4;
  }

  /** What `_delta_vector` does, dimension by dimension: an unknown name
      changes nothing; the named dimension becomes `clamp(v + amount)`; each
      table target of it becomes `clamp(v_t + amount * coefficient)` with the
      unclamped amount (one hop only); every other dimension is untouched. */
  lemma DeltaVectorEffect(v: Vectors, name: string, amount: real)
    ensures DimNamed(name).None? ==> DeltaVector(v, name, amount) == v
    ensures DimNamed(name).Some? ==>
      var d := DimNamed(name).value;
      var w := DeltaVector(v, name, amount);
      && w.Get(d) == Unit(v.Get(d) + amount)
      && forall e :: e != d ==>
           w.Get(e) == match Coupling(d, e)
                       case None => v.Get(e)
                       case Some(c) => Unit(v.Get(e) + amount * c)
  {
    if DimNamed(name).Some? {
      var d := DimNamed(name).value;
      PropagateTable(v.Set(d, Unit(v.Get(d) + amount)), d, amount);
    }
  }

  /** `_delta_vector` keeps the vectors in [0, 1]. */
  lemma DeltaVectorInUnit(v: Vectors, name: string, amount: real)
    requires v.InUnit()
    ensures DeltaVector(v, name, amount).InUnit()
  {
    DeltaVectorEffect(v, name, amount);
  }

  /** The same, for every call at once. */
  lemma DeltaVectorAlwaysInUnit()
    ensures forall v: Vectors, name: string, amount: real ::
      v.InUnit() ==> DeltaVector(v, name, amount).InUnit()
  {
    forall v: Vectors, name: string, amount: real | v.InUnit()
      ensures DeltaVector(v, name, amount).InUnit()
    {
      DeltaVectorInUnit(v, name, amount);
    }
  }

  /** The engine state `_update_loop` evolves. */
  datatype Mood = Mood(vectors: Vectors, sub: SubVectors, energy: real)
  {
    predicate InRange() {
      vectors.InUnit() && sub.InUnit() && 0.0 <= energy <= 1.0
    }
  }

  /** `dt = max(1e-6, now - last_update_time)`: time never stands still. */
  function Elapsed(now: real, last: real): (dt: real)
    ensures dt >= 0.000001 && dt >= now - last
    ensures now - last >= 0.000001 ==> dt == now - last
  {
    if now - last > 0.000001 then now - last else 0.000001
  }

  /** A per-second rate over `dt` seconds. */
  function Scaled(rate: real, dt: real): real {
    rate * dt
  }

  /** The decay of panic, malice and obsession and the drift of corruption
      against hope over a step `dt`, each clamped as it is written. */
  function Decayed(v: Vectors, dt: real, cfg: Config): Vectors {
    v.(panic := Unit(v.panic - Scaled(cfg.decayFast, dt)))
     .(malice := Unit(v.malice - Scaled(cfg.decaySlow, dt)))
     .(obsession := Unit(v.obsession - Scaled(cfg.decaySlow * 0.8, dt)))
     .(corruption := Unit(v.corruption + Scaled(cfg.corruptionDrift, dt) - Scaled(v.hope * 0.0009, dt)))
  }

  /** The moving averages of the panic sub-vectors, fed by the new panic. */
  function Startled(sub: SubVectors, panic: real): SubVectors {
    sub.(startle := Unit(sub.startle * 0.9 + panic * 0.02))
       .(dread := Unit(sub.dread * 0.995 + panic * 0.001))
  }

  /** Energy drain under high panic, recovery otherwise. */
  function Recovered(energy: real, panic: real, dt: real, cfg: Config): real {
    if panic > 0.7 then AtLeastZero(energy - Scaled(cfg.energyCostPerAction, dt) * 0.2)
    else AtMostOne(energy + Scaled(cfg.energyRecoveryRate, dt))
  }

  /** The clamp of every dimension. */
  function ClampAll(v: Vectors): (w: Vectors)
    ensures w.InUnit()
    ensures forall d: Dim :: w.Get(d) == Unit(v.Get(d))
  {
    Vectors(Unit(v.panic), Unit(v.corruption), Unit(v.malice), Unit(v.hope), Unit(v.obsession))
  }

  /** The arithmetic of `_update_loop` for a time step `dt`: decay and
      drift, the sub-vectors, the energy, and the final clamp of every
      dimension. */
  function Tick(m: Mood, dt: real, cfg: Config): Mood {
    var v := Decayed(m.vectors, dt, cfg);
    Mood(ClampAll(v), Startled(m.sub, v.panic), Recovered(m.energy, v.panic, dt, cfg))
  }

  /** Every vector, sub-vector and the energy stay in [0, 1]. */
  lemma TickInRange(m: Mood, dt: real, cfg: Config)
    requires m.InRange() && dt >= 0.0 && cfg.WellFormed()
    ensures Tick(m, dt, cfg).InRange()
  {
    var r := Tick(m, dt, cfg);
    assert m.vectors.Get(Panic) <= 1.0 && m.vectors.Get(Hope) <= 1.0;
    forall d: Dim ensures 0.0 <= r.vectors.Get(d) <= 1.0 {
    }
  }

  /** Panic, malice and obsession only decay; hope is left alone. */
  lemma TickDecays(m: Mood, dt: real, cfg: Config)
    requires m.InRange() && dt >= 0.0 && cfg.WellFormed()
    ensures var r := Tick(m, dt, cfg).vectors;
      && r.panic <= m.vectors.panic
      && r.malice <= m.vectors.malice
      && r.obsession <= m.vectors.obsession
      && r.hope == m.vectors.hope
  {
    assert m.vectors.Get(Panic) <= 1.0 && m.vectors.Get(Malice) <= 1.0;
    assert m.vectors.Get(Obsession) >= 0.0 && m.vectors.Get(Hope) >= 0.0 && m.vectors.Get(Hope) <= 1.0;
    assert m.vectors.Get(Panic) >= 0.0 && m.vectors.Get(Malice) >= 0.0 && m.vectors.Get(Obsession) <= 1.0;
  }

  /** Energy falls only under high panic, and never rises under it. */
  lemma TickEnergy(m: Mood, dt: real, cfg: Config)
    requires m.InRange() && dt >= 0.0 && cfg.WellFormed()
    ensures var r := Tick(m, dt, cfg);
      && (r.energy < m.energy ==> r.vectors.panic > 0.7)
      && (r.vectors.panic > 0.7 ==> r.energy <= m.energy)
      && (r.vectors.panic <= 0.7 ==> r.energy >= m.energy)
  {
    assert m.vectors.Get(Panic) <= 1.0 && m.vectors.Get(Panic) >= 0.0;
  }
}
