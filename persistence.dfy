/**
 * `load_state` and `save_state` on decoded JSON values: the versioned state
 * file holds the vectors, energy, defense mode, trust, the time of the last
 * mode change and the exported memory. Reading and writing the file, and the
 * exception that swallows a malformed one, are outside the model.
 */
module Persistence {
  import opened Wrappers
  import opened Affect
  import opened Facts
  import opened Memory

  /** A stored `vectors` object: any dimension may be missing. */
  datatype VectorsPayload = VectorsPayload(
    panic: Option<real>, corruption: Option<real>, malice: Option<real>, hope: Option<real>, obsession: Option<real>)
  {
    function Get(d: Dim): Option<real> {
      match d
      case Panic => panic
      case Corruption => corruption
      case Malice => malice
      case Hope => hope
      case Obsession => obsession
    }
  }

  /** The decoded state file; every key may be missing. */
  datatype StatePayload = StatePayload(
    version: Option<int>,
    vectors: Option<VectorsPayload>,
    energy: Option<real>,
    defense: Option<string>,
    trust: Option<real>,
    lastDefenseChange: Option<real>,
    memory: Option<MemoryPayload>)
  {
    /** The keys of a decoded `semantic` object are distinct. */
    ghost predicate Decoded() {
      memory.Some? && memory.value.semantic.Some? ==> DistinctKeys(memory.value.semantic.value)
    }
  }

  /** The part of the engine state that is persisted. */
  datatype Persisted = Persisted(
    vectors: Vectors, energy: real, defense: string, trust: real, lastDefenseChange: real, memory: Store)

  /** `d.get(key, default)`. */
  function OrElse<T>(o: Option<T>, default: T): (r: T)
    ensures o.Some? ==> r == o.value
    ensures o.None? ==> r == default
  {
    if o.Some? then o.value else default
  }

  /** `vectors.update(payload)`: stored dimensions override, the rest stay. */
  function Merged(v: Vectors, p: VectorsPayload): (w: Vectors)
    ensures forall d: Dim :: w.Get(d) == OrElse(p.Get(d), v.Get(d))
  {
    Vectors(OrElse(p.panic, v.panic), OrElse(p.corruption, v.corruption), OrElse(p.malice, v.malice),
            OrElse(p.hope, v.hope), OrElse(p.obsession, v.obsession))
  }

  /** `data.get("_v", 1)`. */
  function Version(data: StatePayload): int {
    OrElse(data.version, 1)
  }

  /** `load_state` on a decoded file: files older than `persistVersion` merge
      their vectors and leave memory alone; current files replace the vectors
      and import a non-empty memory object. Both read the defense mode and
      trust with the current values as defaults, and the time of the last
      mode change with default 0.0. */
  function Load(st: Persisted, data: StatePayload, persistVersion: int): Persisted {
    var vectors := if data.vectors.Some? then Merged(st.vectors, data.vectors.value) else st.vectors;
    var memory :=
      if Version(data) >= persistVersion && data.memory.Some? && data.memory.value.Truthy()
      then Imported(data.memory.value)
      else st.memory;
    Persisted(vectors, OrElse(data.energy, st.energy), OrElse(data.defense, st.defense),
              OrElse(data.trust, st.trust), OrElse(data.lastDefenseChange, 0.0), memory)
  }

  /** The `vectors` object `save_state` writes. */
  function VectorsRecord(v: Vectors): VectorsPayload {
    VectorsPayload(Some(v.panic), Some(v.corruption), Some(v.malice), Some(v.hope), Some(v.obsession))
  }

  /** `vectors.update(...)`: a saved vector record replaces the vectors
      outright, a record without any dimension leaves them alone, and
      loading the same record twice is loading it once. */
  lemma MergedProps(v: Vectors, w: Vectors, p: VectorsPayload)
    ensures Merged(v, VectorsRecord(w)) == w
    ensures Merged(v, VectorsPayload(None, None, None, None, None)) == v
    ensures Merged(Merged(v, p), p) == Merged(v, p)
  {
  }

  /** `save_state`: every key is written, stamped with the current version. */
  function Saved(st: Persisted, persistVersion: int): (data: StatePayload)
    ensures data.Decoded() <==> DistinctKeys(st.memory.semantic)
  {
    StatePayload(Some(persistVersion), Some(VectorsRecord(st.vectors)), Some(st.energy), Some(st.defense),
                 Some(st.trust), Some(st.lastDefenseChange),
                 Some(MemoryPayload(Some(st.memory.episodes), Some(st.memory.semantic), false)))
  }

  /** What is saved loads back as itself, whatever state it is loaded into. */
  lemma LoadSaved(st: Persisted, other: Persisted, persistVersion: int)
    ensures Load(other, Saved(st, persistVersion), persistVersion) == st
  {
    ImportExport(st.memory);
  }

  /** An old file merges vectors dimension by dimension and never touches
      memory. */
  lemma LoadLegacy(st: Persisted, data: StatePayload, persistVersion: int)
    requires Version(data) < persistVersion
    ensures var r := Load(st, data, persistVersion);
      && r.memory == st.memory
      && forall d: Dim :: r.vectors.Get(d) ==
           if data.vectors.Some? then OrElse(data.vectors.value.Get(d), st.vectors.Get(d)) else st.vectors.Get(d)
  {
  }

  /** Memory is replaced exactly when a current file carries a non-empty
      memory object. */
  lemma LoadMemory(st: Persisted, data: StatePayload, persistVersion: int)
    ensures var r := Load(st, data, persistVersion);
      if Version(data) >= persistVersion && data.memory.Some? && data.memory.value.Truthy()
      then r.memory == Imported(data.memory.value)
      else r.memory == st.memory
  {
  }

  /** An empty object keeps everything except the time of the last mode
      change, which falls back to 0.0. */
  lemma LoadEmpty(st: Persisted, persistVersion: int)
    ensures Load(st, StatePayload(None, None, None, None, None, None, None), persistVersion)
         == st.(lastDefenseChange := 0.0)
  {
  }

  /** Loading keeps the distinct keys of the semantic memory. */
  lemma LoadDistinct(st: Persisted, data: StatePayload, persistVersion: int)
    requires DistinctKeys(st.memory.semantic) && data.Decoded()
    ensures DistinctKeys(Load(st, data, persistVersion).memory.semantic)
  {

  }
}
