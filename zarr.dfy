/** single_zarr: a kerchunk-style reference table built from a zarr store.
    The store, the inlining step and the consolidation step are collaborators
    whose code is outside this model; they are passed in as functions.
    Line numbers in the comments below refer to `single_zarr` in
    kerchunk/zarr.py. */
module Zarr {
  import opened References

  /** Options handed to fsspec (`storage_options`), as a string dictionary. */
  type Options = map<string, string>

  /** The store being indexed.
      - AsyncStore: a zarr v3 Store. `listing` is what `store.list()` yields,
        `get` gives a key's bytes, `storePath(k, so)` is the string form of
        `make_store_path(store, path=k, storage_options=so)`.
      - Mapper: a key-iterable mapping. `iteration` is `for k in mapper`,
        `item` is `mapper[k]`, `address` is
        `_unstrip_protocol(mapper._key_to_str(k), mapper.fs)`; `isFSMap` says
        whether it is an fsspec FSMap and `fsOptions` is its
        `mapper.fs.storage_options`. */
  datatype Store =
    | AsyncStore(listing: seq<string>, get: string -> Bytes,
                 storePath: (string, Option<Options>) -> string)
    | Mapper(iteration: seq<string>, item: string -> Bytes, address: string -> string,
             isFSMap: bool, fsOptions: Options)

  /** What the classification loop needs from either backend: the literal
      value of a key and its resolved external address. */
  datatype Resolver = Resolver(value: string -> Bytes, address: string -> string)

  /** The keys a backend enumerates, in its own order. */
  function Keys(store: Store): seq<string>
  {
    match store
    case AsyncStore(listing, _, _) => listing
    case Mapper(iteration, _, _, _, _) => iteration
  }

  /** The backend's value and address functions. The async store resolves
      paths with the caller's `storage_options`, before any defaulting. */
  function ResolverOf(store: Store, so: Option<Options>): Resolver
  {
    match store
    case AsyncStore(_, get, storePath) => Resolver(get, k => storePath(k, so))
    case Mapper(_, item, address, _, _) => Resolver(item, address)
  }

  /** `k.startswith(".")`: the metadata keys (.zgroup, .zarray, .zattrs, ...). */
  predicate IsMetadataKey(k: string)
  {
    "." <= k
  }

  /** The entry the loop stores for one key. */
  function Classify(k: string, res: Resolver): (e: Entry)
    ensures e.Literal? <==> IsMetadataKey(k)
    ensures e.Literal? ==> e.data == res.value(k)
    ensures e.Pointer? ==> e.urls == [res.address(k)]
  {
    if IsMetadataKey(k) then Literal(res.value(k)) else Pointer([res.address(k)])
  }

  /** The table after `refs[k] = Classify(k)` for every key of `keys`, in order. */
  function Populate(r: Refs, keys: seq<string>, res: Resolver): (r': Refs)
    ensures WellFormed(r) ==> WellFormed(r')
    decreases |keys|
  {
    if keys == [] then r
    else Populate(Assign(r, keys[0], Classify(keys[0], res)), keys[1..], res)
  }

  /** Reference definition of the entries of a populated table: one
      classified entry per enumerated key, on top of the prior entries. */
  function Classification(keys: seq<string>, res: Resolver): map<string, Entry>
  {
    map k | k in keys :: Classify(k, res)
  }

  /** Reference definition of the insertion order: each enumerated key not
      yet present is appended, at its first occurrence. */
  function AppendNew(order: seq<string>, keys: seq<string>): seq<string>
    decreases |keys|
  {
    if keys == [] then order
    else AppendNew(if keys[0] in order then order else order + [keys[0]], keys[1..])
  }

  lemma {:induction false} PopulateEntries(r: Refs, keys: seq<string>, res: Resolver)
    ensures Populate(r, keys, res).entries == r.entries + Classification(keys, res)
    decreases |keys|
  {
    if keys == [] {
      assert Classification(keys, res) == map[];
    } else {
      var k0 := keys[0];
      var r1 := Assign(r, k0, Classify(k0, res));
      PopulateEntries(r1, keys[1..], res);
      assert forall k :: k in keys <==> k == k0 || k in keys[1..];
      assert r1.entries + Classification(keys[1..], res) == r.entries + Classification(keys, res);
    }
  }

  lemma {:induction false} PopulateOrder(r: Refs, keys: seq<string>, res: Resolver)
    requires WellFormed(r)
    ensures Populate(r, keys, res).order == AppendNew(r.order, keys)
    decreases |keys|
  {
    if keys != [] {
      var r1 := Assign(r, keys[0], Classify(keys[0], res));
      assert r1.order == if keys[0] in r.order then r.order else r.order + [keys[0]];
      PopulateOrder(r1, keys[1..], res);
    }
  }

  /** Distinct keys that were not present yet are appended exactly in
      enumeration order (the usual case: a fresh dict and a mapper's keys). */
  lemma {:induction false} AppendNewDistinct(order: seq<string>, keys: seq<string>)
    requires Distinct(keys)
    requires forall i | 0 <= i < |keys| :: keys[i] !in order
    ensures AppendNew(order, keys) == order + keys
    decreases |keys|
  {
    if keys != [] {
      var rest := keys[1..];
      assert forall i | 0 <= i < |rest| :: rest[i] != keys[0] by {
        forall i | 0 <= i < |rest| ensures rest[i] != keys[0] {
          assert rest[i] == keys[i + 1];
        }
      }
      AppendNewDistinct(order + [keys[0]], rest);
      assert order + [keys[0]] + rest == order + keys;
    }
  }

  /** Every enumerated metadata key holds the backend's value, unmodified;
      every other enumerated key holds a one-element list with its address. */
  lemma PopulateClassifies(r: Refs, keys: seq<string>, res: Resolver, k: string)
    requires k in keys
    ensures k in Populate(r, keys, res).entries
    ensures IsMetadataKey(k) ==> Populate(r, keys, res).entries[k] == Literal(res.value(k))
    ensures !IsMetadataKey(k) ==> Populate(r, keys, res).entries[k] == Pointer([res.address(k)])
  {
    PopulateEntries(r, keys, res);
  }

  /** Prior entries whose keys are not enumerated are left as they were. */
  lemma PopulateKeepsOthers(r: Refs, keys: seq<string>, res: Resolver, k: string)
    requires k !in keys
    ensures k in Populate(r, keys, res).entries <==> k in r.entries
    ensures k in r.entries ==> Populate(r, keys, res).entries[k] == r.entries[k]
  {
    PopulateEntries(r, keys, res);
  }

  /** The key set afterwards is the prior keys plus the enumerated keys. */
  lemma PopulateDomain(r: Refs, keys: seq<string>, res: Resolver)
    ensures Populate(r, keys, res).entries.Keys == r.entries.Keys + (set k | k in keys)
  {
    PopulateEntries(r, keys, res);
  }

  /** A fresh dict filled from distinct keys lists them in enumeration order. */
  lemma FreshOrder(keys: seq<string>, res: Resolver)
    requires Distinct(keys)
    ensures Populate(Empty, keys, res).order == keys
  {
    PopulateOrder(Empty, keys, res);
    AppendNewDistinct([], keys);
  }

  /** An async store listing `.zarray` and `1.0`: the metadata document is
      stored as it was read, the chunk as a one-element list of its path. */
  lemma AsyncStoreExample(get: string -> Bytes, storePath: (string, Option<Options>) -> string,
                          so: Option<Options>)
    ensures var r := Loaded(Empty, AsyncStore([".zarray", "1.0"], get, storePath), so);
            && r.order == [".zarray", "1.0"]
            && r.entries == map[".zarray" := Literal(get(".zarray")), "1.0" := Pointer([storePath("1.0", so)])]
  {
    var keys := [".zarray", "1.0"];
    var res := ResolverOf(AsyncStore(keys, get, storePath), so);
    assert keys[1..] == ["1.0"];
    assert "1.0"[0] == '1' && !IsMetadataKey("1.0");
    FreshOrder(keys, res);
    PopulateEntries(Empty, keys, res);
  }

  /** Lines 59-60: `storage_options` is replaced by the mapper's filesystem
      options only when it was None and the mapper is an FSMap. */
  function EffectiveOptions(store: Store, so: Option<Options>): (r: Option<Options>)
    ensures r != so <==> store.Mapper? && store.isFSMap && so.None?
    ensures r != so ==> r == Some(store.fsOptions)
  {
    if store.Mapper? && store.isFSMap && so.None? then Some(store.fsOptions) else so
  }

  /** Python truthiness of an optional integer: None and 0 are false. */
  predicate Truthy(x: Option<int>)
  {
    x.Some? && x.value != 0
  }

  /** Line 69: `inline or inline_threshold`; the legacy alias `inline` wins
      when it is truthy. The result is truthy, so that inlining runs, exactly
      when one of the two is a non-zero integer. */
  function EffectiveThreshold(inline: Option<int>, inlineThreshold: Option<int>): (t: Option<int>)
    ensures Truthy(t) <==> Truthy(inline) || Truthy(inlineThreshold)
    ensures Truthy(inline) ==> t == inline
    ensures !Truthy(inline) ==> t == inlineThreshold
  {
    if Truthy(inline) then inline else inlineThreshold
  }

  /** kerchunk.utils.do_inline, whose body is outside this model. `run` gives
      the table it hands back for a table, a threshold and the remote options;
      `inPlace` says whether it hands back the same object it was given
      (rewritten) rather than a new plain dict. */
  datatype Inliner = Inliner(run: (Refs, int, Option<Options>) -> Refs, inPlace: bool)

  /** What single_zarr does with the table after classification, in order. */
  datatype Step = Inlined(threshold: int, options: Option<Options>) | Flushed | Consolidated

  /** The two `for k in ...` loops (lines 48-56 and 61-65): every key is
      classified and written into `refs`, one at a time. */
  method ClassifyKeys(refs: RefTable, keys: seq<string>, res: Resolver)
    requires refs.Valid()
    modifies refs
    ensures refs.Valid()
    ensures refs.Value() == Populate(old(refs.Value()), keys, res)
    ensures refs.order == AppendNew(old(refs.order), keys)
    ensures refs.flushes == old(refs.flushes)
  {
    PopulateOrder(refs.Value(), keys, res);
    for i := 0 to |keys|
      invariant refs.Valid()
      invariant Populate(refs.Value(), keys[i..], res) == Populate(old(refs.Value()), keys, res)
      invariant refs.flushes == old(refs.flushes)
    {
      var k := keys[i];
      assert keys[i..][1..] == keys[i + 1..];
      if IsMetadataKey(k) {
        refs.Put(k, Literal(res.value(k)));
      } else {
        refs.Put(k, Pointer([res.address(k)]));
      }
    }
    assert keys[|keys|..] == [];
  }

  /** Line 43: `refs = out or {}`. A missing or empty `out` is replaced by a
      fresh plain dict; otherwise `out` itself is the object written to. */
  method ChooseAccumulator(out: RefTable?) returns (refs: RefTable)
    requires out != null ==> out.Valid()
    ensures refs.Valid()
    ensures UsesOut(out) ==> refs == out
    ensures !UsesOut(out) ==> fresh(refs) && refs.Value() == Empty && !refs.isLazy && refs.flushes == 0
  {
    if UsesOut(out) {
      refs := out;
    } else {
      refs := new RefTable(false, Empty);
    }
  }

  /** Whether `out or {}` picks `out`. */
  predicate UsesOut(out: RefTable?)
    reads out
  {
    out != null && IsTruthy(out.Value())
  }

  /** The table accumulated by the classification loop, starting from `start`. */
  function Loaded(start: Refs, store: Store, so: Option<Options>): Refs
  {
    Populate(start, Keys(store), ResolverOf(store, so))
  }

  /** The table handed to consolidation (lines 70-71): the inliner's result
      when the threshold is truthy, the classified table otherwise. */
  function AfterInlining(loaded: Refs, threshold: Option<int>, so: Option<Options>,
                         inliner: Inliner): Refs
  {
    if Truthy(threshold) then inliner.run(loaded, threshold.value, so) else loaded
  }

  /** Lines 44-65: the backend branch. Classifies every enumerated key into
      `refs` and gives the `storage_options` in force afterwards. */
  method LoadStore(refs: RefTable, store: Store, storageOptions: Option<Options>)
    returns (so: Option<Options>)
    requires refs.Valid()
    modifies refs
    ensures refs.Valid()
    ensures refs.Value() == Loaded(old(refs.Value()), store, storageOptions)
    ensures refs.flushes == old(refs.flushes)
    ensures so == EffectiveOptions(store, storageOptions)
  {
    so := storageOptions;
    match store {
      case AsyncStore(listing, get, storePath) =>
        ClassifyKeys(refs, listing, Resolver(get, k => storePath(k, storageOptions)));
      case Mapper(iteration, item, address, isFSMap, fsOptions) =>
        if isFSMap && so.None? {
          so := Some(fsOptions);
        }
        ClassifyKeys(refs, iteration, Resolver(item, address));
    }
  }

  /** Lines 69-74: inline when the threshold is truthy, flush the object bound
      to `refs` when it is a lazy sink, then consolidate. When `do_inline`
      hands back a new plain dict, that dict is what the flush test sees. */
  method Finish<C>(refs: RefTable, threshold: Option<int>, so: Option<Options>,
                   inliner: Inliner, consolidate: Refs -> C)
    returns (result: C, ghost trace: seq<Step>)
    modifies refs
    ensures var stays := !Truthy(threshold) || inliner.inPlace;
            var inlined := AfterInlining(old(refs.Value()), threshold, so, inliner);
            && result == consolidate(inlined)
            && trace == (if Truthy(threshold) then [Inlined(threshold.value, so)] else [])
                        + (if stays && refs.isLazy then [Flushed] else [])
                        + [Consolidated]
            && refs.flushes == old(refs.flushes) + (if stays && refs.isLazy then 1 else 0)
            && refs.Value() == (if Truthy(threshold) && inliner.inPlace then inlined else old(refs.Value()))
  {
    var current := refs;
    trace := [];
    if Truthy(threshold) {
      var inlined := inliner.run(current.Value(), threshold.value, so);
      if inliner.inPlace {
        current.Replace(inlined);
      } else {
        current := new RefTable(false, inlined);
      }
      trace := trace + [Inlined(threshold.value, so)];
    }
    if current.isLazy {
      current.Flush();
      trace := trace + [Flushed];
    }
    result := consolidate(current.Value());
    trace := trace + [Consolidated];
  }

  /** single_zarr on an already-resolved store (lines 43-75), with the
      source's defaults: no `storage_options`, `inline_threshold=100`, no
      `inline` and no `out`. `result` is what `consolidate` returns, whatever
      its shape; `trace` records, in order, the inlining, flush and
      consolidation steps that were taken. */
  method SingleZarr<C>(inliner: Inliner, consolidate: Refs -> C, store: Store,
                       storageOptions: Option<Options> := None,
                       inlineThreshold: Option<int> := Some(100),
                       inline: Option<int> := None,
                       out: RefTable? := null)
    returns (result: C, ghost trace: seq<Step>)
    requires out != null ==> out.Valid()
    modifies out
    ensures var start := if old(UsesOut(out)) then old(out.Value()) else Empty;
            var loaded := Loaded(start, store, storageOptions);
            var t := EffectiveThreshold(inline, inlineThreshold);
            var so := EffectiveOptions(store, storageOptions);
            // `refs` is still bound to `out` when the flush is decided
            var flushOut := old(UsesOut(out)) && (!Truthy(t) || inliner.inPlace) && out.isLazy;
            && result == consolidate(AfterInlining(loaded, t, so, inliner))
            && trace == (if Truthy(t) then [Inlined(t.value, so)] else [])
                        + (if flushOut then [Flushed] else [])
                        + [Consolidated]
            && (out != null ==> out.flushes == old(out.flushes) + (if flushOut then 1 else 0))
            && (old(UsesOut(out)) ==>
                  out.Value() == (if Truthy(t) && inliner.inPlace then AfterInlining(loaded, t, so, inliner) else loaded))
            && (out != null && !old(UsesOut(out)) ==> out.Value() == old(out.Value()))
  {
    var refs := ChooseAccumulator(out);
    var so := LoadStore(refs, store, storageOptions);
    var threshold := EffectiveThreshold(inline, inlineThreshold);
    result, trace := Finish(refs, threshold, so, inliner, consolidate);
  }

  /** `single_zarr(store)` with every default: the table is filled into a
      fresh dict, inlined with threshold 100, and never flushed. */
  method DefaultCall<C>(inliner: Inliner, consolidate: Refs -> C, store: Store)
    returns (result: C, ghost trace: seq<Step>)
    ensures result == consolidate(inliner.run(Loaded(Empty, store, None), 100, EffectiveOptions(store, None)))
    ensures trace == [Inlined(100, EffectiveOptions(store, None)), Consolidated]
  {
    result, trace := SingleZarr(inliner, consolidate, store);
  }
}
