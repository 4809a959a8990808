/** The reference table that single_zarr fills: a Python dict, or a dict-like
    sink such as a LazyReferenceMapper, from store key to reference entry. */
module References {

  datatype Option<+T> = None | Some(value: T)

  type Bytes = seq<bv8>

  /** One reference: the literal bytes of a key, or the list of external
      addresses where its bytes live. */
  datatype Entry = Literal(data: Bytes) | Pointer(urls: seq<string>)

  /** A dict as a value: its keys in insertion order, and the entry of each key. */
  datatype Refs = Refs(order: seq<string>, entries: map<string, Entry>)

  /** `{}` */
  const Empty: Refs := Refs([], map[])

  predicate Distinct(s: seq<string>)
  {
    forall i, j | 0 <= i < j < |s| :: s[i] != s[j]
  }

  /** Every key is listed once in the insertion order, and the listed keys are
      exactly the keys that have an entry. */
  ghost predicate WellFormed(r: Refs)
  {
    Distinct(r.order) && forall k :: k in r.entries <==> k in r.order
  }

  /** Python's `bool(d)` for a mapping: false exactly when it holds no key. */
  predicate IsTruthy(r: Refs)
  {
    |r.entries| != 0
  }

  /** `d[k] = e` on a Python dict: a new key is placed last, a key already
      present keeps its place and gets the new entry. */
  function Assign(r: Refs, k: string, e: Entry): (r': Refs)
    ensures WellFormed(r) ==> WellFormed(r')
    ensures k in r'.entries && r'.entries[k] == e
    ensures forall j :: j != k ==> (j in r'.entries <==> j in r.entries)
    ensures forall j | j != k && j in r.entries :: r'.entries[j] == r.entries[j]
    ensures r.order <= r'.order
  {
    if k in r.entries then Refs(r.order, r.entries[k := e])
    else Refs(r.order + [k], r.entries[k := e])
  }

  /** The object that single_zarr writes references into: a plain dict, or a
      lazy sink (a LazyReferenceMapper) that must be flushed before its
      contents are durable. `flushes` counts the calls of `flush()`. */
  class RefTable {
    var order: seq<string>
    var entries: map<string, Entry>
    const isLazy: bool
    ghost var flushes: nat

    function Value(): Refs
      reads this
    {
      Refs(order, entries)
    }

    /** The object holds a state a Python dict can hold. */
    ghost predicate Valid()
      reads this
    {
      WellFormed(Value())
    }

    constructor (lazy: bool, initial: Refs)
      ensures Value() == initial && isLazy == lazy && flushes == 0
      ensures WellFormed(initial) ==> Valid()
    {
      order, entries := initial.order, initial.entries;
      isLazy := lazy;
      flushes := 0;
    }

    /** `self[k] = e` */
    method Put(k: string, e: Entry)
      requires Valid()
      modifies this
      ensures Valid()
      ensures Value() == Assign(old(Value()), k, e)
      ensures flushes == old(flushes)
    {
      var r := Assign(Value(), k, e);
      order, entries := r.order, r.entries;
    }

    /** The whole table rewritten by a collaborator that hands back this object. */
    method Replace(r: Refs)
      modifies this
      ensures Value() == r
      ensures flushes == old(flushes)
    {
      order, entries := r.order, r.entries;
    }

    /** `self.flush()`: only a lazy sink has this operation; the parquet
        writing it performs is not modelled, only that it happened. */
    method Flush()
      requires isLazy
      modifies this`flushes
      ensures flushes == old(flushes) + 1
    {
      flushes := flushes + 1;
    }
  }
}
