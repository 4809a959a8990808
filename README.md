# single_zarr: a kerchunk reference table built from a zarr store

This project models `single_zarr` from kerchunk's `kerchunk/zarr.py`. The function
walks every key of a zarr store and writes it into a reference table (`refs`).
Keys that start with `"."` (`.zgroup`, `.zarray`, `.zattrs`, ...) hold the
store's literal value. Every other key holds a one-element list with the key's
external address. Afterwards the table may be inlined (`do_inline`). If the
table is a lazy sink (`LazyReferenceMapper`) it is flushed. Last, it is
consolidated (`consolidate`).

The model has two modules.

- `References` (references.dfy): the table as a value. `Refs` holds the keys in
  insertion order plus a map from key to `Entry` (`Literal(bytes)` or
  `Pointer(urls)`). `Assign` is Python's `d[k] = e`. The class `RefTable` is the
  dict-like object the code mutates, either a plain dict or a lazy sink with a
  ghost flush counter.
- `Zarr` (zarr.dfy): the two store backends as one `Store` datatype, the
  classification rule (`Classify`, `Populate`) and its reference definitions
  (`Classification`, `AppendNew`) with the lemmas that connect them. It also
  holds the `storage_options` defaulting, Python's `or` and truthiness for the
  thresholds, and the imperative pipeline. `ClassifyKeys` is the loop.
  `ChooseAccumulator` is `out or {}`. `LoadStore` is the backend branch.
  `Finish` covers inline, flush and consolidate. `SingleZarr` runs them in order,
  with the source's defaults for its optional parameters; `DefaultCall` is a
  call that uses all of them.

Collaborators whose code is not part of this model become parameters:

- the backend's value, listing and address functions (fields of `Store`);
- `do_inline` (an `Inliner`);
- `consolidate` (a function from the table to a result whose shape is left open).

The two backend loops (lines 48-56 and 61-65) classify keys by the same rule.
They differ only in where the value and the address come from, so one loop,
parameterised by a `Resolver`, models both.

Points where the code's behaviour is easy to misread, and where the model follows the code:

- Every chunk key gets the same pointer shape, a one-element list `[address]`; no offset or length is recorded.
- `refs = out or {}` uses truthiness. A supplied `out` that is empty is ignored and a fresh dict is filled
  instead. In particular, an empty lazy sink passed as `out` receives nothing and is never flushed
  (`SingleZarr`'s last two clauses).
- The flush test is `isinstance(refs, LazyReferenceMapper)` on whatever `refs` is bound to after inlining.
  If `do_inline` hands back a new plain dict, nothing is flushed even when `out` was a lazy sink.
  Whether `do_inline` returns the same object is not visible, so `Inliner.inPlace` makes it a parameter.
- The async store resolves chunk paths with the caller's `storage_options`.
  The FSMap defaulting of lines 59-60 happens only in the mapper branch.
  Its result reaches `do_inline` as `remote_options`.

## Model

| member | source | states |
|---|---|---|
| `References.Assign` | kerchunk/zarr.py:62-65 | dict assignment keeps well-formedness, stores the entry under the key, changes no other key, and only ever extends the insertion order |
| `References.RefTable.constructor` | kerchunk/zarr.py:43 | a new table holds the given contents, has the given kind, has not been flushed, and is a valid dict when its contents are well-formed |
| `References.RefTable.Put` | kerchunk/zarr.py:62-65 | `refs[k] = e` keeps the object a valid dict, updates its contents exactly as dict assignment does and does not flush |
| `References.RefTable.Replace` | kerchunk/zarr.py:71 | a collaborator that rewrites the object leaves exactly the table it produced |
| `References.RefTable.Flush` | kerchunk/zarr.py:72-73 | flushing a lazy sink raises its flush count by one and needs a lazy sink |
| `Zarr.Classify` | kerchunk/zarr.py:49-56 | a key gets a literal exactly when it starts with "."; the literal is the backend's value and a pointer is the one-element list of the key's address |
| `Zarr.Populate` | kerchunk/zarr.py:48-65 | filling a well-formed table keeps it well-formed |
| `Zarr.PopulateEntries` | kerchunk/zarr.py:48-65 | the filled table's entries are the prior entries overridden by one classified entry per enumerated key |
| `Zarr.PopulateOrder` | kerchunk/zarr.py:48-65 | the filled table's insertion order is the prior order followed by each new key at its first enumeration |
| `Zarr.AppendNewDistinct` | kerchunk/zarr.py:61-65 | distinct keys that are not yet present are appended exactly in enumeration order |
| `Zarr.FreshOrder` | kerchunk/zarr.py:43-65 | a fresh dict filled from distinct keys lists exactly those keys, in enumeration order |
| `Zarr.PopulateClassifies` | kerchunk/zarr.py:49-65 | every enumerated key is present; a "." key maps to the backend's value unmodified, any other key to `[address]` |
| `Zarr.PopulateKeepsOthers` | kerchunk/zarr.py:43-65 | a key that is not enumerated is present afterwards exactly when it was before, with its prior entry unchanged |
| `Zarr.PopulateDomain` | kerchunk/zarr.py:43-65 | the key set afterwards is the prior key set plus the enumerated keys |
| `Zarr.AsyncStoreExample` | kerchunk/zarr.py:44-56 | an async store listing `.zarray` and `1.0` yields exactly those two keys, in that order: the document as read and `[path of 1.0]` |
| `Zarr.EffectiveOptions` | kerchunk/zarr.py:59-60 | `storage_options` changes exactly when it was None and the store is an FSMap mapper, and then becomes the mapper's filesystem options |
| `Zarr.EffectiveThreshold` | kerchunk/zarr.py:69-70 | `inline` wins when truthy, else `inline_threshold`; inlining runs exactly when one of them is a non-zero integer |
| `Zarr.ClassifyKeys` | kerchunk/zarr.py:48-65 | the loop keeps the object a valid dict, leaves it holding the populated table of its prior contents with each new key appended at its first enumeration, and does not flush |
| `Zarr.ChooseAccumulator` | kerchunk/zarr.py:43 | a non-empty `out` is itself the object written to; a missing or empty one is replaced by a fresh, empty, plain dict |
| `Zarr.LoadStore` | kerchunk/zarr.py:44-65 | either backend branch fills the table from its own keys, values and addresses and yields the defaulted `storage_options` |
| `Zarr.Finish` | kerchunk/zarr.py:69-74 | consolidation receives the inlined table when the threshold is truthy and the classified table otherwise; the object is flushed once when it is still the lazy sink, never otherwise, and the trace shows inlining, then flush, then consolidation |
| `Zarr.DefaultCall` | kerchunk/zarr.py:14-16 | with every default (`inline_threshold=100`, no `inline`, no `out`), the consolidated table is the inliner's result at threshold 100 on a fresh dict filled from the store, and the steps are inlining then consolidation, with no flush |
| `Zarr.SingleZarr` | kerchunk/zarr.py:11-75 | with the source's defaults for the optional parameters, the returned value is the consolidation of the prepared table built from `out or {}`; `out` is flushed at most once, and only when it was used, is lazy and is still bound at the flush; a missing or empty `out` is left untouched |

## Left out

- Resolving a URI string into a mapper with `fsspec.get_mapper` (lines 40-41) is backend I/O. The store is given already resolved.
- `ZarrToZarr = class_factory(single_zarr)` (line 78) is a factory wrapper with no logic of its own.
- `asyncio.run`, `consume_async_gen` and the async `list`, `get` and `make_store_path` calls (lines 47, 50, 53-55) are modelled as total functions that return their results directly.
- Every collaborator call is total in the model: mapper iteration and `mapper[k]` (lines 61, 63), the async calls (lines 47, 50, 53-55), the addressing call (line 65), `do_inline` (line 71), `flush()` (line 73) and `consolidate` (line 74). In the source an exception from any of them propagates out of `single_zarr` and leaves a supplied `out` partly filled and, if lazy, unflushed; this is not modelled.
- `store.get` may return None for a listed key that has disappeared. The model's `get` always returns bytes.
- A zarr `Buffer` and Python `bytes` are both modelled as `seq<bv8>`.
- `_unstrip_protocol` and `_key_to_str` (line 65) are backend addressing rules. They stay an abstract `address` function. A non-FSMap mapper that lacks these attributes would fail at line 65; the model assumes every mapper provides them.
- The internals of `do_inline` and `consolidate` (lines 67, 71, 74) are uninterpreted function parameters. No threshold-boundary, fetch-failure or idempotence property is claimed for them.
- The parquet writing of `LazyReferenceMapper` is I/O. Only the number of `flush()` calls is modelled.
- A lazy sink's `len()` is taken to be its number of entries when `out or {}` tests it.
- Every `out`, the lazy sink included, is taken to store exactly what `refs[k] = e` assigns, in dict insertion order. A dict-like class with a customised `__setitem__` is not modelled.
- The model does not cover aliasing between the store and `out` (the same object passed as both).
- `inline` and `inline_threshold` are modelled as optional integers. Other Python values (floats, booleans) are not modelled.
- `storage_options` is modelled as a string dictionary.
