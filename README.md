# docviewer hook: a Dafny model of `docfetcher`

This project models the document-retrieval dispatcher `docfetcher` of the
docviewer hook. Given a backend handle, `docfetcher` does one of three things:

1. It returns the backend's `count()` when `count` is set.
2. Otherwise, when `_id` is truthy, it returns `get_from_id(_id)`.
3. Otherwise it runs `query(q)` and caps the answer at `limit`. How it caps
   depends on what the query returned:
   - a generator (the Elasticsearch-style backend) is drained and then sliced
     with `[:limit]`;
   - a cursor (the MongoDB-style backend) is bounded with its own
     `limit(limit)`, and only that bounded view is read.

Everything is in `docviewer.dfy`. Module `Wrappers` holds `Option`.
Module `DocViewer` holds the model:

- `Backend` stands for the handle that `create_backend(backend_url)` builds.
  It is a record of the three operations `docfetcher` calls, each a black box:
  `total` for `count()`, `getFromId` and `query`.
- `QueryResult` replaces the runtime test `isinstance(q, types.GeneratorType)`
  with a tag. `Producer(docs)` is a generator. `Cursor(docs, limitTo)` is a
  cursor whose `limit(n)` yields `limitTo(n)`.
- The cursor's `limit` is foreign driver code. The model assumes only
  `HonoursLimit`: for every positive `n`, `limit(n)` yields a prefix of the
  cursor's documents of length at most `n`. Properties that need it take it
  as a hypothesis.
- `Response` is the union of what `docfetcher` returns: `Count(n)`,
  `One(Option<Doc>)` or `Many(seq<Doc>)`.
- `_id` is `Option<string>`. It is truthy when it is present and not empty,
  which is Python's truthiness for `None` and strings.
- `limit` is an unbounded integer with no precondition, because the code has
  no guard. The generator branch follows Python's `[:limit]` exactly
  (`PySliceTo`):
  - `0` gives an empty list;
  - a negative value drops that many documents from the end.

The code does not guard `limit`: a zero or negative value goes straight to
`[:limit]` or to the cursor's `limit`. It raises no error when `_id` comes
with `count`: count wins.

`ZeroLimitDependsOnBackendFamily` shows what the missing `limit` guard leads
to. At `limit = 0`, a generator backend answers with no documents. A cursor
that reads `limit(0)` as "no limit", as MongoDB's driver documents it, answers
with every document.

## Model

| member | source | states |
|---|---|---|
| `DocViewer.DocFetcher` | docviewer.py:6-24 | Precedence: the answer is a count exactly when `count` is set, and then it is the backend's `count()`. It is one document exactly when `count` is unset and `_id` is truthy, and then it is `get_from_id(_id)`. Otherwise it is a list. For a generator the list is a prefix of the produced documents, of length `min(limit, len)` when `limit >= 0`. For a cursor it is exactly what `cursor.limit(limit)` yields. For `limit > 0` and a cursor honouring its contract, it is a prefix with at most `limit` documents |
| `DocViewer.PySliceTo` | docviewer.py:21 | Python's `xs[:stop]`: the result is a prefix of `xs`. Its length is `min(stop, len)` for `stop >= 0` and `max(0, len + stop)` for `stop < 0` |
| `DocViewer.FirstYielded` | docviewer.py:19-21 | Reference for the generator branch: taking `n` items one at a time from a generator gives the first `min(n, len)` produced items, each equal to the produced item at that position |
| `DocViewer.DrainThenSliceIsLazyTake` | docviewer.py:21 | Draining a generator and slicing `[:limit]` (for `limit >= 0`) gives exactly the lazy take of its first `limit` items |
| `DocViewer.ProducerAnswerIsFirstYielded` | docviewer.py:17-21 | In the generator branch with `limit >= 0`, the answer is the first `limit` produced documents, in producer order and unmodified |
| `DocViewer.ProducerLimitCoversAll` | docviewer.py:19-21 | In the generator branch, a `limit` of at least the number of produced documents returns all of them, in order |
| `DocViewer.CountIgnoresOtherArguments` | docviewer.py:13-14 | With `count` set, the answer is `Count(count())` whatever `_id`, `q` and `limit` are. Count is checked first and gets no filter |
| `DocViewer.ByIdIgnoresFilterAndLimit` | docviewer.py:15-16 | With `count` unset and a non-empty `_id`, the answer is `get_from_id(_id)`. It is the same for every `q` and `limit` |
| `DocViewer.ByIdNeverQueries` | docviewer.py:15-16 | A by-id answer depends on nothing of the backend but `get_from_id`: two backends with the same `get_from_id` give the same by-id answer, whatever their `count()` and `query` |
| `DocViewer.FalsyIdQueries` | docviewer.py:15-18 | With `count` unset, an `_id` of `None` or `""` takes the query branch. The answer is the same as with no `_id` |
| `DocViewer.QueryAnswerBounded` | docviewer.py:17-24 | For `limit > 0`, every query-branch answer is a prefix of the query's documents with at most `limit` of them. For a cursor this rests on the assumed contract of `limit` |
| `DocViewer.DefaultsTakeQueryBranch` | docviewer.py:6 | With the defaults (`_id=None`, `count=False`, `q={}`, `limit=100`), the call takes the query branch and answers with at most 100 documents |
| `DocViewer.MongoStyleCursor` | docviewer.py:22-24 | A cursor whose `limit(0)` means no limit and whose `limit(n)` takes the first `n` documents satisfies the assumed `limit` contract. So that contract can be met |
| `DocViewer.ZeroLimitDependsOnBackendFamily` | docviewer.py:19-24 | With the unguarded `limit = 0`, a generator backend answers with no documents. A cursor that reads `limit(0)` as "no limit" answers with all of them |
| `DocViewer.FiveDocumentScenario` | docviewer.py:6-24 | On a five-document generator backend: `limit=3` gives the first three documents in backend order, `limit=10` gives all five, and a count request gives 5 |

## Left out

- `create_backend(backend_url)` (docviewer.py:3,12) is a foreign library call. The model takes the built backend as a parameter.
- The backend's `count()`, `get_from_id` and `query` are given as black-box fields. The MongoDB and Elasticsearch drivers, and their I/O, are not modelled.
- The cursor's own `limit` is not computed: the model assumes only its prefix-and-length contract. How many documents a cursor pulls from the store is therefore not modelled.
- Exceptions raised by backend calls are not modelled. The code has no try/except, so they simply propagate.
- The `expose(...)` endpoint registrations (docviewer.py:29-44) and the usage comments (docviewer.py:46-60) are HTTP wiring, not logic.
- `count` is modelled as a boolean and `_id` as an optional string. Python would also accept other values and judge them by truthiness; for example, the string `"false"` is truthy.
- Draining the whole generator before slicing costs memory. That is a resource concern, not functional behaviour, so it is not modelled.
- `limit` is modelled as an integer only. Python's `[:limit]` (docviewer.py:21) also accepts `limit=None`, for example a JSON `null` in the request body, and then returns the whole list; that case is not modelled.
- The model assumes that every query result that is not a generator has a `limit` method (docviewer.py:22-24). A result that is neither, such as a plain list or iterator, makes the code raise `AttributeError`; the two-variant `QueryResult` cannot represent it.
