/*
 * A model of the document-retrieval dispatcher `docfetcher` of the
 * docviewer hook: given a backend handle it either reports the backend's
 * size, looks a document up by `_id`, or runs a filter query and caps the
 * answer at `limit`, capping differently for the two kinds of value a
 * backend query can return (an Elasticsearch-style generator or a
 * MongoDB-style cursor).
 */

module Wrappers {

  /** The conventional Some/None datatype, used for Python's `None`. */
  datatype Option<+T> = None | Some(value: T)
}

module DocViewer {
  import opened Wrappers

  /** A document is an opaque record of fields; the dispatcher never looks inside one. */
  datatype Doc = Doc(fields: map<string, string>)

  /** A query filter in the Mongo query-document style; the empty filter matches everything. */
  type Filter = map<string, string>

  /** The default `q={}` of `docfetcher`. */
  const MatchAll: Filter := map[]

  /** The default `limit=100` of `docfetcher`. */
  const DefaultLimit: int := 100

  function Min(a: int, b: int): int {
    if a < b then a else b
  }

  /**
   * What `backend.query(q)` hands back. The runtime test
   * `isinstance(q, types.GeneratorType)` becomes the tag:
   *  - `Producer(docs)`: a generator that yields `docs` in this order;
   *  - `Cursor(docs, limitTo)`: a cursor over `docs` whose own `limit(n)`
   *    method is `limitTo(n)`, the documents it then yields. The driver's
   *    behaviour is foreign: it is given, not computed here, and what it is
   *    assumed to promise is `HonoursLimit` below.
   */
  datatype QueryResult =
    | Producer(docs: seq<Doc>)
    | Cursor(docs: seq<Doc>, limitTo: int -> seq<Doc>)

  /**
   * The abstract contract of a cursor's `limit(n)`: for every positive `n`
   * it yields a prefix of the cursor's documents, at most `n` of them.
   * Generators have no `limit` method and satisfy this trivially.
   */
  ghost predicate HonoursLimit(r: QueryResult) {
    r.Cursor? ==> forall n :: n > 0 ==> r.limitTo(n) <= r.docs && |r.limitTo(n)| <= n
  }

  /**
   * A backend handle as built by `create_backend`, reduced to the three
   * operations the dispatcher calls: `count()`, `get_from_id(_id)` and
   * `query(q)`. All three are black boxes of the backend.
   */
  datatype Backend = Backend(
    total: int,
    getFromId: string -> Option<Doc>,
    query: Filter -> QueryResult)

  /** What `docfetcher` returns: a count, one (possibly missing) document, or a list of documents. */
  datatype Response =
    | Count(n: int)
    | One(doc: Option<Doc>)
    | Many(docs: seq<Doc>)

  /** Python truthiness of the `_id` argument: `None` and `""` are falsy. */
  predicate Truthy(id: Option<string>) {
    id.Some? && id.value != ""
  }

  /**
   * Python's `xs[:stop]`: a negative `stop` counts from the end, and the
   * stop index is then clamped to `0 .. len(xs)`. So a non-negative limit
   * keeps the first `limit` elements, and a negative one drops `-limit`
   * elements from the end.
   */
  function PySliceTo<T>(xs: seq<T>, stop: int): (r: seq<T>)
    ensures r <= xs
    ensures 0 <= stop ==> |r| == Min(stop, |xs|)
    ensures stop < 0 ==> |r| == if -stop < |xs| then |xs| + stop else 0
  {
    var k := if stop < 0 then stop + |xs| else stop;
    xs[..if k < 0 then 0 else if k > |xs| then |xs| else k]
  }

  /**
   * The first `n` documents a generator yields when it is drawn from one
   * item at a time and abandoned after `n` items: the lazy reference for
   * the generator branch, which instead drains the generator and slices.
   */
  function FirstYielded<T>(gen: seq<T>, n: nat): (r: seq<T>)
    ensures |r| == Min(n, |gen|)
    ensures forall i :: 0 <= i < |r| ==> r[i] == gen[i]
    decreases n
  {
    if n == 0 || gen == [] then [] else [gen[0]] + FirstYielded(gen[1..], n - 1)
  }

  /**
   * `docfetcher(backend_url, _id, count, q, limit)` with the backend already
   * built from `backend_url`. The precedence is count, then a truthy `_id`,
   * then the query; in the query branch a generator is drained and sliced
   * with `[:limit]`, a cursor is bounded with its own `limit(limit)`.
   */
  function DocFetcher(backend: Backend, id: Option<string>, count: bool, q: Filter, limit: int): (r: Response)
    ensures count <==> r.Count?
    ensures r.Count? ==> r.n == backend.total
    ensures r.One? <==> !count && Truthy(id)
    ensures r.One? ==> r.doc == backend.getFromId(id.value)
    ensures r.Many? <==> !count && !Truthy(id)
    ensures r.Many? && backend.query(q).Producer? ==>
              r.docs <= backend.query(q).docs
              && (limit >= 0 ==> |r.docs| == Min(limit, |backend.query(q).docs|))
    ensures r.Many? && backend.query(q).Cursor? ==> r.docs == backend.query(q).limitTo(limit)
    ensures r.Many? && limit > 0 && HonoursLimit(backend.query(q)) ==>
              r.docs <= backend.query(q).docs && |r.docs| <= limit
  {
    if count then
      Count(backend.total)
    else if Truthy(id) then
      One(backend.getFromId(id.value))
    else
      match backend.query(q)
      case Producer(docs) => Many(PySliceTo(docs, limit))
      case Cursor(_, limitTo) => Many(limitTo(limit))
  }

  /** Count is checked first and gets no filter: `_id`, `q` and `limit` never change its answer. */
  lemma CountIgnoresOtherArguments(
    backend: Backend,
    id1: Option<string>, q1: Filter, limit1: int,
    id2: Option<string>, q2: Filter, limit2: int)
    ensures DocFetcher(backend, id1, true, q1, limit1) == DocFetcher(backend, id2, true, q2, limit2)
    ensures DocFetcher(backend, id1, true, q1, limit1) == Count(backend.total)
  {
  }

  /**
   * With `count` false and a truthy `_id`, the answer is the backend's
   * lookup of that id, and neither `q` nor `limit` has any bearing on it
   * (the query is not consulted).
   */
  lemma ByIdIgnoresFilterAndLimit(
    backend: Backend, id: string,
    q1: Filter, limit1: int, q2: Filter, limit2: int)
    requires id != ""
    ensures DocFetcher(backend, Some(id), false, q1, limit1) == DocFetcher(backend, Some(id), false, q2, limit2)
    ensures DocFetcher(backend, Some(id), false, q1, limit1) == One(backend.getFromId(id))
  {
  }

  /**
   * By-id answers depend on nothing of the backend but its `get_from_id`:
   * two backends that agree on it give the same answer to a by-id request,
   * whatever their `count()` and `query` return.
   */
  lemma ByIdNeverQueries(b1: Backend, b2: Backend, id: Option<string>, q: Filter, limit: int)
    requires b1.getFromId == b2.getFromId
    requires Truthy(id)
    ensures DocFetcher(b1, id, false, q, limit) == DocFetcher(b2, id, false, q, limit)
  {
  }

  /** A missing (`None`) or empty `_id` with `count` false always takes the query branch. */
  lemma FalsyIdQueries(backend: Backend, id: Option<string>, q: Filter, limit: int)
    requires id == None || id == Some("")
    ensures DocFetcher(backend, id, false, q, limit).Many?
    ensures DocFetcher(backend, id, false, q, limit) == DocFetcher(backend, None, false, q, limit)
  {
  }

  /**
   * In the generator branch, draining the generator and slicing `[:limit]`
   * yields exactly the documents a lazy take of `limit` items would: the
   * first `min(limit, |docs|)` produced documents, in producer order and
   * unmodified.
   */
  lemma DrainThenSliceIsLazyTake<T>(gen: seq<T>, limit: nat)
    ensures PySliceTo(gen, limit) == FirstYielded(gen, limit)
  {
  }

  /** The generator-branch answer as the lazy take of its first `limit` documents. */
  lemma ProducerAnswerIsFirstYielded(backend: Backend, id: Option<string>, q: Filter, limit: nat)
    requires !Truthy(id) && backend.query(q).Producer?
    ensures DocFetcher(backend, id, false, q, limit) == Many(FirstYielded(backend.query(q).docs, limit))
  {
    DrainThenSliceIsLazyTake(backend.query(q).docs, limit);
  }

  /** In the generator branch, a limit at least the number of produced documents returns them all, in order. */
  lemma ProducerLimitCoversAll(backend: Backend, id: Option<string>, q: Filter, limit: int)
    requires !Truthy(id) && backend.query(q).Producer?
    requires limit >= |backend.query(q).docs|
    ensures DocFetcher(backend, id, false, q, limit) == Many(backend.query(q).docs)
  {
  }

  /**
   * For a positive limit every query-branch answer holds at most `limit`
   * documents taken from the front of the query's documents; for a cursor
   * this rests on the assumed contract of its `limit` method.
   */
  lemma QueryAnswerBounded(backend: Backend, id: Option<string>, q: Filter, limit: int)
    requires !Truthy(id) && limit > 0
    requires HonoursLimit(backend.query(q))
    ensures DocFetcher(backend, id, false, q, limit).Many?
    ensures |DocFetcher(backend, id, false, q, limit).docs| <= limit
    ensures DocFetcher(backend, id, false, q, limit).docs <= backend.query(q).docs
  {
  }

  /** With every argument at its default the call takes the query branch with the match-all filter and a cap of 100. */
  lemma DefaultsTakeQueryBranch(backend: Backend)
    requires HonoursLimit(backend.query(MatchAll))
    ensures DocFetcher(backend, None, false, MatchAll, DefaultLimit).Many?
    ensures |DocFetcher(backend, None, false, MatchAll, DefaultLimit).docs| <= 100
  {
  }

  /**
   * A cursor whose `limit(n)` follows MongoDB's documented reading of the
   * argument: `0` means no limit, and a negative `n` bounds the answer by
   * `-n`. It satisfies the abstract contract the dispatcher relies on.
   */
  function MongoStyleCursor(docs: seq<Doc>): (r: QueryResult)
    ensures r.Cursor? && r.docs == docs
    ensures HonoursLimit(r)
    ensures r.limitTo(0) == docs
  {
    Cursor(docs, n => if n == 0 then docs else FirstYielded(docs, if n < 0 then -n else n))
  }

  /**
   * The code does not guard `limit`: with `limit = 0` a generator backend
   * answers with no documents, while a cursor following MongoDB's reading
   * of `limit(0)` answers with all of them.
   */
  lemma ZeroLimitDependsOnBackendFamily(
    docs: seq<Doc>, total: int, getFromId: string -> Option<Doc>, q: Filter)
    requires docs != []
    ensures DocFetcher(Backend(total, getFromId, _ => Producer(docs)), None, false, q, 0) == Many([])
    ensures DocFetcher(Backend(total, getFromId, _ => MongoStyleCursor(docs)), None, false, q, 0) == Many(docs)
  {
  }

  /**
   * A worked case: a generator backend over five documents. A query with
   * `limit = 3` answers with the first three in backend order, `limit = 10`
   * with all five, and a count request with `5`.
   */
  lemma FiveDocumentScenario(d1: Doc, d2: Doc, d3: Doc, d4: Doc, d5: Doc, getFromId: string -> Option<Doc>)
    ensures var b := Backend(5, getFromId, _ => Producer([d1, d2, d3, d4, d5]));
      && DocFetcher(b, None, false, MatchAll, 3) == Many([d1, d2, d3])
      && DocFetcher(b, None, false, MatchAll, 10) == Many([d1, d2, d3, d4, d5])
      && DocFetcher(b, None, true, MatchAll, DefaultLimit) == Count(5)
  {
  }
}
