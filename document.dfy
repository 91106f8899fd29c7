/**
 * The request document the builder accumulates, laid out as the builder
 * writes it:
 *   body.query.filtered.filter.bool.<mode>   filter fragments (merge)
 *   body.query.filtered.query.bool.<mode>    scored fragments (mergeQuery)
 *   body.sort, body.aggs, body._source.include, body.explain, body.track_scores
 *   from, size                              pagination, beside body
 * and the pure rules for appending to it.
 */
module Documents {
  import opened PhpValues
  import opened Fragments

  /** The boolean-mode buckets of one `bool` container, by mode name (`must`, `must_not`, `should`, ...) */
  type Buckets = map<string, seq<Fragment>>

  datatype Direction = Asc | Desc

  /** One entry of `body.sort`: {column: direction}, or {_script: script} */
  datatype SortEntry = FieldSort(column: string, direction: Direction) | ScriptSort(script: Value)

  /** One entry of `body.aggs`: {terms: {field: field, size: size}} */
  datatype Aggregation = TermsAggregation(field: string, size: Value)

  /**
   * The document under `body`. An absent container, bucket map or sort list
   * is represented by an empty one.
   */
  datatype Body = Body(
    filter: Buckets,
    scored: Buckets,
    sort: seq<SortEntry>,
    aggs: map<string, Aggregation>,
    sourceInclude: Option<seq<string>>,
    explain: Option<Value>,
    trackScores: Option<Value>)

  /** The whole `$query` array: the body and the top-level pagination scalars */
  datatype Request = Request(body: Body, from: Option<Value>, size: Option<Value>)

  function EmptyBody(): Body {
    Body(map[], map[], [], map[], None, None, None)
  }

  /** The fragments of one bucket; a bucket not yet created holds none */
  function Bucket(b: Buckets, mode: string): seq<Fragment> {
    if mode in b then b[mode] else []
  }

  /**
   * `$container[$mode][] = $fragment`: creates the bucket when it is missing
   * and appends at its end.
   */
  function Append(b: Buckets, mode: string, f: Fragment): (r: Buckets)
    ensures r.Keys == b.Keys + {mode}
    ensures Bucket(r, mode) == Bucket(b, mode) + [f]
    ensures forall m :: m != mode ==> Bucket(r, m) == Bucket(b, m)
  {
    b[mode := Bucket(b, mode) + [f]]
  }

  /** `merge`: one fragment more at the end of a filter bucket, and nothing else changes */
  function AppendFilter(q: Request, mode: string, f: Fragment): (r: Request)
    ensures Bucket(r.body.filter, mode) == Bucket(q.body.filter, mode) + [f]
    ensures forall m :: m != mode ==> Bucket(r.body.filter, m) == Bucket(q.body.filter, m)
    ensures r.body.filter.Keys == q.body.filter.Keys + {mode}
    ensures r.body.(filter := q.body.filter) == q.body
    ensures r.from == q.from && r.size == q.size
  {
    q.(body := q.body.(filter := Append(q.body.filter, mode, f)))
  }

  /** `mergeQuery`: one fragment more at the end of a scored bucket, and nothing else changes */
  function AppendScored(q: Request, mode: string, f: Fragment): (r: Request)
    ensures Bucket(r.body.scored, mode) == Bucket(q.body.scored, mode) + [f]
    ensures forall m :: m != mode ==> Bucket(r.body.scored, m) == Bucket(q.body.scored, m)
    ensures r.body.scored.Keys == q.body.scored.Keys + {mode}
    ensures r.body.(scored := q.body.scored) == q.body
    ensures r.from == q.from && r.size == q.size
  {
    q.(body := q.body.(scored := Append(q.body.scored, mode, f)))
  }

  /** The document after a filter predicate whose translation is `r`: a rejected call writes nothing */
  function AfterFilter(q: Request, mode: string, r: Result<Fragment>): (q': Request)
    // an exception leaves the document as it was
    ensures r.Err? ==> q' == q
    // an accepted fragment goes to the end of its bucket
    ensures Bucket(q'.body.filter, mode) == Bucket(q.body.filter, mode) + (if r.Ok? then [r.value] else [])
    // no other bucket, no other part of the body and no pagination scalar changes
    ensures forall m :: m != mode ==> Bucket(q'.body.filter, m) == Bucket(q.body.filter, m)
    ensures q'.body.(filter := q.body.filter) == q.body
    ensures q'.from == q.from && q'.size == q.size
  {
    match r
    case Ok(f) => AppendFilter(q, mode, f)
    case Err(_) => q
  }

  /** Two filter fragments appended one after the other keep their call order */
  lemma AppendFilterKeepsOrder(q: Request, mode: string, f: Fragment, g: Fragment)
    ensures Bucket(AppendFilter(AppendFilter(q, mode, f), mode, g).body.filter, mode)
         == Bucket(q.body.filter, mode) + [f, g]
  {
  }

  /**
   * `strtolower($direction) == 'asc' ? 'asc' : 'desc'`: ascending exactly for
   * the eight spellings of `asc`, so `DESC` and `bogus` both sort descending
   */
  function SortDirection(direction: string): (d: Direction)
    ensures d == Asc <==>
      |direction| == 3 && direction[0] in {'a', 'A'} && direction[1] in {'s', 'S'} && direction[2] in {'c', 'C'}
  {
    if ToLower(direction) == "asc" then Asc else Desc
  }
}
