/**
 * The fluent builder itself: one object holding the request document in
 * its field `query`, changed in place by every call. PHP returns `$this`
 * for chaining; here a call that can throw returns an Outcome instead, and
 * a chain is a sequence of calls on the same object.
 */
module Builder {
  import opened PhpValues
  import opened Fragments
  import opened Documents

  /** How a builder call ends: it returns `$this`, or it throws */
  datatype Outcome = Pass | Fail(error: Error)

  function OutcomeOf<T>(r: Result<T>): Outcome {
    match r
    case Ok(_) => Pass
    case Err(e) => Fail(e)
  }

  class QueryBuilder {
    /** The whole `$query` array */
    var query: Request

    /** A builder over a body, empty by default, with no pagination */
    constructor(body: Body := EmptyBody())
      ensures query == Request(body, None, None)
    {
      query := Request(body, None, None);
    }

    /** `build`: the stored document as it is; calling it changes nothing */
    method Build() returns (r: Request)
      ensures r == query
    {
      r := query;
    }

    /** `buildMergeQuery`: returns what build() returns, before any consolidation */
    method BuildMergeQuery() returns (r: Request)
      ensures r == query
    {
      r := Build();
    }

    /** `merge`: appends a fragment to a bucket of the filter container */
    method Merge(fragment: Fragment, mode: string := "must")
      modifies this
      ensures query == AppendFilter(old(query), mode, fragment)
    {
      query := AppendFilter(query, mode, fragment);
    }

    /** `mergeQuery`: appends a fragment to a bucket of the scored container */
    method MergeQuery(fragment: Fragment, mode: string := "must")
      modifies this
      ensures query == AppendScored(old(query), mode, fragment)
    {
      query := AppendScored(query, mode, fragment);
    }

    /** `fuzzyQuery`: a fuzzy match, scored, never in the filter container */
    method FuzzyQuery(column: string, value: Value := Null, fuzziness: Value := Str("AUTO"),
                      operator: Value := Str("and"), mode: string := "must")
      modifies this
      ensures query == AppendScored(old(query), mode, FuzzyText(column, value, fuzziness, operator))
    {
      MergeQuery(FuzzyText(column, value, fuzziness, operator), mode);
    }

    /** `matchQuery`: a scored match whose threshold is left out when the boost is falsy */
    method MatchQuery(column: string, value: Value := Null, boost: Value := Str("100%"), mode: string := "must")
      modifies this
      ensures query == AppendScored(old(query), mode, MatchQueryFragment(column, value, boost))
    {
      MergeQuery(MatchQueryFragment(column, value, boost), mode);
    }

    /** `match`: a match wrapped in `query`, appended as a filter, threshold always present */
    method Match(column: string, value: Value := Null, boost: Value := Str("100%"), mode: string := "must")
      modifies this
      ensures query == AppendFilter(old(query), mode, QueryMatch(column, value, boost))
    {
      Merge(QueryMatch(column, value, boost), mode);
    }

    /** `whereRaw`: an allow-listed engine operator, passed through */
    method WhereRaw(column: Column, operator: string, value: Value, mode: string := "must") returns (res: Outcome)
      requires RawMergeable(value)
      modifies this
      ensures res == OutcomeOf(RawFragment(column, operator, value))
      ensures query == AfterFilter(old(query), mode, RawFragment(column, operator, value))
    {
      match RawFragment(column, operator, value)
      case Ok(f) =>
        Merge(f, mode);
        res := Pass;
      case Err(e) =>
        res := Fail(e);
    }

    /** `where($column, $value)`: the two-argument form, an equality term in `must` */
    method WhereValue(column: string, value: Value)
      modifies this
      ensures query == AppendFilter(old(query), "must", Term(column, value))
    {
      Merge(Term(column, value), "must");
    }

    /** `where` with three or more arguments */
    method Where(column: string, operator: Value, value: Value, boost: Value := Null, mode: string := "must")
      returns (res: Outcome)
      modifies this
      ensures res == OutcomeOf(WhereFragment(column, operator, value, boost))
      ensures query == AfterFilter(old(query), mode, WhereFragment(column, operator, value, boost))
    {
      match WhereFragment(column, operator, value, boost)
      case Ok(f) =>
        Merge(f, mode);
        res := Pass;
      case Err(e) =>
        res := Fail(e);
    }

    /**
     * `orWhere`: always forwards all five arguments, so `orWhere($c, $v)` takes
     * the three-argument path of `where` with `$v` as the operator.
     */
    method OrWhere(column: string, operator: Value := Null, value: Value := Null, boost: Value := Null,
                   mode: string := "should")
      returns (res: Outcome)
      modifies this
      ensures res == OutcomeOf(WhereFragment(column, operator, value, boost))
      ensures query == AfterFilter(old(query), mode, WhereFragment(column, operator, value, boost))
    {
      res := Where(column, operator, value, boost, mode);
    }

    /** `whereIn`: a terms fragment over the values */
    method WhereIn(column: string, values: seq<Value>, mode: string := "must")
      modifies this
      ensures query == AppendFilter(old(query), mode, Terms(column, values))
    {
      Merge(Terms(column, values), mode);
    }

    /** `orWhereIn`: whereIn in `should` */
    method OrWhereIn(column: string, values: seq<Value>, mode: string := "should")
      modifies this
      ensures query == AppendFilter(old(query), mode, Terms(column, values))
    {
      WhereIn(column, values, mode);
    }

    /** `whereNotIn`: whereIn in `must_not` */
    method WhereNotIn(column: string, values: seq<Value>, mode: string := "must_not")
      modifies this
      ensures query == AppendFilter(old(query), mode, Terms(column, values))
    {
      WhereIn(column, values, mode);
    }

    /** `orWhereNotIn`: the very same fragment as orWhereIn, in `should` */
    method OrWhereNotIn(column: string, values: seq<Value>, mode: string := "should")
      modifies this
      ensures query == AppendFilter(old(query), mode, Terms(column, values))
    {
      WhereIn(column, values, mode);
    }

    /** `whereNull`: a missing check, or an exists check when negated */
    method WhereNull(column: string, mode: string := "must", negated: bool := false)
      modifies this
      ensures query == AppendFilter(old(query), mode, if negated then Exists(column) else Missing(column))
    {
      Merge(if negated then Exists(column) else Missing(column), mode);
    }

    /** `orWhereNull`: drops its `$not` argument, so it always checks for missing */
    method OrWhereNull(column: string, mode: string := "should", negated: bool := false)
      modifies this
      ensures query == AppendFilter(old(query), mode, Missing(column))
    {
      WhereNull(column, mode);
    }

    /** `whereNotNull`: an exists check */
    method WhereNotNull(column: string, mode: string := "must")
      modifies this
      ensures query == AppendFilter(old(query), mode, Exists(column))
    {
      WhereNull(column, mode, true);
    }

    /** `orWhereNotNull`: an exists check in `should` */
    method OrWhereNotNull(column: string, mode: string := "should")
      modifies this
      ensures query == AppendFilter(old(query), mode, Exists(column))
    {
      WhereNull(column, mode, true);
    }

    /** `whereBetween`: a range over the two values, or the exception for any other count */
    method WhereBetween(column: string, values: seq<int>, boost: Value := Null, mode: string := "must")
      returns (res: Outcome)
      modifies this
      ensures res == OutcomeOf(BetweenFragment(column, values, boost, mode))
      ensures query == AfterFilter(old(query), mode, BetweenFragment(column, values, boost, mode))
    {
      match BetweenFragment(column, values, boost, mode)
      case Ok(f) =>
        Merge(f, mode);
        res := Pass;
      case Err(e) =>
        res := Fail(e);
    }

    /** `orWhereBetween`: whereBetween in `should`, exclusive bounds */
    method OrWhereBetween(column: string, values: seq<int>, boost: Value := Null, mode: string := "should")
      returns (res: Outcome)
      modifies this
      ensures res == OutcomeOf(BetweenFragment(column, values, boost, mode))
      ensures query == AfterFilter(old(query), mode, BetweenFragment(column, values, boost, mode))
    {
      res := WhereBetween(column, values, boost, mode);
    }

    /** `whereNotBetween`: whereBetween in `must_not`, inclusive bounds */
    method WhereNotBetween(column: string, values: seq<int>, boost: Value := Null, mode: string := "must_not")
      returns (res: Outcome)
      modifies this
      ensures res == OutcomeOf(BetweenFragment(column, values, boost, mode))
      ensures query == AfterFilter(old(query), mode, BetweenFragment(column, values, boost, mode))
    {
      res := WhereBetween(column, values, boost, mode);
    }

    /** `orderByScript`: a script sort entry at the end of `body.sort` */
    method OrderByScript(script: Value)
      modifies this
      ensures query == old(query).(body := old(query).body.(sort := old(query).body.sort + [ScriptSort(script)]))
    {
      query := query.(body := query.body.(sort := query.body.sort + [ScriptSort(script)]));
    }

    /** `orderBy`: a field sort entry at the end of `body.sort`, ascending only for `asc` in any case */
    method OrderBy(column: string, direction: string := "asc")
      modifies this
      ensures query == old(query).(body := old(query).body.(sort := old(query).body.sort
                                                             + [FieldSort(column, SortDirection(direction))]))
    {
      query := query.(body := query.body.(sort := query.body.sort + [FieldSort(column, SortDirection(direction))]));
    }

    /** `latest`: a descending sort, on `created_at` by default */
    method Latest(column: string := "created_at")
      modifies this
      ensures query == old(query).(body := old(query).body.(sort := old(query).body.sort + [FieldSort(column, Desc)]))
    {
      OrderBy(column, "desc");
    }

    /** `oldest`: an ascending sort, on `created_at` by default */
    method Oldest(column: string := "created_at")
      modifies this
      ensures query == old(query).(body := old(query).body.(sort := old(query).body.sort + [FieldSort(column, Asc)]))
    {
      OrderBy(column, "asc");
    }

    /** `offset`: overwrites the top-level `from` */
    method Offset(value: Value)
      modifies this
      ensures query == old(query).(from := Some(value))
    {
      query := query.(from := Some(value));
    }

    /** `skip`: the same as offset */
    method Skip(value: Value)
      modifies this
      ensures query == old(query).(from := Some(value))
    {
      Offset(value);
    }

    /** `limit`: overwrites the top-level `size` */
    method Limit(value: Value)
      modifies this
      ensures query == old(query).(size := Some(value))
    {
      query := query.(size := Some(value));
    }

    /** `take`: the same as limit */
    method Take(value: Value)
      modifies this
      ensures query == old(query).(size := Some(value))
    {
      Limit(value);
    }

    /** `select`: overwrites `body._source.include`; an empty list of columns changes nothing */
    method Select(columns: seq<string> := [])
      modifies this
      ensures columns == [] ==> query == old(query)
      ensures columns != [] ==> query == old(query).(body := old(query).body.(sourceInclude := Some(columns)))
    {
      if columns != [] {
        query := query.(body := query.body.(sourceInclude := Some(columns)));
      }
    }

    /** `aggregation`: overwrites `body.aggs[field]` with a terms aggregation, size 0 by default */
    method Aggregation(field: string, size: Value := Int(0))
      modifies this
      ensures query == old(query).(body := old(query).body.(aggs := old(query).body.aggs[field := TermsAggregation(field, size)]))
    {
      query := query.(body := query.body.(aggs := query.body.aggs[field := TermsAggregation(field, size)]));
    }

    /** `explanation`: overwrites `body.explain`, true by default */
    method Explanation(explain: Value := Bool(true))
      modifies this
      ensures query == old(query).(body := old(query).body.(explain := Some(explain)))
    {
      query := query.(body := query.body.(explain := Some(explain)));
    }

    /** `trackScores`: overwrites `body.track_scores`, true by default */
    method TrackScores(trackScores: Value := Bool(true))
      modifies this
      ensures query == old(query).(body := old(query).body.(trackScores := Some(trackScores)))
    {
      query := query.(body := query.body.(trackScores := Some(trackScores)));
    }
  }
}
