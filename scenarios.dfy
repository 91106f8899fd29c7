/**
 * Client code: call chains on a builder and what a caller can conclude from
 * the builder's contracts alone.
 */
module Scenarios {
  import opened PhpValues
  import opened Fragments
  import opened Documents
  import opened Builder

  /** where('age', 25) and where('age', '=', 25) build the same document */
  method ShortWhereIsEquality() {
    var a := new QueryBuilder();
    a.WhereValue("age", Int(25));
    var b := new QueryBuilder();
    var res := b.Where("age", Str("="), Int(25));
    assert res == Pass;
    var built := a.Build();
    var other := b.Build();
    assert built == other;
  }

  /** A null value is refused with `<` and changes nothing; with `=` it is a term */
  method NullComparisons() {
    var b := new QueryBuilder();
    var before := b.Build();
    var refused := b.Where("age", Str("<"), Null);
    assert refused == Fail(IllegalOperatorAndValue);
    var after := b.Build();
    assert after == before;
    var accepted := b.Where("age", Str("="), Null);
    assert accepted == Pass;
    assert Bucket(b.query.body.filter, "must") == [Term("age", Null)];
  }

  /** The order of the two values of whereBetween does not matter; three values are refused */
  method BetweenOrder() {
    var a := new QueryBuilder();
    var ra := a.WhereBetween("age", [30, 10]);
    var b := new QueryBuilder();
    var rb := b.WhereBetween("age", [10, 30]);
    assert ra == rb == Pass;
    assert a.query == b.query;
    assert Bucket(a.query.body.filter, "must") == [Range("age", Null, [Bound(Gt, Int(10)), Bound(Lt, Int(30))])];
    var rc := a.WhereBetween("age", [10, 20, 30]);
    assert rc == Fail(IllegalOperatorAndValue);
  }

  /** A native operator passes through; one off the allow-list is refused */
  method RawOperators() {
    var b := new QueryBuilder();
    var ok := b.WhereRaw(Field("title"), "match_phrase", Str("hello world"));
    assert ok == Pass;
    assert Bucket(b.query.body.filter, "must") == [RawLeaf("match_phrase", "title", Str("hello world"))];
    var refused := b.WhereRaw(Field("title"), "unsupported_op", Str("x"));
    assert refused == Fail(IllegalElasticsearchOperator);
  }

  /** `DESC` and `desc` sort alike, and so does `bogus`; every entry stays in call order */
  method SortDirections() {
    var b := new QueryBuilder();
    b.OrderBy("created_at", "DESC");
    b.OrderBy("created_at", "desc");
    b.OrderBy("created_at", "bogus");
    b.Oldest();
    assert b.query.body.sort == [FieldSort("created_at", Desc), FieldSort("created_at", Desc),
                                 FieldSort("created_at", Desc), FieldSort("created_at", Asc)];
  }

  /** The last limit wins, and building twice gives the same document */
  method LastLimitWins() {
    var b := new QueryBuilder();
    b.Limit(Int(10));
    b.Take(Int(20));
    b.Aggregation("category");
    var first := b.Build();
    var second := b.BuildMergeQuery();
    assert first == second;
    assert first.size == Some(Int(20));
    assert first.body.aggs["category"] == TermsAggregation("category", Int(0));
  }

  /** Filter and scored fragments go to their own containers, each in call order */
  method ContainersStayApart() {
    var b := new QueryBuilder();
    b.WhereIn("tag", [Str("a"), Str("b")]);
    b.MatchQuery("title", Str("hello"));
    b.WhereNotNull("author");
    b.OrWhereNull("editor", "should", true);
    assert Bucket(b.query.body.filter, "must") == [Terms("tag", [Str("a"), Str("b")]), Exists("author")];
    assert Bucket(b.query.body.filter, "should") == [Missing("editor")];
    assert Bucket(b.query.body.scored, "must") == [MatchText("title", Str("hello"), Some(Str("100%")))];
  }
}
