/**
 * The predicate fragments the builder emits and the pure rules that
 * translate a relational-style call (where, whereBetween, whereRaw,
 * matchQuery) into one of them, or into the exception the call throws.
 */
module Fragments {
  import opened PhpValues

  /** The range keywords of the search engine */
  datatype RangeKind = Lt | Gt | Lte | Gte

  /** One `kind: limit` entry of a range clause */
  datatype Bound = Bound(kind: RangeKind, limit: Value)

  /** The column argument of whereRaw: one field, or an array of them */
  datatype Column = Field(name: string) | Fields(names: seq<string>)

  /**
   * One atomic predicate, as it is appended to a boolean-mode bucket.
   * In `Range`, a null boost stands for a clause without a `boost` key.
   */
  datatype Fragment =
    | Term(column: string, value: Value)                         // {term: {column: value}}
    | Range(column: string, boost: Value, bounds: seq<Bound>)    // {range: {column: {boost, kind: limit, ...}}}
    | Terms(column: string, values: seq<Value>)                  // {terms: {column: values}}
    | Missing(field: string)                                     // {missing: {field: field}}
    | Exists(field: string)                                      // {exists: {field: field}}
    | RawLeaf(nativeOp: string, column: string, value: Value)    // {nativeOp: {column: value}}
    | RawParams(nativeOp: string, column: string, params: map<string, Value>)  // {nativeOp: {column: params}}
    | RawFields(nativeOp: string, query: Value, fields: seq<string>)          // {nativeOp: {query: query, fields: fields}}
    | QueryMatch(column: string, query: Value, minimumShouldMatch: Value)
      // {query: {match: {column: {query: query, minimum_should_match: minimumShouldMatch}}}}
    | MatchText(column: string, query: Value, minimum: Option<Value>)
      // {match: {column: {query: query, minimum_should_match: minimum when present}}}
    | FuzzyText(column: string, query: Value, fuzziness: Value, textOperator: Value)
      // {match: {column: {query: query, fuzziness: fuzziness, operator: textOperator}}}

  /**
   * What a rejected call throws. The first two are the builder's own
   * InvalidArgumentException messages; TypeMismatch is the TypeError PHP
   * raises when a value of the wrong type reaches strtolower,
   * array_merge_recursive or an array key.
   */
  datatype Error = IllegalOperatorAndValue | IllegalElasticsearchOperator | TypeMismatch

  datatype Result<+T> = Ok(value: T) | Err(error: Error)

  /** How `where` compiles an operator of its table */
  datatype Compiled = AsTerm | AsRange(kind: RangeKind)

  /** The operator table of `where`: `<>` and `!=` compile to a plain term, like `=` */
  const Operators: map<string, Compiled> :=
    map["=" := AsTerm, "<" := AsRange(Lt), ">" := AsRange(Gt), "<=" := AsRange(Lte),
        ">=" := AsRange(Gte), "<>" := AsTerm, "!=" := AsTerm]

  /** The operators that accept a null value */
  const EqualityOperators: set<string> := {"=", "<>", "!="}

  /** The operators of the table that compile to a range */
  const RelationalOperators: set<string> := {"<", ">", "<=", ">="}

  /** The allow-list of engine-native operators of whereRaw */
  const EsOperators: set<string> :=
    {"match_phrase", "multi_match", "prefix", "wildcard", "regexp", "fuzzy"}

  /** A string holding no ASCII letter, which strtolower leaves alone */
  predicate NoLetters(s: string) {
    forall i :: 0 <= i < |s| ==> !('a' <= s[i] <= 'z') && !('A' <= s[i] <= 'Z')
  }

  lemma OperatorTablesAreSymbols()
    ensures forall k :: k in Operators ==> NonNumeric(k) && NoLetters(k)
    ensures forall k :: k in EqualityOperators ==> NonNumeric(k)
  {
  }

  /** `invalidOperatorAndValue`: a null value with a table operator other than an equality one */
  predicate InvalidOperatorAndValue(operator: Value, value: Value)
    // loose comparison lets `true` match the table, but then it also matches the equality operators
    ensures InvalidOperatorAndValue(operator, value) <==>
      value.Null? && operator.Str? && operator.s in RelationalOperators
  {
    OperatorTablesAreSymbols();
    value.Null? && LooseIn(operator, Operators.Keys) && !LooseIn(operator, EqualityOperators)
  }

  /**
   * Looks the lower-cased operator up in the table (strictly), as `where`
   * does. Only a string can match: strtolower turns null, booleans and
   * integers into "", "1" or digits, none of which is a key.
   */
  function LookupOperator(operator: Value): (c: Option<Compiled>)
    ensures c.Some? <==> operator.Str? && operator.s in Operators
    ensures c.Some? ==> c.value == Operators[operator.s]
  {
    OperatorTablesAreSymbols();
    if operator.Str? && ToLower(operator.s) in Operators then
      var key := ToLower(operator.s);
      ToLowerWithoutLetters(operator.s, key);
      Some(Operators[operator.s])
    else
      assert operator.Str? && operator.s in Operators ==> ToLower(operator.s) == operator.s by {
        if operator.Str? && operator.s in Operators {
          assert NoLetters(operator.s);
        }
      }
      None
  }

  /** An operator argument that `where` compiles to a range clause */
  predicate IsRangeOperator(operator: Value) {
    operator.Str? && operator.s in Operators && Operators[operator.s].AsRange?
  }

  /**
   * The fragment of `where($column, $operator, $value, $boost)` called with
   * three or more arguments, or the exception it throws before writing.
   */
  function WhereFragment(column: string, operator: Value, value: Value, boost: Value): (r: Result<Fragment>)
    // the illegal-argument error is exactly a null value with a relational operator
    ensures r == Err(IllegalOperatorAndValue) <==>
      value.Null? && operator.Str? && operator.s in RelationalOperators
    // an array in the operator position, or a boost on a term, is a type error
    ensures r == Err(TypeMismatch) <==>
      !(value.Null? && operator.Str? && operator.s in RelationalOperators) &&
      (IsArray(operator) || (!boost.Null? && !IsRangeOperator(operator)))
    // `=`, `<>` and `!=` give the same plain term, null value included
    ensures operator.Str? && operator.s in EqualityOperators && boost.Null? ==>
      r == Ok(Term(column, value))
    // `<`, `>`, `<=`, `>=` give a one-bound range that carries the boost
    ensures IsRangeOperator(operator) && !value.Null? ==>
      r == Ok(Range(column, boost, [Bound(Operators[operator.s].kind, value)]))
    // anything else in the operator position is taken as the value of a term
    ensures !IsArray(operator) && !(operator.Str? && operator.s in Operators) && boost.Null? ==>
      r == Ok(Term(column, operator))
  {
    if InvalidOperatorAndValue(operator, value) then Err(IllegalOperatorAndValue)
    else if IsArray(operator) then Err(TypeMismatch)
    else
      match LookupOperator(operator)
      case None => if boost.Null? then Ok(Term(column, operator)) else Err(TypeMismatch)
      case Some(AsTerm) => if boost.Null? then Ok(Term(column, value)) else Err(TypeMismatch)
      case Some(AsRange(kind)) => Ok(Range(column, boost, [Bound(kind, value)]))
  }

  /**
   * The range fragment of `whereBetween`, or its exception. The bounds are
   * the minimum and maximum of the two values, exclusive unless the mode is
   * `must_not`.
   */
  function BetweenFragment(column: string, values: seq<int>, boost: Value, mode: string): (r: Result<Fragment>)
    ensures r.Err? <==> |values| != 2
    ensures r.Err? ==> r.error == IllegalOperatorAndValue
    ensures |values| == 2 ==>
      var lo := if values[0] <= values[1] then values[0] else values[1];
      var hi := if values[0] <= values[1] then values[1] else values[0];
      r == Ok(Range(column, boost,
                    if mode == "must_not" then [Bound(Gte, Int(lo)), Bound(Lte, Int(hi))]
                    else [Bound(Gt, Int(lo)), Bound(Lt, Int(hi))]))
  {
    if |values| == 2 then
      var lo, hi := Min(values), Max(values);
      Ok(Range(column, boost,
               if mode == "must_not" then [Bound(Gte, Int(lo)), Bound(Lte, Int(hi))]
               else [Bound(Gt, Int(lo)), Bound(Lt, Int(hi))]))
    else
      Err(IllegalOperatorAndValue)
  }

  /** whereBetween does not depend on the order of its two values */
  lemma BetweenIgnoresOrder(column: string, a: int, b: int, boost: Value, mode: string)
    ensures BetweenFragment(column, [a, b], boost, mode) == BetweenFragment(column, [b, a], boost, mode)
  {
  }

  /**
   * What `orWhere($column, $v)` does, since it reaches `where` with `$v` as the
   * operator and a null value: a term on `$v` like `where($column, $v)`, except
   * when `$v` is an operator of the table or an array.
   */
  lemma OrWhereShortForm(column: string, v: Value)
    ensures !IsArray(v) && !(v.Str? && v.s in Operators) ==> WhereFragment(column, v, Null, Null) == Ok(Term(column, v))
    ensures v.Str? && v.s in RelationalOperators ==> WhereFragment(column, v, Null, Null) == Err(IllegalOperatorAndValue)
    ensures v.Str? && v.s in EqualityOperators ==> WhereFragment(column, v, Null, Null) == Ok(Term(column, Null))
    ensures IsArray(v) ==> WhereFragment(column, v, Null, Null) == Err(TypeMismatch)
  {
  }

  /**
   * The inputs whose third element this model can merge: a three-element
   * list's params are not a list, and when they are an associative array
   * they hold neither a `value` nor a `boost` key.
   */
  predicate RawMergeable(value: Value) {
    value.List? && |value.items| == 3 ==>
      match value.items[2]
      case List(_) => false
      case Dict(fields) => "value" !in fields && "boost" !in fields
      case _ => true
  }

  /** The params of a whereRaw value array: `value` and `boost`, beside a third element's keys */
  function RawParamsOf(value: Value): (r: Result<map<string, Value>>)
    requires IsArray(value) && RawMergeable(value)
    // array_merge_recursive refuses a third element that is not an array
    ensures r.Err? <==> Count(value) == 3 && !At(value, 2).Dict?
    ensures r.Err? ==> r.error == TypeMismatch
    // the first two elements become `value` and `boost`
    ensures r.Ok? ==> "value" in r.value && r.value["value"] == At(value, 0)
    ensures r.Ok? ==> "boost" in r.value && r.value["boost"] == At(value, 1)
    // beside them come exactly the keys of a third element, with their values
    ensures r.Ok? ==> r.value.Keys == {"value", "boost"} + (if Count(value) == 3 then At(value, 2).fields.Keys else {})
    ensures r.Ok? && Count(value) == 3 ==>
      forall k :: k in At(value, 2).fields ==> k in r.value && r.value[k] == At(value, 2).fields[k]
  {
    var params := map["value" := At(value, 0), "boost" := At(value, 1)];
    if Count(value) == 3 then
      match At(value, 2)
      case Dict(extra) => Ok(extra + params)
      case _ => Err(TypeMismatch)
    else
      Ok(params)
  }

  /** The pass-through fragment of `whereRaw`, or its exception */
  function RawFragment(column: Column, operator: string, value: Value): (r: Result<Fragment>)
    requires RawMergeable(value)
    // only the allow-listed engine operators are accepted
    ensures r == Err(IllegalElasticsearchOperator) <==> operator !in EsOperators
    // an array of two or of four or more values gives {column: {value: $value[0], boost: $value[1]}}
    ensures operator in EsOperators && column.Field? && IsArray(value) && Count(value) >= 2 && Count(value) != 3 ==>
      r == Ok(RawParams(operator, column.name, map["value" := At(value, 0), "boost" := At(value, 1)]))
    // a list of three values adds the keys of the third one
    ensures operator in EsOperators && column.Field? && value.List? && |value.items| == 3 && value.items[2].Dict? ==>
      r == Ok(RawParams(operator, column.name,
                        value.items[2].fields + map["value" := value.items[0], "boost" := value.items[1]]))
    // otherwise an array column gives a multi-field clause and a single column a leaf
    ensures operator in EsOperators && !(IsArray(value) && Count(value) > 1) ==>
      r == Ok(if column.Fields? then RawFields(operator, value, column.names)
              else RawLeaf(operator, column.name, value))
    // an array column cannot key the params, and scalar params cannot be merged
    ensures r == Err(TypeMismatch) <==>
      operator in EsOperators && IsArray(value) && Count(value) > 1 &&
      (column.Fields? || (Count(value) == 3 && !At(value, 2).Dict?))
  {
    if operator !in EsOperators then
      Err(IllegalElasticsearchOperator)
    else if IsArray(value) && Count(value) > 1 then
      match RawParamsOf(value)
      case Err(e) => Err(e)
      case Ok(params) =>
        if column.Fields? then Err(TypeMismatch) else Ok(RawParams(operator, column.name, params))
    else if column.Fields? then
      Ok(RawFields(operator, value, column.names))
    else
      Ok(RawLeaf(operator, column.name, value))
  }

  /** The fragment of `matchQuery`: the threshold key is there exactly when the boost is truthy */
  function MatchQueryFragment(column: string, value: Value, boost: Value): (f: Fragment)
    ensures f.MatchText? && f.column == column && f.query == value
    ensures f.minimum.Some? <==> Truthy(boost)
    ensures f.minimum.Some? ==> f.minimum.value == boost
  {
    if Truthy(boost) then MatchText(column, value, Some(boost)) else MatchText(column, value, None)
  }
}
