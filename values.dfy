/**
 * The slice of PHP's runtime that the query builder relies on: its loosely
 * typed values, truthiness, `in_array` with loose comparison, `strtolower`
 * and `min`/`max` over an array of integers. PHP 8 rules throughout.
 */
module PhpValues {

  datatype Option<+T> = None | Some(value: T)

  /**
   * A PHP value as the builder receives it from its callers.
   * A `List` is an array keyed 0..n-1; a `Dict` is an array whose keys are
   * all non-numeric strings (PHP would store numeric string keys as integers).
   */
  datatype Value =
    | Null
    | Bool(b: bool)
    | Int(i: int)
    | Str(s: string)
    | List(items: seq<Value>)
    | Dict(fields: map<string, Value>)

  /** `is_array($v)` */
  predicate IsArray(v: Value) {
    v.List? || v.Dict?
  }

  /** `count($v)` on an array */
  function Count(v: Value): nat
    requires IsArray(v)
  {
    if v.List? then |v.items| else |v.fields|
  }

  /** `$v[i]` on an array; an absent key reads as null (PHP warns and goes on) */
  function At(v: Value, i: nat): (r: Value)
    requires IsArray(v)
    ensures v.List? && i < |v.items| ==> r == v.items[i]
    // past the end of a list, and on any associative array, whose keys are not integers
    ensures v.Dict? || i >= Count(v) ==> r == Null
  {
    if v.List? && i < |v.items| then v.items[i] else Null
  }

  /** What `if ($v)` decides */
  predicate Truthy(v: Value)
    // PHP's list of the values that convert to false
    ensures !Truthy(v) <==> v in {Null, Bool(false), Int(0), Str(""), Str("0"), List([]), Dict(map[])}
  {
    match v
    case Null => false
    case Bool(b) => b
    case Int(i) => i != 0
    case Str(s) => s != "" && s != "0"
    case List(items) => items != []
    case Dict(fields) => fields != map[]
  }

  /**
   * A sufficient condition for a string that PHP cannot read as a number:
   * numeric strings start with whitespace, a sign, a digit or a decimal
   * point, so a string that starts otherwise is non-numeric. (Some strings
   * that start with whitespace, like " abc", are non-numeric too; the
   * strings this model needs to classify do not start with whitespace.)
   */
  predicate NonNumeric(s: string) {
    s != [] && !('0' <= s[0] <= '9') && s[0] !in {' ', '\t', '\n', '\r', '\U{B}', '\U{C}', '+', '-', '.'}
  }

  /** The decimal digits of a natural number, as PHP prints it */
  function Digits(n: nat): (r: string)
    ensures r != [] && '0' <= r[0] <= '9'
  {
    if n < 10 then [('0' as int + n) as char] else Digits(n / 10) + [('0' as int + n % 10) as char]
  }

  /** An integer cast to a string */
  function Decimal(i: int): (r: string)
    ensures r != [] && (r[0] == '-' || '0' <= r[0] <= '9')
  {
    if i < 0 then "-" + Digits(-i) else Digits(i)
  }

  /**
   * PHP 8's loose `$v == $k` against a non-numeric string `$k`: null reads
   * as "", the string is converted to a boolean when compared with one, an
   * integer is cast to a string and compared as a string, and an array is
   * never equal to a string.
   */
  predicate LooseEquals(v: Value, k: string)
    requires NonNumeric(k)
  {
    match v
    case Null => k == ""
    case Bool(b) => b == Truthy(Str(k))
    case Int(i) => Decimal(i) == k
    case Str(s) => s == k
    case List(_) => false
    case Dict(_) => false
  }

  /**
   * `in_array($v, $table)` with PHP 8's loose `==`, for a table of
   * non-numeric strings: a string matches itself only, `true` equals every
   * string of such a table, and null, `false`, integers and arrays equal none.
   */
  predicate LooseIn(v: Value, table: set<string>)
    requires forall k :: k in table ==> NonNumeric(k)
    ensures LooseIn(v, table) <==> exists k :: k in table && LooseEquals(v, k)
  {
    match v
    case Str(s) => s in table
    case Bool(b) =>
      // every key of the table is non-empty and not "0", so it converts to true
      assert forall k :: k in table ==> NonNumeric(k) && Truthy(Str(k));
      if b && table != {} then
        var k :| k in table;
        assert LooseEquals(v, k);
        true
      else
        false
    case Int(i) =>
      // a decimal starts with a sign or a digit, which no key of the table does
      assert forall k :: k in table ==> NonNumeric(k) && Decimal(i)[0] != k[0];
      false
    case Null =>
      // null reads as "", and no key of the table is empty
      assert forall k :: k in table ==> NonNumeric(k);
      false
    case _ => false
  }

  /** ASCII lower-casing of one character, as `strtolower` does */
  function LowerChar(c: char): char {
    if 'A' <= c <= 'Z' then (c as int + 32) as char else c
  }

  /** `strtolower($s)` */
  function ToLower(s: string): (r: string)
    ensures |r| == |s|
    ensures forall i :: 0 <= i < |s| ==> r[i] == LowerChar(s[i])
  {
    if s == [] then [] else [LowerChar(s[0])] + ToLower(s[1..])
  }

  /** A string with no lower-case ASCII letter is the lower-casing of itself alone */
  lemma ToLowerWithoutLetters(s: string, t: string)
    requires ToLower(s) == t
    requires forall i :: 0 <= i < |t| ==> !('a' <= t[i] <= 'z')
    ensures s == t
  {
  }

  /** `min($xs)` */
  function Min(xs: seq<int>): (m: int)
    requires xs != []
    ensures m in xs
    ensures forall x :: x in xs ==> m <= x
  {
    if |xs| == 1 then xs[0]
    else
      var rest := Min(xs[1..]);
      assert forall x :: x in xs ==> x == xs[0] || x in xs[1..];
      if xs[0] <= rest then xs[0] else rest
  }

  /** `max($xs)` */
  function Max(xs: seq<int>): (m: int)
    requires xs != []
    ensures m in xs
    ensures forall x :: x in xs ==> x <= m
  {
    if |xs| == 1 then xs[0]
    else
      var rest := Max(xs[1..]);
      assert forall x :: x in xs ==> x == xs[0] || x in xs[1..];
      if xs[0] >= rest then xs[0] else rest
  }
}
