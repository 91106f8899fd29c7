# Elasticquent query builder, modelled in Dafny

This project models `ElasticquentQueryBuilder`, the fluent builder of the
Elasticquent library. The builder lets a caller write a search request in
relational vocabulary (`where`, `whereIn`, `whereNull`, `whereBetween`,
`orderBy`, `limit`, ...). It compiles each call into an Elasticsearch
bool-query fragment and appends that fragment to one nested request
document, which the builder keeps in its single field `$query`.

Layout of the document, as the builder writes it:

- `body.query.filtered.filter.bool.<mode>`: the filter container. `merge` appends here; every `where*` call and `match` use it.
- `body.query.filtered.query.bool.<mode>`: the scored container. `mergeQuery` appends here; `matchQuery` and `fuzzyQuery` use it.
- `body.sort`, `body.aggs`, `body._source.include`, `body.explain`, `body.track_scores`.
- `from` and `size`, beside `body`, not inside it.

The model has five modules, one file each:

- `values.dfy`, module `PhpValues`: the PHP runtime the builder relies on. This covers loosely typed values, truthiness, loose `in_array`, `strtolower`, and `min`/`max`. It follows PHP 8 rules.
- `fragments.dfy`, module `Fragments`: the fragment sum type, the two operator tables and the pure translation rules. These are the `where`, `whereBetween`, `whereRaw` and `matchQuery` fragments, with their exceptions as an `Err` result.
- `document.dfy`, module `Documents`: the request document as a datatype, and appending to a bucket with "nothing else changes" contracts.
- `builder.dfy`, module `Builder`: class `QueryBuilder`. Its one field `query` mirrors `$query`. There is one `modifies this` method per public PHP method, plus `Merge` and `MergeQuery`. A call that can throw returns an `Outcome`. A rejected call leaves `query` unchanged, because PHP throws before any write.
- `scenarios.dfy`, module `Scenarios`: client call chains. They show what a caller can conclude from the contracts alone.

Modelling decisions:

- PHP's default arguments are Dafny default parameter values.
- `where($column, $value)` depends on `func_num_args() == 2`, so it is a separate method, `WhereValue`. `Where` is the form with three or more arguments. The one-argument call `where($column)` is `Where(column, Null, Null)`.
- `orWhere` always forwards five arguments. So `orWhere($c, $v)` takes the three-argument path with `$v` as the operator. `Fragments.OrWhereShortForm` states the consequences. One of them: `orWhere('age', '<')` throws, while `where('age', '<')` gives a term on `'<'`.
- The quirks of the source are kept as the code has them:
  - `<>` and `!=` compile to a plain `term`, with no negation.
  - `orWhereNotIn` is the same call as `orWhereIn`.
  - `orWhereNull` drops `$not`.
  - `whereBetween` bounds are exclusive except in mode `must_not`.
  - `orderBy` sorts descending for any direction that does not lower-case to `asc`.
- Three consequences of the code as written:
  - `orderBy('created_at', 'bogus')` sorts descending, because only a direction that lower-cases to `asc` sorts ascending (src/ElasticquentQueryBuilder.php:589).
  - `whereIn` does not reject an empty value list (src/ElasticquentQueryBuilder.php:377-391).
  - `buildMergeQuery` returns the flat document, because its consolidation code comes after an unconditional `return` (src/ElasticquentQueryBuilder.php:77).

## Model

| member | source | states |
|---|---|---|
| PhpValues.ToLower | src/ElasticquentQueryBuilder.php:589 | `strtolower` keeps the length and lower-cases each ASCII letter, position by position |
| PhpValues.ToLowerWithoutLetters | src/ElasticquentQueryBuilder.php:324-327 | a string lower-cases to a letter-free string only if it is that string itself, so the lowered lookup and the unlowered index of `where` agree |
| PhpValues.At | src/ElasticquentQueryBuilder.php:268-269 | `$value[0]` and `$value[1]` read the list element at that index; past the end of a list, or on an associative array, they read null |
| PhpValues.Truthy | src/ElasticquentQueryBuilder.php:200 | a value is falsy exactly when it is null, `false`, `0`, `""`, `"0"` or an empty array |
| PhpValues.LooseIn | src/ElasticquentQueryBuilder.php:739-741 | loose `in_array` over a table of non-numeric strings, as `invalidOperatorAndValue` uses it (and as `whereRaw` does at line 264), holds exactly when some key is loosely equal to the value by PHP 8's comparison rules (null as `""`, a string against a boolean as its truthiness, an integer as its decimal string, arrays never) |
| PhpValues.Min | src/ElasticquentQueryBuilder.php:506-511 | `min($values)` is an element of the values and no greater than any of them |
| PhpValues.Max | src/ElasticquentQueryBuilder.php:507-512 | `max($values)` is an element of the values and no smaller than any of them |
| Fragments.OperatorTablesAreSymbols | src/ElasticquentQueryBuilder.php:21-29 | the operator keys are non-numeric and letter-free, so loose `in_array` and `strtolower` act on them as plain string equality |
| Fragments.InvalidOperatorAndValue | src/ElasticquentQueryBuilder.php:737-742 | the operator/value combination is illegal exactly when the value is null and the operator is one of `<`, `>`, `<=`, `>=` |
| Fragments.LookupOperator | src/ElasticquentQueryBuilder.php:324-328 | the lower-cased strict lookup finds an entry exactly for a string operator of the table, and yields that operator's own entry |
| Fragments.WhereFragment | src/ElasticquentQueryBuilder.php:317-349 | the illegal-argument error occurs iff the value is null and the operator is relational. `=`, `<>` and `!=` give a term. A relational operator gives a one-bound range that carries the boost. A non-table operator becomes the value of a term. An array operator, or a boost on a term, is a type error |
| Fragments.OrWhereShortForm | src/ElasticquentQueryBuilder.php:363-366 | `orWhere($c, $v)` gives a term on `$v` unless `$v` is a table operator or an array. A relational `$v` throws, an equality `$v` gives a term on null, and an array `$v` is a type error |
| Fragments.BetweenFragment | src/ElasticquentQueryBuilder.php:501-533 | the call throws iff the value count is not 2. The bounds are the smaller and the larger value. They are `gte`/`lte` in mode `must_not` and `gt`/`lt` in every other mode, with the boost kept |
| Fragments.BetweenIgnoresOrder | src/ElasticquentQueryBuilder.php:506-512 | `whereBetween` with `[a, b]` and with `[b, a]` give the same fragment |
| Fragments.RawParamsOf | src/ElasticquentQueryBuilder.php:266-274 | the params are `value` = `$value[0]` and `boost` = `$value[1]`, plus exactly the keys of a third element when there are three; a third element that is not an array is a type error |
| Fragments.RawFragment | src/ElasticquentQueryBuilder.php:262-304 | the call throws iff the operator is not in the native allow-list. An array of two or more values gives `{value: $value[0], boost: $value[1]}`, plus the third element's keys when there are exactly three. Otherwise an array column gives `{query, fields}` and a single column gives `{column: value}` |
| Fragments.MatchQueryFragment | src/ElasticquentQueryBuilder.php:198-217 | the match carries `minimum_should_match` exactly when the boost is truthy, and then its value is the boost |
| Documents.Append | src/ElasticquentQueryBuilder.php:680-682 | appending to a bucket creates it when missing, adds the fragment at its end and leaves every other bucket as it was |
| Documents.AppendFilter | src/ElasticquentQueryBuilder.php:677-684 | `merge` adds exactly one fragment at the end of the filter bucket. Every other filter bucket, the scored container, sort, aggs, source, flags, `from` and `size` are unchanged |
| Documents.AppendScored | src/ElasticquentQueryBuilder.php:686-693 | `mergeQuery` adds exactly one fragment at the end of the scored bucket and never touches the filter container or anything else |
| Documents.AppendFilterKeepsOrder | src/ElasticquentQueryBuilder.php:682 | two successive merges into one bucket leave the fragments in call order after the earlier ones |
| Documents.AfterFilter | src/ElasticquentQueryBuilder.php:319-350 | an exception, thrown before `merge`, leaves the whole document as it was; an accepted fragment goes to the end of its filter bucket and nothing else changes |
| Documents.SortDirection | src/ElasticquentQueryBuilder.php:589 | `orderBy` sorts ascending iff the direction is one of the eight case spellings of `asc`; `DESC`, `desc` and `bogus` all sort descending |
| Builder.QueryBuilder.constructor | src/ElasticquentQueryBuilder.php:45-48 | a new builder holds the given body, empty by default, and no pagination |
| Builder.QueryBuilder.Build | src/ElasticquentQueryBuilder.php:55-68 | returns the stored document and changes nothing, so repeated builds are equal |
| Builder.QueryBuilder.BuildMergeQuery | src/ElasticquentQueryBuilder.php:75-77 | returns exactly what `build` returns |
| Builder.QueryBuilder.Merge | src/ElasticquentQueryBuilder.php:677-684 | the new document is the old one with the fragment appended to the filter bucket |
| Builder.QueryBuilder.MergeQuery | src/ElasticquentQueryBuilder.php:686-693 | the new document is the old one with the fragment appended to the scored bucket |
| Builder.QueryBuilder.FuzzyQuery | src/ElasticquentQueryBuilder.php:171-185 | appends `{match: {column: {query, fuzziness, operator}}}` to the scored bucket. The defaults are `AUTO`, `and` and `must` |
| Builder.QueryBuilder.MatchQuery | src/ElasticquentQueryBuilder.php:198-221 | appends the match fragment to the scored bucket. The threshold follows the truthiness of the boost, which defaults to `100%` |
| Builder.QueryBuilder.Match | src/ElasticquentQueryBuilder.php:234-249 | appends `{query: {match: ...}}` with the threshold to the filter bucket |
| Builder.QueryBuilder.WhereRaw | src/ElasticquentQueryBuilder.php:262-304 | appends the pass-through fragment on success. On a refused operator it throws and writes nothing |
| Builder.QueryBuilder.WhereValue | src/ElasticquentQueryBuilder.php:319-320 | the two-argument `where` appends a term on the value to `must` and never throws |
| Builder.QueryBuilder.Where | src/ElasticquentQueryBuilder.php:317-353 | appends the `where` fragment on success. A rejected call throws and leaves the document unchanged |
| Builder.QueryBuilder.OrWhere | src/ElasticquentQueryBuilder.php:363-366 | `where` with all five arguments forwarded and mode `should` by default |
| Builder.QueryBuilder.WhereIn | src/ElasticquentQueryBuilder.php:377-391 | appends `{terms: {column: values}}`, mode `must` by default |
| Builder.QueryBuilder.OrWhereIn | src/ElasticquentQueryBuilder.php:402-405 | the same terms fragment, mode `should` by default |
| Builder.QueryBuilder.WhereNotIn | src/ElasticquentQueryBuilder.php:415-418 | the same terms fragment, mode `must_not` by default |
| Builder.QueryBuilder.OrWhereNotIn | src/ElasticquentQueryBuilder.php:428-431 | the same terms fragment as `orWhereIn`, mode `should`, with no negation |
| Builder.QueryBuilder.WhereNull | src/ElasticquentQueryBuilder.php:441-453 | appends `missing`, or `exists` when the flag is set |
| Builder.QueryBuilder.OrWhereNull | src/ElasticquentQueryBuilder.php:463-466 | always appends `missing`, whatever its flag says |
| Builder.QueryBuilder.WhereNotNull | src/ElasticquentQueryBuilder.php:475-478 | appends `exists` |
| Builder.QueryBuilder.OrWhereNotNull | src/ElasticquentQueryBuilder.php:487-490 | appends `exists`, mode `should` by default |
| Builder.QueryBuilder.WhereBetween | src/ElasticquentQueryBuilder.php:501-536 | appends the range on success. A value count other than 2 throws and changes nothing |
| Builder.QueryBuilder.OrWhereBetween | src/ElasticquentQueryBuilder.php:546-549 | `whereBetween` in mode `should`, so with exclusive bounds |
| Builder.QueryBuilder.WhereNotBetween | src/ElasticquentQueryBuilder.php:559-562 | `whereBetween` in mode `must_not`, so with inclusive bounds |
| Builder.QueryBuilder.OrderByScript | src/ElasticquentQueryBuilder.php:570-577 | appends `{_script: script}` at the end of the sort list. Everything else is unchanged |
| Builder.QueryBuilder.OrderBy | src/ElasticquentQueryBuilder.php:586-593 | appends `{column: direction}` at the end of the sort list, with the direction normalised. Everything else is unchanged |
| Builder.QueryBuilder.Latest | src/ElasticquentQueryBuilder.php:601-604 | appends a descending sort, on `created_at` by default |
| Builder.QueryBuilder.Oldest | src/ElasticquentQueryBuilder.php:612-615 | appends an ascending sort, on `created_at` by default |
| Builder.QueryBuilder.Offset | src/ElasticquentQueryBuilder.php:623-627 | overwrites `from` and nothing else, so the last call wins |
| Builder.QueryBuilder.Skip | src/ElasticquentQueryBuilder.php:635-638 | the same as `offset` |
| Builder.QueryBuilder.Limit | src/ElasticquentQueryBuilder.php:646-650 | overwrites `size` and nothing else, so the last call wins |
| Builder.QueryBuilder.Take | src/ElasticquentQueryBuilder.php:658-661 | the same as `limit` |
| Builder.QueryBuilder.Select | src/ElasticquentQueryBuilder.php:669-675 | an empty column list changes nothing. Otherwise it overwrites `_source.include` |
| Builder.QueryBuilder.Aggregation | src/ElasticquentQueryBuilder.php:695-704 | overwrites `aggs[field]` with `{terms: {field, size}}`, size 0 by default. Other aggregations are kept |
| Builder.QueryBuilder.Explanation | src/ElasticquentQueryBuilder.php:712-716 | overwrites `explain`, true by default |
| Builder.QueryBuilder.TrackScores | src/ElasticquentQueryBuilder.php:724-728 | overwrites `track_scores`, true by default |

## Left out

- `toJson` and `__toString`: these only call `json_encode`. Serialization is not modelled, so the round trip of a compiled document through JSON is not modelled either.
- `buildMergeQuery`, lines 79-140: this code follows an unconditional `return` and can never run. The bucket consolidation it describes is not modelled.
- Fragments.WhereFragment: a term with a non-null boost is treated as a type error for every value. PHP 8 throws there only for scalar values. For an array value it merges `boost` into the array.
- Fragments.RawFragment: it requires `RawMergeable`.
  - In a three-element value, the third element must not be a list.
  - When the third element is an associative array, it must hold no `value` or `boost` key.
  - So the key-collision behaviour of `array_merge_recursive` is not modelled, and neither is merging a list into the params.
- Builder.QueryBuilder.WhereRaw: it has the same precondition as `RawFragment`, for the same reason.
- Loose PHP typing:
  - Columns, modes, sort directions and `whereRaw` operators are strings.
  - `whereBetween` values are integers. PHP's `min`/`max` over mixed types is not modelled.
  - `select` takes a list, so its variadic use through `func_get_args` is not modelled.
  - The `Arrayable` check in `whereIn` can never succeed on an `array` parameter, so it is not modelled.
- A `Dict` whose keys include a numeric string stands for no PHP value, because PHP stores such keys as integers. The type does not exclude it, and the model gives it no meaning: `At` reads it as null.
- PHP 7 behaviour: PHP 7 warns and returns null where PHP 8 throws a TypeError. The model follows PHP 8.
- Key order: JSON key order inside objects is not modelled. Buckets and aggregations are maps; the fragment lists, the sort list and the `_source.include` list keep order.
- The seed body:
  - An absent container or sort list is the same as an empty one.
  - A constructor seed must have the shape of the modelled document. Other keys a raw seed might carry, such as `query.match_all`, are not represented.
- Returning `$this` for chaining is not modelled. A chain is a sequence of calls on one object.
- `src/ElasticquentTrait.php` (the model lifecycle, index and mapping calls, and hydration) is not part of this model.
- `src/ElasticquentSupport.php` (framework version detection) is not part of this model.
