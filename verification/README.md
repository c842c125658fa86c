# LightBnB data-access queries in Dafny

This project models the query builder of LightBnB's data-access layer
(`LightBnB_WebApp/server/database.js`). The central operation is
`getAllProperties(options, limit)`. It starts from a fixed
`SELECT … FROM properties JOIN property_reviews …` text and checks four
optional search criteria in order: city, owner, price range and minimum
rating. For each criterion that applies it appends ` WHERE ` (before the first
predicate) or ` AND ` (before later ones), pushes the criterion's value onto the
parameter list and writes `$n`, where `n` is the new length of that list. It
ends with the `GROUP BY` / `ORDER BY` clauses and `LIMIT $n` for the limit,
which is the last value pushed. The model also covers the four queries whose
text is fixed: `getUserWithEmail`, `getUserWithId`, `addUser` and
`getAllReservations`. The last of these has a limit that defaults to 10.

The model is organised as follows:

- `Js` (`js.dfy`) covers the JavaScript values that reach the builder:
  `undefined`, `null`, booleans, integers and strings. It defines truthiness,
  which guards every `if (options.x)`, and the text a template literal inserts
  for a value.
- `Sql` (`sql.dfy`) defines a query as a sequence of tokens plus its parameter
  list.
  - Text tokens hold literal text.
  - The connectives `WHERE` / `AND` are separate tokens, because the builder
    chooses them at run time.
  - A placeholder token holds its number `n` and a slot. The slot names the
    comparison, and with it the text written in the same append just before
    `$n`.
  - `Render` produces the exact string that is sent to the database.
  - `Placeholders`, `Slots` and `Connectives` are views of the token list.
    They let properties be stated without parsing SQL.
  - `Numbered(q)` means that the placeholders are `$1 … $k` in text order,
    where `k` is the number of parameters.
- `PropertySearch` (`property_search.dfy`) has two parts:
  - the builder, written step by step as the source runs: `Connect`, `Push`,
    one `Criterion` block per `if`, then `Finish`;
  - the declarative description it is proved against: `Filters(o)`, the
    ordered list of bound comparisons, `Chain(k)`, the connectives of `k`
    predicates, and `WhereClause(bs, 0)`, the tokens between the base SELECT
    and GROUP BY: a WHERE or AND before each predicate's first comparison, and
    one placeholder per comparison.
- `PropertySearchProperties` and `PropertySearchShape`
  (`property_search_properties.dfy`) state the properties of
  `BuildPropertyQuery` for every options bag and limit.
- `FixedQueries` (`fixed_queries.dfy`) models the four fixed-text queries.
- `RatingFilter` (`rating_filter.dfy`) covers the defect listed under
  Findings. It shows where the source puts the rating comparison. It also
  defines `BuildPropertyQueryHaving`, which moves that comparison into a
  HAVING clause after GROUP BY.

`Number(x)` is applied to the owner id (line 140) and to the minimum rating
(line 164). It is kept symbolic as the parameter `NumberOf(x)`. The two price
bounds are bound exactly as given, with no conversion (lines 151 and 153). The
city is bound as the string `"%" + text(city) + "%"`.

## Model

| member | source | states |
|---|---|---|
| PropertySearch.BuildPropertyQuery | LightBnB_WebApp/server/database.js:111-173 | The contract is the predicate `Searched`. The placeholders are exactly `$1 … $k` in text order, with `k` the number of parameters. The parameters are the values of the applied criteria in source order, followed by the limit. Each placeholder's comparison lines up with its parameter. The connectives are `WHERE` followed by `AND`s, one per applied criterion. The whole token list is the base SELECT, then `WhereClause` of the applied comparisons, then GROUP BY/ORDER BY, `LIMIT $k` and `;`. |
| PropertySearchProperties.TextDependsOnCriteriaOnly | LightBnB_WebApp/server/database.js:122-173 | Two searches send the same text if and only if the same criteria apply (the city, the owner, both price bounds, the rating). The option values and the limit never change the text. |
| PropertySearchProperties.SameCriteriaSameSlots | LightBnB_WebApp/server/database.js:122-166 | Two options bags bind the same comparisons in the same order if and only if they apply the same criteria. |
| PropertySearchProperties.WhereClauseSlots | LightBnB_WebApp/server/database.js:124-165 | Two lists of comparisons with the same slots give the same WHERE clause, whatever values they bind. |
| PropertySearchShape.OnlyConnectivesAndPlaceholders | LightBnB_WebApp/server/database.js:122-166 | Every token between the base SELECT and the GROUP BY text is a WHERE/AND or a placeholder. No option value is written into the text. |
| PropertySearch.CriterionWritten | LightBnB_WebApp/server/database.js:122-166 | Running one criterion block on a query that holds the WHERE clause of `bs` leaves the WHERE clause of `bs` followed by the block, with the block's values appended to the parameters. |
| PropertySearchProperties.NoCriteria | LightBnB_WebApp/server/database.js:113-119 | When no criterion applies (including when only one price bound is given), the query is the base text, the GROUP BY/ORDER BY text, `LIMIT $1` and the end, and the only parameter is the limit. |
| PropertySearchProperties.NoCriteriaText | LightBnB_WebApp/server/database.js:168-173 | When no criterion applies, the string sent is exactly the base text, the GROUP BY/ORDER BY text, `LIMIT $1` and the end: no WHERE or AND is written. |
| PropertySearchProperties.WhereAtMostOnce | LightBnB_WebApp/server/database.js:124-127 | There is one connective per applied criterion. The first is ` WHERE ` and every later one is ` AND `. `WHERE` occurs once if some criterion applies and never otherwise. `AND` occurs once fewer than the number of applied criteria. |
| PropertySearchShape.ConnectivesPrecedePlaceholders | LightBnB_WebApp/server/database.js:124-130 | Every WHERE/AND in the text is directly followed by a placeholder, so no connective is left without its predicate. |
| PropertySearchShape.PredicatesFollowConnectives | LightBnB_WebApp/server/database.js:157-165 | The first comparison of each criterion (city, owner, lower price, rating) comes directly after a connective. For the rating this means its aggregate comparison sits in the WHERE chain. |
| PropertySearchProperties.PlaceholderBindsItsValue | LightBnB_WebApp/server/database.js:129-130 | Every placeholder `$n` in the text is the n-th placeholder. Parameter `n` is the value of the n-th bound comparison (the limit counts as the last one), and the placeholder's comparison is that comparison. |
| PropertySearchProperties.ParamsInSourceOrder | LightBnB_WebApp/server/database.js:122-168 | The parameters are, in this order: `%city%` if the city is truthy, `Number(owner_id)` if the owner is truthy, the minimum then the maximum price if both are truthy, `Number(minimum_rating)` if the rating is truthy, and then the limit. |
| PropertySearchProperties.ParamCount | LightBnB_WebApp/server/database.js:122-168 | The number of parameters is [city] + [owner] + 2·[min ∧ max] + [rating] + 1. |
| PropertySearchProperties.SlotsInSourceOrder | LightBnB_WebApp/server/database.js:129-172 | The comparisons appear in the text in the same order as their values: city LIKE, owner_id=, cost >, cost <, avg(rating) >, LIMIT. Each appears only when its criterion applies. |
| PropertySearchProperties.LimitLast | LightBnB_WebApp/server/database.js:168-172 | The limit is the last parameter. The last placeholder of the text is `$k`, with `k` the number of parameters, and it is the LIMIT placeholder, the token just before the closing text. |
| PropertySearchProperties.PriceRange | LightBnB_WebApp/server/database.js:144-155 | The two price comparisons appear if and only if both bounds are truthy. They are then bound to consecutive parameters: the minimum at `$(k+1)` and the maximum at `$(k+2)`, where `k` is the number of city and owner values before them. |
| PropertySearchProperties.CityFirst | LightBnB_WebApp/server/database.js:122-131 | A truthy city is the first parameter, bound by `$1` as `%city%`. A falsy city adds no city comparison. |
| PropertySearchProperties.CityAndRatingQuery | LightBnB_WebApp/server/database.js:111-173 | With only a city and a minimum rating, the full token list is base, WHERE, city `$1`, AND, rating `$2`, GROUP/ORDER, `LIMIT $3`, end. The parameters are `[%city%, Number(rating), limit]`. |
| Sql.PlaceholderRefersToPosition | LightBnB_WebApp/server/database.js:129-130 | In a numbered query, the placeholder at any token position is `$n`, where `n - 1` placeholders come before it. `n` lies within the parameter list, and the n-th slot is its own. |
| Js.NatToStringRoundTrip | LightBnB_WebApp/server/database.js:130 | The decimal numeral that a template literal writes for a placeholder index reads back as the same index. |
| Sql.PlaceholderTextsDistinct | LightBnB_WebApp/server/database.js:130-131 | Two placeholders for the same comparison are written alike if and only if they carry the same index. |
| FixedQueries.UserWithEmail | LightBnB_WebApp/server/database.js:19-29 | The query binds only the email, as `$1`, and has no connectives. |
| FixedQueries.UserWithId | LightBnB_WebApp/server/database.js:37-48 | The query binds only the id, as `$1`. |
| FixedQueries.AddUser | LightBnB_WebApp/server/database.js:57-72 | The query binds name, email and password as `$1`, `$2` and `$3`, in that order. |
| FixedQueries.Reservations | LightBnB_WebApp/server/database.js:82-92 | The query binds the guest id as `$1` and the limit as `$2`. The limit is 10 when none is passed. |
| FixedQueries.ReservationsDefaultLimit | LightBnB_WebApp/server/database.js:82 | With no limit argument the limit parameter is 10. Any passed limit, including a falsy one such as 0 or null, is bound unchanged. |
| FixedQueries.AddUserPlaceholdersBind | LightBnB_WebApp/server/database.js:62-66 | Each placeholder of the insert refers to the field its position names: name, email or password. |
| FixedQueries.ReservationsPlaceholdersBind | LightBnB_WebApp/server/database.js:84-92 | Each placeholder of the reservations query refers to the guest id or to the defaulted limit, as its slot names. |
| FixedQueries.UserWithEmailText | LightBnB_WebApp/server/database.js:20-24 | The string sent is the SELECT text, ` email =$1` and the end. |
| FixedQueries.UserWithIdText | LightBnB_WebApp/server/database.js:38-42 | The string sent is the SELECT text, ` id =$1` and the end. |
| FixedQueries.AddUserText | LightBnB_WebApp/server/database.js:62-65 | The string sent is the INSERT text followed by `($1, $2, $3)` and `RETURNING *;`. |
| FixedQueries.ReservationsText | LightBnB_WebApp/server/database.js:84-91 | The string sent is the SELECT/JOIN text, `guest_id=$1`, and then `LIMIT $2;`. |
| RatingFilter.RatingFilteredBeforeGrouping | LightBnB_WebApp/server/database.js:157-172 | As written, a truthy minimum rating puts `avg(property_reviews.rating) > $m` directly after a WHERE/AND connective and before the GROUP BY text. `$m` binds the last value before the limit. |
| RatingFilter.BuildPropertyQueryHaving | LightBnB_WebApp/server/database.js:111-173 | Corrected builder. The contract is the predicate `HavingSearched`. The placeholders are `$1 … $k` in order. It binds the same values, with the same comparisons, as the source. The WHERE chain has one connective per applied row criterion (city, owner, price) and none for the rating. The whole token list is the base SELECT and `WhereClause` of the row comparisons, then either GROUP BY, HAVING, the rating `$(k-1)`, ORDER BY, `LIMIT $k` and `;` (with a minimum rating) or the source's own tail (without). |
| RatingFilter.RatingInHaving | LightBnB_WebApp/server/database.js:157-172 | In the corrected query, the text starts with the base SELECT. GROUP BY comes after every connective and every row comparison. The rating comparison directly follows HAVING, which directly follows GROUP BY. ORDER BY, `LIMIT $k` and the end follow, as in the source. |
| RatingFilter.SameBindings | LightBnB_WebApp/server/database.js:122-168 | The corrected and the source query have the same parameter list, and the same comparison for each placeholder. |
| RatingFilter.SameQueryWithoutRating | LightBnB_WebApp/server/database.js:157-173 | Without a minimum rating, the corrected builder produces exactly the source's query. |

## Left out

- Connection pool, `pool.query`, promises, `.then`/`.catch` and `console.log` are not modelled. Each operation returns the text and the parameter list that it would hand to `pool.query` (when its arguments are objects; see below). The rows that come back are not modelled.
- The JSON fixtures that are `require`d at the top of the file, and `addProperty`, are not part of this model.
- `Number(x)` is kept symbolic (`NumberOf(x)`), because the JavaScript number conversion of arbitrary strings is not modelled.
- Floating-point numbers, NaN, objects and arrays as option values are not modelled. A number is an integer, and its text is its decimal numeral, so the exponent notation JavaScript uses from 1e21 is not modelled.
- What the database does with the text (matching, grouping, ordering) is not modelled. The model states where each comparison and value sits, not what rows they select.
- A placeholder stands for the literal text written just before `$n` in the same append. This includes the ` AND ` inside the price predicate (line 154), which is fixed text and not a connective chosen at run time.
- The rendered string is proved for the fixed queries and for the no-criteria search. For the other searches the whole token list is stated (`WhereClause` between the base and the tail), and `Render` joins the texts of the tokens; the joined string itself is not spelled out.
- The arguments whose fields are read are assumed to be objects, and the thrown TypeError is not modelled. A `null` or `undefined` options bag makes `options.city` (line 122) throw synchronously, before any query is built or sent. Likewise a `null` or `undefined` `user` makes `user.name` (line 58) throw in `addUser` before `pool.query` is reached, and the `.catch` at line 70 does not handle it. The `NewUser` record always has the three fields.
- A `Number()`-converted value that JavaScript turns into NaN (for example a non-numeric rating) is still truthy as an option and is bound as `NumberOf(x)`. What the store does with it is not modelled.

## Findings

| source | as written | input that shows it | evidently intended | confidence | as-written member | corrected member |
|---|---|---|---|---|---|---|
| LightBnB_WebApp/server/database.js:157-172 | The minimum-rating comparison `avg(property_reviews.rating) > $n` is appended to the WHERE chain, before `GROUP BY properties.id`. SQL does not allow an aggregate in WHERE, so the store rejects every search that has a minimum rating. | options `{minimum_rating: 4}` with limit 10. The text is `… WHERE  avg(property_reviews.rating) > $1 GROUP BY properties.id ORDER BY cost_per_night LIMIT $2;` with parameters `[4, 10]`. | The average is compared in a HAVING clause after GROUP BY, with the same parameters in the same order. | high (not executed) | RatingFilter.RatingFilteredBeforeGrouping | RatingFilter.BuildPropertyQueryHaving |

`RatingFilter.SameBindings` and `RatingFilter.SameQueryWithoutRating` connect
the corrected builder to the as-written one. The parameter list, the
comparison bound to each placeholder, the counts and the order are identical
in both. So the properties proved above for `BuildPropertyQuery` about
parameters and slots (`ParamsInSourceOrder`, `ParamCount`, `PriceRange`,
`CityFirst`, `PlaceholderBindsItsValue`) describe the corrected query too.
Only the position of the rating comparison differs.
