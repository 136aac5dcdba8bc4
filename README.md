# Laravel Scout search builder, modelled in Dafny

This project models the search query builder of Laravel Scout (`Laravel\Scout\Builder`) as vendored in this storefront application. A builder is created for one searchable model and one query string. It is configured by chained calls that each change one of its fields in place:

- equality filters (`wheres`), inclusion lists (`whereIns`) and exclusion lists (`whereNotIns`), each a map keyed by field name;
- the reserved `__soft_deleted` filter key;
- the sort order (`orders`), a list of column/direction pairs;
- a limit, a custom index, an options map, a query callback and an after-raw-search callback.

The builder then runs the search through its model's search engine and builds pages of results. The model covers every configuration call, the generic paging fallbacks with their page and page-size defaults and "has more pages" test, the count reconciliation of `getTotalCount`, and the after-raw-search callback.

Files:

- `php.dfy` (module `Php`) holds the PHP semantics the builder depends on. These are nullable slots, dynamically typed values and their truthiness (used by `?:` and `if ($callback)`), and the ASCII-only `strtolower`.
- `scout_rules.dfy` (module `ScoutRules`) holds the pure rules: filter assignment and its last-write-wins property, the soft-delete key operations, sort direction normalisation, the `?:` defaulting, the has-more-pages test and the re-query limit. It also declares the collaborators as oracles. `Engine` is the search engine and `SearchableModel` is the model with its database count.
- `scout_builder.dfy` (module `ScoutBuilder`) holds `class Builder`, whose fields are changed in place. Each configuration method's `modifies` clause names only the field it assigns. So "every other field is unchanged" is part of each contract.

The search engine, the model's database and the request context are outside this code, so they become parameters:

- each engine call is a function field of `Engine`, answering for the builder at hand;
- the database count over a list of identifiers, under the builder's query callback, is `SearchableModel.countByIds`;
- the current page that the paginator would resolve from the request is the `currentPage` argument of the paging methods.

Two details of the paginators:

- Only the simple paginators compute "has more pages" as `perPage * page < total`. The length-aware paginators pass a total to the paginator and compute nothing themselves.
- `paginate` and `simplePaginate` take the engine's total from the raw page as the engine returned it. `paginateRaw` and `simplePaginateRaw` take it from the results after the after-raw-search callback. The model keeps this difference.

## Model

| member | source | states |
|---|---|---|
| `ScoutBuilder.Builder.constructor` | vendor/laravel/scout/src/Builder.php:115-124 | model, query and callback are stored. With `softDelete` the filters are exactly `{__soft_deleted: 0}`, otherwise empty. The in/not-in maps, orders and options start empty. Limit, index and both later callbacks start null. |
| `ScoutBuilder.Builder.Clone` | vendor/laravel/scout/src/Builder.php:546 | `clone $this` yields a builder whose every field equals the original's |
| `ScoutBuilder.Builder.Within` | vendor/laravel/scout/src/Builder.php:132-137 | sets the custom index and changes no other field |
| `ScoutBuilder.Builder.Where` | vendor/laravel/scout/src/Builder.php:146-151 | `wheres` becomes the old map with `field` set to `value`, overwriting any earlier value. No other field changes. |
| `ScoutBuilder.Builder.WhereIn` | vendor/laravel/scout/src/Builder.php:160-169 | only `whereIns` changes. It is set at `field` to the values, with an `Arrayable` converted to its array first. |
| `ScoutBuilder.Builder.WhereNotIn` | vendor/laravel/scout/src/Builder.php:178-187 | only `whereNotIns` changes. It is set at `field` to the values, with an `Arrayable` converted to its array first. |
| `ScoutBuilder.Builder.WithTrashed` | vendor/laravel/scout/src/Builder.php:194-199 | removes exactly the `__soft_deleted` key from `wheres`. Other keys and other fields are unchanged. |
| `ScoutBuilder.Builder.OnlyTrashed` | vendor/laravel/scout/src/Builder.php:206-211 | after clearing then setting the key, `wheres` equals the old map with `__soft_deleted` set to 1, whatever it held before |
| `ScoutBuilder.Builder.Take` | vendor/laravel/scout/src/Builder.php:219-224 | sets the limit and changes no other field |
| `ScoutBuilder.Builder.OrderBy` | vendor/laravel/scout/src/Builder.php:233-241 | appends exactly one entry to `orders` and keeps the prefix. The new entry's direction is ascending iff the argument is a case-insensitive "asc". The direction defaults to "asc". |
| `ScoutBuilder.Builder.OrderByDesc` | vendor/laravel/scout/src/Builder.php:249-252 | appends one descending entry for the column |
| `ScoutBuilder.Builder.Latest` | vendor/laravel/scout/src/Builder.php:260-267 | appends one descending entry. Its column is the one given, else the model's created-at column, else "created_at". |
| `ScoutBuilder.Builder.Oldest` | vendor/laravel/scout/src/Builder.php:275-282 | appends one ascending entry. Its column is chosen as for `Latest`. |
| `ScoutBuilder.Builder.Options` | vendor/laravel/scout/src/Builder.php:290-295 | replaces the options map wholesale and changes no other field |
| `ScoutBuilder.Builder.Query` | vendor/laravel/scout/src/Builder.php:303-308 | sets the query callback and changes no other field |
| `ScoutBuilder.Builder.WithRawResults` | vendor/laravel/scout/src/Builder.php:326-331 | sets the after-raw-search callback and changes no other field |
| `ScoutBuilder.Builder.ApplyAfterRawSearchCallback` | vendor/laravel/scout/src/Builder.php:564-571 | Without a callback it is the identity. With one, the result is the callback's value when that value is truthy, else the original results. Truthy results stay truthy. |
| `ScoutBuilder.Builder.GetTotalCount` | vendor/laravel/scout/src/Builder.php:533-556 | Without a query callback it returns the engine total. With one it returns the database count, under that callback, over the hits' identifiers, re-fetched through a clone limited to `RecountLimit(limit, total)` when there are fewer identifiers than the total. The builder itself is not modified. |
| `ScoutBuilder.Builder.SimplePaginate` | vendor/laravel/scout/src/Builder.php:381-412 | Page and page size default via `?:`. The items are the mapped records of the callback-processed raw page. There are more pages iff `perPage * page` is below the engine's total for the raw page. |
| `ScoutBuilder.Builder.SimplePaginateRaw` | vendor/laravel/scout/src/Builder.php:422-449 | The same defaults. The items are the callback-processed raw page. There are more pages iff `perPage * page` is below the engine's total for those processed results. |
| `ScoutBuilder.Builder.Paginate` | vendor/laravel/scout/src/Builder.php:459-489 | The same defaults and items as `SimplePaginate`. The total is the reconciled count of the raw page. |
| `ScoutBuilder.Builder.PaginateRaw` | vendor/laravel/scout/src/Builder.php:499-525 | The same defaults and items as `SimplePaginateRaw`. The total is the reconciled count of the processed results. |
| `ScoutRules.HasMorePages` | vendor/laravel/scout/src/Builder.php:409 | the has-more test `perPage * page < total` used by the paginators' contracts; it packages `HasMorePagesIffLastItemBeyond`, so for a positive page size and a non-negative page it is true iff the last item lies on a later page than the current one |
| `Php.Truthy` | vendor/laravel/scout/src/Builder.php:566-567 | a value is falsy iff it is one of exactly six values: null, false, 0, "", "0" and the empty array |
| `ScoutRules.SetFilter` | vendor/laravel/scout/src/Builder.php:148 | one filter assignment: the field now holds the new value, the key set gains only that field, and every other field keeps its value |
| `ScoutRules.LastWriteWins` | vendor/laravel/scout/src/Builder.php:146-187 | After any chain of filter assignments a field holds the value of the last assignment to it. A field not assigned in the chain keeps its original presence and value. |
| `ScoutRules.WithoutSoftDeleted` | vendor/laravel/scout/src/Builder.php:196 | `unset` removes exactly the reserved key, keeps every other entry, and is a no-op when the key is absent |
| `ScoutRules.OnlySoftDeleted` | vendor/laravel/scout/src/Builder.php:206-211 | removing then setting the reserved key equals setting it to 1 over any prior value |
| `ScoutRules.SoftDeleteLastCallDecides` | vendor/laravel/scout/src/Builder.php:194-211 | the last of `withTrashed`/`onlyTrashed` decides the reserved key, and each operation is idempotent |
| `ScoutRules.NormaliseDirection` | vendor/laravel/scout/src/Builder.php:237 | the direction is ascending iff the string is "asc" in some mix of cases, and descending for every other string |
| `Php.ToLowerAscii` | vendor/laravel/scout/src/Builder.php:237 | `strtolower` keeps the length and lowers each character on its own |
| `ScoutRules.OrDefault` | vendor/laravel/scout/src/Builder.php:391-393 | `$arg ?: $fallback` is the argument when it is set and non-zero, else the fallback. It is never zero unless the fallback is. |
| `ScoutRules.HasMorePagesIffLastItemBeyond` | vendor/laravel/scout/src/Builder.php:409 | for a positive page size and a non-negative page, `perPage * page < total` holds iff the last of the `total` items lies on a later page than the current one |
| `ScoutRules.RecountLimit` | vendor/laravel/scout/src/Builder.php:548 | The re-query limit is the total when no limit is set, else `min(limit, total)`. It never exceeds the total or a set limit. |

## Left out

- Engine calls that only delegate (`raw`, `keys`, `get`, `first`, `cursor`, `engine()`) are left out. They hand the builder to the search engine, which is not part of this model.
- The engine-capability branches of the four paginators are left out. When the engine paginates models itself, directly or through the database, the builder delegates to it and computes nothing.
- Paginator construction is left out: the container, `resolveCurrentPath`, `resolveCurrentPage`, `appends('query', ...)` and `newCollection`. The model keeps only the numbers (page, page size, total, has-more) and the items. The resolved current page is an argument. The page name is not modelled: it feeds that resolution, the paginator's `pageName` link option and the engine's database paginators, all of which are left out.
- The engine oracles and the database count answer for the builder at hand. The database count is given the query callback. The engine's dependence on the builder's other fields is not modelled. The `keys` oracle is told only the clone's limit, the one field in which the clone differs.
- The `Conditionable`, `Macroable` and `Tappable` traits are left out. They are dynamic PHP machinery. `tap` is modelled where the builder uses it: `onlyTrashed`, and the clone in `getTotalCount`.
- `ScoutRules.OnlySoftDeleted` and `ScoutBuilder.Builder.OnlyTrashed`: `wheres`, `whereIns`, `whereNotIns` and `options` are unordered maps, so the insertion order of PHP arrays is not modelled. For example, `onlyTrashed` moves `__soft_deleted` to the end of `wheres` because it removes the key before setting it, and the model does not show that. Integer keys of `options` are not modelled either. The builder itself never iterates these arrays.
- `Php.Value` keeps a PHP array as the list of its values. Keys of associative arrays and floats are not modelled. Objects are opaque and always truthy.
- `Php.ToLowerAscii` follows the locale-independent `strtolower` of PHP 8.2 and later. Older PHP versions fold according to the current locale.
- `ScoutBuilder.Builder.Paginate` and `ScoutBuilder.Builder.SimplePaginate` do not model the wrapping of mapped records in the model's collection class.
- database/seeders/ShippingSeeder.php and database/seeders/ReviewSeeder.php are not part of this model. They write seed data to the database, and the review seeder also uses randomness and file checks.
- vendor/_laravel_ide/discover-cc3645c7d280d3d1fb7af39974350a20.php is not part of this model. It is application bootstrap, reflection and output.
- vendor/lunarphp/lunar/database/factories/StaffFactory.php is not part of this model. It generates fake data, hashes passwords and makes random tokens.
- database/migrations/2025_04_02_072751_add_parent_id_to_messages_table.php is not part of this model. It is a declarative schema change with no logic.
