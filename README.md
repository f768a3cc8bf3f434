# Allow-list query builder and response envelope

This is a Dafny model of the policy core of a small blogging REST API, which is written in PHP on Laravel. The API serves users, posts, categories and polymorphic comments. The model covers three parts:

- **Allow-list registry** (`registry.dfy`, module `Registry`). The configuration table maps each entity name (`users`, `comments`, `categories`, `posts`) to three field lists: the fields a listing may filter by, sort by and group by. It is a constant map, `Registry.Table`.
- **Query builder** (`query_builder.dfy`, module `QueryBuilder`). The query under construction is a `Query` object holding the clauses appended so far: `Where(field, value)`, `OrderBy(field, direction)` and `GroupBy(fields)`. The request is a map from parameter name to a string, a list of strings, or null. The service class `QueryBuilderService` has four methods:
  - `ApplyFilters` loops over the allow-list.
  - `ApplySorting` and `ApplyGrouping` may append one clause each.
  - `ApplyPagination` returns the query together with the page size it chose.

  Each changing method ensures that the new clause list is the old list followed by what a pure function prescribes (`FilterClauses`, `SortClauses`, `GroupClauses`), so clauses already on the query are never touched. Each method also returns the same query object. Lemmas about these functions state the allow-list policy.
- **Response envelope** (`api_response.dfy`, module `ApiResponse`). `SendResponse` and `SendError` are pure functions from (result, message, code) to a response. Each response is either a resource collection with `status`, `success` and `message` attached, or a JSON envelope together with a transport status.

`sequences.dfy` (module `Sequences`) defines `Keep(xs, s)`, which keeps the entries of `xs` that lie in `s`, in order. Both the filter loop and PHP's `array_intersect` compute this. The module also proves `Keep`'s characterisation: it is the only subsequence of `xs` that keeps every occurrence of each value in `s` and no other value. `options.dfy` holds `Option`, where `None` stands for PHP's `null`.

Being Dafny functions, `SendResponse` and `SendError` are deterministic by construction: equal arguments give equal envelopes.

Two behaviours of the code to note:

- The collection branch of `sendResponse` only attaches `status`, `success` and `message` to the collection. It does not wrap the collection in `data` and does not set a transport status (app/Services/ApiResponseService.php:12-17).
- A `sort_by` that is not on the sort allow-list appends no order clause. There is no fallback to `id` (app/Services/QueryBuilderService.php:35-37).

## Model

| member | source | states |
|---|---|---|
| `QueryBuilder.QueryBuilderService.constructor` | app/Services/QueryBuilderService.php:12-15 | the service's configuration is the allow-list table |
| `QueryBuilder.QueryBuilderService.ApplyFilters` | app/Services/QueryBuilderService.php:17-27 | the query's clauses become the old clauses followed by the filter clauses for the entity's filter allow-list; the same query object is returned |
| `QueryBuilder.QueryBuilderService.ApplySorting` | app/Services/QueryBuilderService.php:29-40 | the query's clauses become the old clauses followed by the sort clauses (none or one); the same query object is returned |
| `QueryBuilder.QueryBuilderService.ApplyPagination` | app/Services/QueryBuilderService.php:42-46 | the paginator gets the query's clauses unchanged; the page size is `per_page` passed on as given (no upper bound), or 10 when absent |
| `QueryBuilder.QueryBuilderService.ApplyGrouping` | app/Services/QueryBuilderService.php:48-61 | the query's clauses become the old clauses followed by the grouping clauses (none or one); the same query object is returned |
| `QueryBuilder.AllowedFilters` | app/Services/QueryBuilderService.php:63-76 | the entity's filter list, or `[]` for a name the configuration lacks (see `UnknownEntityIsNoOp`); every Where field is on it (`ListingRespectsAllowLists`) |
| `QueryBuilder.AllowedSorts` | app/Services/QueryBuilderService.php:63-76 | the entity's sort list, or `[]` for a name the configuration lacks (see `UnknownEntityIsNoOp`); every OrderBy field is on it (`ListingRespectsAllowLists`) |
| `QueryBuilder.AllowedGroupBy` | app/Services/QueryBuilderService.php:63-76 | the entity's group-by list, or `[]` for a name the configuration lacks (see `UnknownEntityIsNoOp`); every GroupBy field is on it (`ListingRespectsAllowLists`) |
| `QueryBuilder.FilterClausesChosen` | app/Services/QueryBuilderService.php:19-24 | every filter clause is `Where(f, request[f])` with `f` allowed and present; every allowed present field gets one; the fields follow allow-list order (a subsequence of it); each field occurs as often as in the allow-list if present, else never |
| `QueryBuilder.FilterExactlyOnce` | app/Services/QueryBuilderService.php:20-24 | with a duplicate-free allow-list, a field has exactly one Where if it is allowed and present, and none otherwise |
| `QueryBuilder.FilterIgnoresUnlisted` | app/Services/QueryBuilderService.php:20-22 | adding, changing or removing a request parameter the allow-list does not name leaves the filter clauses unchanged |
| `QueryBuilder.SortClausesChosen` | app/Services/QueryBuilderService.php:31-37 | at most one clause; there is one exactly when `sort_by` (default `id`) is a string on the sort allow-list; its direction is `sort_order` verbatim (default `asc`) |
| `QueryBuilder.GroupClausesChosen` | app/Services/QueryBuilderService.php:50-58 | at most one clause; nothing unless `group_by` is a list; otherwise nothing exactly when no requested field is allowed; else one GroupBy whose key is an ordered subsequence of the request with all allowed occurrences (duplicates kept) and nothing else |
| `QueryBuilder.ListingRespectsAllowLists` | app/Services/QueryBuilderService.php:17-61 | every field that filter, sort and group pass into the query is on the entity's matching allow-list |
| `QueryBuilder.UnknownEntityIsNoOp` | app/Services/QueryBuilderService.php:63-76 | an entity name missing from the configuration has empty allow-lists, and filtering, sorting and grouping then append nothing |
| `QueryBuilder.DefaultSortFires` | app/Services/QueryBuilderService.php:31-36 | for every configured entity, a request without `sort_by` gets `OrderBy("id", sort_order)`, and `OrderBy("id", "asc")` without `sort_order` either |
| `QueryBuilder.CategoryListingIgnoresRequest` | app/Http/Controllers/Api/CategoryController.php:79-82 | with the entity name the category listing passes (`category`), filtering, sorting and grouping append nothing, whatever the request |
| `QueryBuilder.CategoryListingUsesAllowList` | config/queryBuilder.php:14-18 | under the configured key `categories`, a `name` filter is applied and the default `id` ordering fires |
| `QueryBuilder.PostsNeverUseContent` | config/queryBuilder.php:19-23 | no post listing filters, sorts or groups by `content`; `sort_by=content` on posts yields no sort clause |
| `QueryBuilder.UnlistedStatusFilterDropped` | app/Services/QueryBuilderService.php:19-24 | a posts request carrying only `status=draft` yields no Where clause |
| `QueryBuilder.GroupingKeepsRequestOrder` | app/Services/QueryBuilderService.php:54-57 | `group_by=[x, id, y]` against allowed `[id, y]` groups by `[id, y]` |
| `Sequences.KeepUnique` | app/Services/QueryBuilderService.php:54 | the intersection kept in request order is the only subsequence of the request holding every allowed occurrence and nothing else |
| `Registry.EntityNames` | config/queryBuilder.php:3-24 | the table has exactly the keys users, comments, categories, posts, and no `category` |
| `Registry.IdEverywhere` | config/queryBuilder.php:5-22 | `id` is filterable, sortable and groupable for every configured entity |
| `Registry.ListsHaveNoDuplicates` | config/queryBuilder.php:5-22 | no allow-list of the table names a field twice |
| `Registry.PostsExcludeContent` | config/queryBuilder.php:20-22 | `content` is in none of the three post lists |
| `Registry.CommentOwnerNotSortable` | config/queryBuilder.php:10-12 | `commentable_id` and `commentable_type` are filterable and groupable but not sortable for comments |
| `Registry.UniformLists` | config/queryBuilder.php:4-23 | an entity's three lists are identical exactly when it is not `comments` |
| `ApiResponse.SendResponse` | app/Services/ApiResponseService.php:10-26 | header `{status: code, success: true, message}` in both branches; a collection keeps its items and gets no transport status; any other result (null included) becomes `data`, with transport status `code` |
| `ApiResponse.SendError` | app/Services/ApiResponseService.php:28-36 | header `{status: code, success: false, message}`, `data` null, transport status `code` |
| `ApiResponse.SendResponseDefault` | app/Services/ApiResponseService.php:10 | with the code omitted, the status is 200 |
| `ApiResponse.SendErrorDefault` | app/Services/ApiResponseService.php:28 | with the code omitted, the status is 404, in the body and in transport |
| `ApiResponse.SuccessSeparatesOutcomes` | app/Services/ApiResponseService.php:14-32 | the body's status is the code argument in every branch; `success` is true for sendResponse and false for sendError, so no success answer equals an error answer |

## Findings

| source | as written | input that shows it | evidently intended | confidence | as-written member | corrected member |
|---|---|---|---|---|---|---|
| app/Http/Controllers/Api/CategoryController.php:79 | the category listing looks up entity `category`, but config/queryBuilder.php:14 keys the category allow-lists as `categories` | any request, e.g. `name=news` or `sort_by=name`, on the category listing | the `categories` allow-lists apply, so filtering, sorting (default `id`) and grouping take effect | high, not executed | `QueryBuilder.CategoryListingIgnoresRequest` | `QueryBuilder.CategoryListingUsesAllowList` |

## Left out

- Executing the query is left out. That covers SQL, the ordering of rows, page slicing, total counts and the page number. The query stays an abstract list of clauses, so properties about the rows a query returns are not stated.
- The paginator's own handling of `per_page` is left out. The model records the value handed to it, and does not cast it to an integer.
- Laravel's own checks inside `where`, `orderBy` and `groupBy` are left out. One example is how `orderBy` rejects a direction other than asc/desc.
- PHP's loose comparison in `in_array` and `array_intersect` is modelled as plain string equality. The allow-list entries are non-numeric identifiers.
- The array keys that `array_intersect` preserves are dropped. Only the order of the surviving entries matters to `groupBy`.
- `SendResponse`/`SendError`: the framework's rejection of a transport status outside 100–599 is not modelled; `code` is any int.
- `Param`: request values that are JSON scalars other than strings (numbers, booleans, such as `{"per_page": 50}` or `{"sort_by": true}`) have no form of their own; query-string values are always strings.
- List parameters hold strings only. Nested arrays and associative `group_by` arrays are not modelled.
- How the framework builds the request bag is left out. That covers merging the query string and the body, and turning empty strings into null. A present key with no value is the `Null` parameter.
- `ResourceCollection::additional` is a framework method. The model takes it to set the collection's additional data to the three fields.
- The model does not cover how the framework later turns a collection into an HTTP response, including the transport status it picks.
- The controllers are left out, and so are the post-listing cache, request validation classes, JSON resources, routes, rate limiting, factories and seeders. The only trace of the controllers is `ListingClauses`, the filter → sort → group composition they all use.

