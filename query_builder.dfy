/** The allow-list query builder of app/Services/QueryBuilderService.php.

    A listing request is a bag of named parameters. The service refines a query, kept
    abstract here as the list of clauses appended to it, by filter, sort and group
    clauses, and only for fields the entity's allow-list names; every other parameter is
    dropped without an error. The service's methods change the query object in place and
    hand the same object back; the pure functions beside them say which clauses each
    method appends.
 */
module QueryBuilder {
  import opened Sequences
  import opened Registry

  /** A request parameter value: a string, a list of strings (`name[]=a&name[]=b`), or
      null (a key that is present without a value). */
  datatype Param = Str(text: string) | List(items: seq<string>) | Null

  /** The request's parameter bag, parameter name to value. */
  type Request = map<string, Param>

  /** A constraint appended to the query. */
  datatype Clause =
    | Where(field: string, value: Param)
    | OrderBy(field: string, direction: Param)
    | GroupBy(fields: seq<string>)

  /** The page size handed to the paginator: the request's own `per_page` value, or the
      default when the request has none. */
  datatype PageSize = Requested(param: Param) | Default(count: nat)

  const DEFAULT_PER_PAGE: nat := 10

  /** What `applyPagination` hands to the paginator: the final query and the page size. */
  datatype Paginator = Paginator(clauses: seq<Clause>, perPage: PageSize)

  // ---------------------------------------------------------------------------------
  // Allow-list lookups: an entity missing from the configuration has empty lists.

  /** The entity's filter allow-list; empty for an entity the configuration lacks. */
  function AllowedFilters(config: map<string, AllowList>, modelName: string): (r: seq<string>)
    ensures modelName !in config ==> r == []
    ensures modelName in config ==> r == config[modelName].filters
  {
    if modelName in config then config[modelName].filters else []
  }

  /** The entity's sort allow-list; empty for an entity the configuration lacks. */
  function AllowedSorts(config: map<string, AllowList>, modelName: string): (r: seq<string>)
    ensures modelName !in config ==> r == []
    ensures modelName in config ==> r == config[modelName].sorts
  {
    if modelName in config then config[modelName].sorts else []
  }

  /** The entity's group-by allow-list; empty for an entity the configuration lacks. */
  function AllowedGroupBy(config: map<string, AllowList>, modelName: string): (r: seq<string>)
    ensures modelName !in config ==> r == []
    ensures modelName in config ==> r == config[modelName].groupBy
  {
    if modelName in config then config[modelName].groupBy else []
  }

  /** `$request->input(key, default)`: the value when the key is present (even a null
      one), the default otherwise. */
  function Input(request: Request, key: string, default: Param): Param {
    if key in request then request[key] else default
  }

  // ---------------------------------------------------------------------------------
  // The clauses each transformation appends.

  /** One equality constraint per listed field, with the request's value for it. */
  function Wheres(fields: seq<string>, request: Request): seq<Clause>
    requires forall f :: f in fields ==> f in request
  {
    seq(|fields|, i requires 0 <= i < |fields| => Where(fields[i], request[fields[i]]))
  }

  /** applyFilters: walk the allow-list and constrain each field the request carries. */
  function FilterClauses(allowed: seq<string>, request: Request): seq<Clause> {
    Wheres(Keep(allowed, request.Keys), request)
  }

  function SortField(request: Request): Param {
    Input(request, "sort_by", Str("id"))
  }

  function SortOrder(request: Request): Param {
    Input(request, "sort_order", Str("asc"))
  }

  /** The requested sort field is a string that the sort allow-list names. */
  predicate SortAllowed(sorts: seq<string>, request: Request) {
    SortField(request).Str? && SortField(request).text in sorts
  }

  /** applySorting: one order clause when the sort field is allowed, none otherwise. */
  function SortClauses(sorts: seq<string>, request: Request): seq<Clause> {
    if SortAllowed(sorts, request) then [OrderBy(SortField(request).text, SortOrder(request))] else []
  }

  /** applyGrouping: the requested fields that the group-by allow-list names, when the
      request's `group_by` is a list and some of it survives. */
  function GroupClauses(groupable: seq<string>, request: Request): seq<Clause> {
    match Input(request, "group_by", Null)
    case List(requested) =>
      var key := Keep(requested, set f | f in groupable);
      if key == [] then [] else [GroupBy(key)]
    case _ => []
  }

  /** applyPagination's page size: `per_page` as given, or 10. */
  function PerPage(request: Request): PageSize {
    if "per_page" in request then Requested(request["per_page"]) else Default(DEFAULT_PER_PAGE)
  }

  /** The clauses a listing appends when it applies filters, sorting and grouping in turn. */
  function ListingClauses(config: map<string, AllowList>, modelName: string, request: Request): seq<Clause> {
    FilterClauses(AllowedFilters(config, modelName), request)
      + SortClauses(AllowedSorts(config, modelName), request)
      + GroupClauses(AllowedGroupBy(config, modelName), request)
  }

  /** The field names of a list of Where / OrderBy clauses. */
  function FieldsOf(clauses: seq<Clause>): seq<string>
    requires forall c :: c in clauses ==> !c.GroupBy?
  {
    seq(|clauses|, i requires 0 <= i < |clauses| => clauses[i].field)
  }

  // ---------------------------------------------------------------------------------
  // The mutable query and the service.

  /** The query under construction: the clauses appended to it so far. */
  class Query {
    var clauses: seq<Clause>

    constructor (initial: seq<Clause>)
      ensures clauses == initial
    {
      clauses := initial;
    }
  }

  /** The service; its configuration is read once, at construction. */
  class QueryBuilderService {
    const config: map<string, AllowList>

    constructor ()
      ensures config == Table
    {
      config := Table;
    }

    /** Appends, in allow-list order, one Where per allow-listed field the request has;
        the clauses already on the query stay as they are. */
    method ApplyFilters(query: Query, request: Request, modelName: string) returns (result: Query)
      modifies query
      ensures result == query
      ensures query.clauses == old(query.clauses) + FilterClauses(AllowedFilters(config, modelName), request)
    {
      var allowedFilters := AllowedFilters(config, modelName);
      var i := 0;
      while i < |allowedFilters|
        invariant 0 <= i <= |allowedFilters|
        invariant query.clauses == old(query.clauses) + FilterClauses(allowedFilters[..i], request)
      {
        var filter := allowedFilters[i];
        assert allowedFilters[..i + 1] == allowedFilters[..i] + [filter];
        KeepSnoc(allowedFilters[..i], filter, request.Keys);
        if filter in request {
          query.clauses := query.clauses + [Where(filter, request[filter])];
        }
        i := i + 1;
      }
      assert allowedFilters[..i] == allowedFilters;
      result := query;
    }

    /** Appends OrderBy(sort_by, sort_order) when sort_by (default "id") is allowed;
        sort_order (default "asc") is passed on unchecked. */
    method ApplySorting(query: Query, request: Request, modelName: string) returns (result: Query)
      modifies query
      ensures result == query
      ensures query.clauses == old(query.clauses) + SortClauses(AllowedSorts(config, modelName), request)
    {
      var sortBy := Input(request, "sort_by", Str("id"));
      var sortOrder := Input(request, "sort_order", Str("asc"));
      var allowedSorts := AllowedSorts(config, modelName);
      if sortBy.Str? && sortBy.text in allowedSorts {
        query.clauses := query.clauses + [OrderBy(sortBy.text, sortOrder)];
      }
      result := query;
    }

    /** Hands the query and the page size to the paginator; the query is not changed. */
    method ApplyPagination(query: Query, request: Request) returns (page: Paginator)
      ensures page.clauses == query.clauses
      ensures "per_page" in request ==> page.perPage == Requested(request["per_page"])
      ensures "per_page" !in request ==> page.perPage == Default(10)
    {
      page := Paginator(query.clauses, PerPage(request));
    }

    /** Appends GroupBy over the allowed part of a list-valued group_by, when it is not
        empty; leaves the query alone otherwise. */
    method ApplyGrouping(query: Query, request: Request, modelName: string) returns (result: Query)
      modifies query
      ensures result == query
      ensures query.clauses == old(query.clauses) + GroupClauses(AllowedGroupBy(config, modelName), request)
    {
      var groupBy := Input(request, "group_by", Null);
      var allowedGroupBy := AllowedGroupBy(config, modelName);
      if groupBy.List? {
        var key := Keep(groupBy.items, set f | f in allowedGroupBy);
        if key != [] {
          query.clauses := query.clauses + [GroupBy(key)];
        }
      }
      result := query;
    }
  }

  // ---------------------------------------------------------------------------------
  // What the transformations promise.

  /** Filters: a Where for a field exactly when the allow-list names it and the request
      has it, carrying the request's value; fields come in allow-list order and each
      allow-list entry present in the request yields one clause. */
  lemma FilterClausesChosen(allowed: seq<string>, request: Request)
    ensures forall c :: c in FilterClauses(allowed, request) ==>
              c.Where? && c.field in allowed && c.field in request && c.value == request[c.field]
    ensures forall f :: f in allowed && f in request ==> Where(f, request[f]) in FilterClauses(allowed, request)
    ensures Subsequence(FieldsOf(FilterClauses(allowed, request)), allowed)
    ensures forall f :: multiset(FieldsOf(FilterClauses(allowed, request)))[f] ==
              if f in request then multiset(allowed)[f] else 0
  {
    var kept := Keep(allowed, request.Keys);
    var r := FilterClauses(allowed, request);
    assert FieldsOf(r) == kept;
    KeepIsSubsequence(allowed, request.Keys);
    KeepCounts(allowed, request.Keys);
    forall f | f in allowed && f in request ensures Where(f, request[f]) in r {
      assert multiset(kept)[f] > 0;
      var i :| 0 <= i < |kept| && kept[i] == f;
      assert r[i] == Where(f, request[f]);
    }
  }

  /** With a duplicate-free allow-list, each field gets exactly one Where when it is
      allowed and present, and none otherwise. */
  lemma FilterExactlyOnce(allowed: seq<string>, request: Request, f: string)
    requires NoDuplicates(allowed)
    ensures multiset(FieldsOf(FilterClauses(allowed, request)))[f] ==
            if f in allowed && f in request then 1 else 0
  {
    FilterClausesChosen(allowed, request);
    NoDuplicatesCount(allowed, f);
  }

  /** A request parameter that the allow-list does not name has no effect on filtering,
      whether it is present, absent or changed. */
  lemma FilterIgnoresUnlisted(allowed: seq<string>, request: Request, key: string, value: Param)
    requires key !in allowed
    ensures FilterClauses(allowed, request[key := value]) == FilterClauses(allowed, request)
    ensures FilterClauses(allowed, request - {key}) == FilterClauses(allowed, request)
  {
    KeepIgnoresOutsiders(allowed, request[key := value].Keys, request.Keys);
    KeepIgnoresOutsiders(allowed, (request - {key}).Keys, request.Keys);
  }

  /** Sorting: at most one clause; it appears exactly when sort_by (default "id") is an
      allowed field; its direction is sort_order as given (default "asc"), unchecked. */
  lemma SortClausesChosen(sorts: seq<string>, request: Request)
    ensures |SortClauses(sorts, request)| <= 1
    ensures SortClauses(sorts, request) != [] <==>
              (("sort_by" in request && request["sort_by"].Str? && request["sort_by"].text in sorts)
               || ("sort_by" !in request && "id" in sorts))
    ensures forall c :: c in SortClauses(sorts, request) ==>
              c.OrderBy? && c.field in sorts
              && ("sort_by" in request ==> request["sort_by"] == Str(c.field))
              && ("sort_by" !in request ==> c.field == "id")
              && ("sort_order" in request ==> c.direction == request["sort_order"])
              && ("sort_order" !in request ==> c.direction == Str("asc"))
  {
  }

  /** Grouping: nothing unless group_by is a list; otherwise a single GroupBy whose key
      is the allowed part of that list, in request order and with its duplicates, and
      nothing when no requested field is allowed. */
  lemma GroupClausesChosen(groupable: seq<string>, request: Request)
    ensures |GroupClauses(groupable, request)| <= 1
    ensures !("group_by" in request && request["group_by"].List?) ==> GroupClauses(groupable, request) == []
    ensures "group_by" in request && request["group_by"].List? ==>
              var requested := request["group_by"].items;
              (GroupClauses(groupable, request) == [] <==> forall f :: f in requested ==> f !in groupable)
              && forall c :: c in GroupClauses(groupable, request) ==>
                   c.GroupBy? && Subsequence(c.fields, requested)
                   && (forall f :: f in c.fields ==> f in groupable)
                   && (forall f :: multiset(c.fields)[f] == if f in groupable then multiset(requested)[f] else 0)
  {
    if "group_by" in request && request["group_by"].List? {
      var requested := request["group_by"].items;
      var allowed := set f | f in groupable;
      KeepEmptyIff(requested, allowed);
      KeepIsSubsequence(requested, allowed);
      KeepCounts(requested, allowed);
    }
  }

  /** The allow-list invariant: every field a listing passes into the query is on the
      matching allow-list of the entity. */
  lemma ListingRespectsAllowLists(config: map<string, AllowList>, modelName: string, request: Request)
    ensures forall c :: c in ListingClauses(config, modelName, request) ==>
              (c.Where? ==> c.field in AllowedFilters(config, modelName))
              && (c.OrderBy? ==> c.field in AllowedSorts(config, modelName))
              && (c.GroupBy? ==> forall f :: f in c.fields ==> f in AllowedGroupBy(config, modelName))
  {
    FilterClausesChosen(AllowedFilters(config, modelName), request);
    SortClausesChosen(AllowedSorts(config, modelName), request);
    GroupClausesChosen(AllowedGroupBy(config, modelName), request);
  }

  /** An entity name that the configuration does not have gets empty allow-lists, and
      filtering, sorting and grouping then add nothing. */
  lemma UnknownEntityIsNoOp(config: map<string, AllowList>, modelName: string, request: Request)
    requires modelName !in config
    ensures AllowedFilters(config, modelName) == [] && AllowedSorts(config, modelName) == []
            && AllowedGroupBy(config, modelName) == []
    ensures FilterClauses(AllowedFilters(config, modelName), request) == []
    ensures SortClauses(AllowedSorts(config, modelName), request) == []
    ensures GroupClauses(AllowedGroupBy(config, modelName), request) == []
    ensures ListingClauses(config, modelName, request) == []
  {
    GroupClausesChosen([], request);
  }

  // ---------------------------------------------------------------------------------
  // Consequences for the configured entities.

  /** Without sort_by, every configured entity is ordered by "id", in the requested
      direction or "asc". */
  lemma DefaultSortFires(modelName: string, request: Request)
    requires modelName in Table
    requires "sort_by" !in request
    ensures SortClauses(AllowedSorts(Table, modelName), request) == [OrderBy("id", SortOrder(request))]
    ensures "sort_order" !in request ==>
              SortClauses(AllowedSorts(Table, modelName), request) == [OrderBy("id", Str("asc"))]
  {
    IdEverywhere(modelName);
  }

  /** The entity name the category listing passes, and the configuration's key for
      categories. */
  const CategoryModelNameAsWritten: string := "category"
  const CategoryModelName: string := "categories"

  /** As written, the category listing asks for an entity the table does not have, so no
      request parameter reaches the category query. */
  lemma CategoryListingIgnoresRequest(request: Request)
    ensures ListingClauses(Table, CategoryModelNameAsWritten, request) == []
  {
    EntityNames();
    UnknownEntityIsNoOp(Table, CategoryModelNameAsWritten, request);
  }

  /** Under the configuration's own key, the category allow-lists apply: a name filter
      is kept, and without sort_by the listing is ordered by "id". */
  lemma CategoryListingUsesAllowList(request: Request)
    ensures "name" in request ==>
              Where("name", request["name"]) in ListingClauses(Table, CategoryModelName, request)
    ensures "sort_by" !in request ==>
              OrderBy("id", SortOrder(request)) in ListingClauses(Table, CategoryModelName, request)
  {
    FilterClausesChosen(AllowedFilters(Table, CategoryModelName), request);
    if "sort_by" !in request {
      DefaultSortFires(CategoryModelName, request);
    }
  }

  /** No listing of posts is filtered, sorted or grouped by "content". */
  lemma PostsNeverUseContent(request: Request)
    ensures forall c :: c in ListingClauses(Table, "posts", request) ==>
              (!c.GroupBy? ==> c.field != "content") && (c.GroupBy? ==> "content" !in c.fields)
    ensures "sort_by" in request && request["sort_by"] == Str("content") ==>
              SortClauses(AllowedSorts(Table, "posts"), request) == []
  {
    ListingRespectsAllowLists(Table, "posts", request);
    PostsExcludeContent();
  }

  /** A post listing with only the unlisted parameter "status" gets no Where clause. */
  lemma UnlistedStatusFilterDropped()
    ensures FilterClauses(AllowedFilters(Table, "posts"), map["status" := Str("draft")]) == []
  {
    var request := map["status" := Str("draft")];
    FilterClausesChosen(AllowedFilters(Table, "posts"), request);
    KeepEmptyIff(AllowedFilters(Table, "posts"), request.Keys);
  }

  /** group_by = [x, id, y] against allowed {id, y} groups by [id, y]. */
  lemma GroupingKeepsRequestOrder()
    ensures GroupClauses(["id", "y"], map["group_by" := List(["x", "id", "y"])]) == [GroupBy(["id", "y"])]
  {
    var allowed := set f | f in ["id", "y"];
    assert "x" !in allowed && "id" in allowed && "y" in allowed;
    assert ["x", "id", "y"][1..] == ["id", "y"];
    assert ["id", "y"][1..] == ["y"];
    assert ["y"][1..] == [];
    assert Keep(["y"], allowed) == ["y"];
    assert Keep(["id", "y"], allowed) == ["id", "y"];
    assert Keep(["x", "id", "y"], allowed) == ["id", "y"];
  }
}
