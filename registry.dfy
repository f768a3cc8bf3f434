/** The per-entity allow-list table of config/queryBuilder.php: for each entity name, the
    fields a listing request may filter, sort and group by. The table is a constant; a
    name that is not a key of it has no entry at all. */
module Registry {
  import opened Sequences

  /** One entity's allow-lists, in the order the configuration writes them. */
  datatype AllowList = AllowList(filters: seq<string>, sorts: seq<string>, groupBy: seq<string>)

  const UserFields: seq<string> := ["id", "name", "email", "created_at", "updated_at"]
  const CategoryFields: seq<string> := ["id", "name", "created_at", "updated_at"]
  const PostFields: seq<string> := ["id", "category_id", "user_id", "title", "created_at", "updated_at"]

  /** The configuration array, entity name to allow-lists. */
  const Table: map<string, AllowList> := map[
    "users" := AllowList(UserFields, UserFields, UserFields),
    "comments" := AllowList(
      ["id", "content", "user_id", "commentable_id", "commentable_type", "created_at", "updated_at"],
      ["id", "content", "user_id", "created_at", "updated_at"],
      ["id", "content", "user_id", "commentable_id", "commentable_type", "created_at", "updated_at"]),
    "categories" := AllowList(CategoryFields, CategoryFields, CategoryFields),
    "posts" := AllowList(PostFields, PostFields, PostFields)
  ]

  /** The table has exactly four entities; in particular there is no "category" key. */
  lemma EntityNames()
    ensures Table.Keys == {"users", "comments", "categories", "posts"}
    ensures "category" !in Table
  {
  }

  /** "id" may be filtered, sorted and grouped by for every configured entity. */
  lemma IdEverywhere(entity: string)
    requires entity in Table
    ensures "id" in Table[entity].filters
    ensures "id" in Table[entity].sorts
    ensures "id" in Table[entity].groupBy
  {
  }

  /** No list of the table names a field twice. */
  lemma ListsHaveNoDuplicates(entity: string)
    requires entity in Table
    ensures NoDuplicates(Table[entity].filters)
    ensures NoDuplicates(Table[entity].sorts)
    ensures NoDuplicates(Table[entity].groupBy)
  {
  }

  /** Posts cannot be filtered, sorted or grouped by "content". */
  lemma PostsExcludeContent()
    ensures "content" !in Table["posts"].filters
    ensures "content" !in Table["posts"].sorts
    ensures "content" !in Table["posts"].groupBy
  {
  }

  /** A comment's owner columns may be filtered and grouped by, but not sorted by. */
  lemma CommentOwnerNotSortable()
    ensures "commentable_id" in Table["comments"].filters && "commentable_type" in Table["comments"].filters
    ensures "commentable_id" in Table["comments"].groupBy && "commentable_type" in Table["comments"].groupBy
    ensures "commentable_id" !in Table["comments"].sorts && "commentable_type" !in Table["comments"].sorts
  {
  }

  /** Users, categories and posts use one list for all three purposes; comments do not. */
  lemma UniformLists(entity: string)
    requires entity in Table
    ensures (entity != "comments") <==>
            (Table[entity].filters == Table[entity].sorts && Table[entity].sorts == Table[entity].groupBy)
  {
    if entity == "comments" {
      assert "commentable_id" !in Table[entity].sorts;
      assert "commentable_id" in Table[entity].filters;
    }
  }
}
