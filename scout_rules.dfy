/** The pure rules behind Laravel Scout's search query builder: how filters
    are overwritten, how a sort direction is normalised, how the page and
    page size fall back to defaults, when a page "has more", and which
    limit the count reconciliation re-queries with. The collaborators the
    builder calls (the search engine, the searchable model and its
    database) are given here as values holding functions: the model never
    looks inside them. */
module ScoutRules {
  import opened Php

  /** The reserved "where" key through which soft-deleted records are
      included (absent), excluded (0) or selected alone (1). */
  const SoftDeletedKey: string := "__soft_deleted"

  // ---------------------------------------------------------------------
  // Collaborators, as oracles

  /** The search engine bound to the model. Every function stands for one
      engine call made on behalf of the builder at hand. */
  datatype Engine = Engine(
    /** `paginate($builder, $perPage, $page)`: the raw page of hits. */
    paginate: (int, int) -> Value,
    /** `getTotalCount($results)`: the total the engine reports. */
    totalCount: Value -> int,
    /** `map($builder, $results, $model)`: the records for raw hits. */
    mapModels: Value -> seq<Value>,
    /** `mapIdsFrom($results, $keyName)`: the identifiers in raw hits. */
    mapIdsFrom: (Value, string) -> seq<Value>,
    /** `keys($builder)` on a builder whose limit is the argument. */
    keys: int -> seq<Value>)

  /** What the builder asks of the searchable model. */
  datatype SearchableModel = SearchableModel(
    /** `getPerPage()`: the default page size. */
    perPage: int,
    /** `getCreatedAtColumn()`, which may be null. */
    createdAtColumn: Option<string>,
    /** `getScoutKeyName()`: the identifier field in raw hits. */
    scoutKeyName: string,
    /** `queryScoutModelsByIds($builder, $ids)->toBase()->getCountForPagination()`:
        how many of the records with these identifiers the database
        query finds once the builder's query callback (the first
        argument) has modified it. */
    countByIds: (Closure, seq<Value>) -> int)

  /** A closure the builder stores and hands on without calling it. */
  datatype Closure = Closure(handle: nat)

  /** What a page holds: mapped records, or the raw engine results. */
  datatype PageItems = Models(models: seq<Value>) | RawItems(raw: Value)

  /** The numbers behind a simple paginator. */
  datatype SimplePage = SimplePage(items: PageItems, perPage: int, currentPage: int, hasMorePages: bool)

  /** The numbers behind a length-aware paginator. */
  datatype LengthAwarePage = LengthAwarePage(items: PageItems, total: int, perPage: int, currentPage: int)

  // ---------------------------------------------------------------------
  // Filters: `wheres`, `whereIns` and `whereNotIns` are maps keyed by field

  /** One filter assignment `$filters[$field] = $value`: the field now
      holds the new value, whatever it held before, and every other
      field keeps its value. */
  function SetFilter<V>(filters: map<string, V>, field: string, value: V): (r: map<string, V>)
    ensures r.Keys == filters.Keys + {field}
    ensures r[field] == value
    ensures forall k :: k in filters && k != field ==> r[k] == filters[k]
  {
    filters[field := value]
  }

  /** The filters after a chain of assignments, applied left to right. */
  function FilterChain<V>(filters: map<string, V>, calls: seq<(string, V)>): map<string, V>
  {
    if calls == [] then filters
    else
      var last := calls[|calls| - 1];
      SetFilter(FilterChain(filters, calls[..|calls| - 1]), last.0, last.1)
  }

  /** The value of the last assignment to `field` in a chain, if any. */
  function LastWrite<V>(calls: seq<(string, V)>, field: string): Option<V>
  {
    if calls == [] then None
    else if calls[|calls| - 1].0 == field then Some(calls[|calls| - 1].1)
    else LastWrite(calls[..|calls| - 1], field)
  }

  /** Last write wins: after any chain of assignments a field holds the
      value of the last assignment to it, and a field never assigned in
      the chain keeps its original presence and value. */
  lemma {:induction false} LastWriteWins<V>(filters: map<string, V>, calls: seq<(string, V)>, field: string)
    ensures LastWrite(calls, field).Some? ==>
      field in FilterChain(filters, calls) && FilterChain(filters, calls)[field] == LastWrite(calls, field).value
    ensures LastWrite(calls, field).None? ==>
      (field in FilterChain(filters, calls) <==> field in filters) &&
      (field in filters ==> FilterChain(filters, calls)[field] == filters[field])
  {
    if calls != [] {
      LastWriteWins(filters, calls[..|calls| - 1], field);
    }
  }

  /** `unset($wheres['__soft_deleted'])`: the reserved key is gone and
      every other key keeps its value; unsetting an absent key changes
      nothing. */
  function WithoutSoftDeleted(wheres: map<string, Value>): (r: map<string, Value>)
    ensures r.Keys == wheres.Keys - {SoftDeletedKey}
    ensures forall k :: k in r ==> r[k] == wheres[k]
    ensures SoftDeletedKey !in wheres ==> r == wheres
  {
    wheres - {SoftDeletedKey}
  }

  /** The reserved key first removed and then set to 1: the same as
      setting it to 1 over whatever it held. */
  function OnlySoftDeleted(wheres: map<string, Value>): (r: map<string, Value>)
    ensures r == wheres[SoftDeletedKey := Int(1)]
  {
    SetFilter(WithoutSoftDeleted(wheres), SoftDeletedKey, Int(1))
  }

  /** The two soft-delete operations absorb each other: whichever runs
      last decides the reserved key, whatever ran before. */
  lemma SoftDeleteLastCallDecides(wheres: map<string, Value>)
    ensures WithoutSoftDeleted(OnlySoftDeleted(wheres)) == WithoutSoftDeleted(wheres)
    ensures OnlySoftDeleted(WithoutSoftDeleted(wheres)) == OnlySoftDeleted(wheres)
    ensures WithoutSoftDeleted(WithoutSoftDeleted(wheres)) == WithoutSoftDeleted(wheres)
    ensures OnlySoftDeleted(OnlySoftDeleted(wheres)) == OnlySoftDeleted(wheres)
  {
  }

  /** `whereIn` and `whereNotIn` accept a plain array or an `Arrayable`,
      which is stored as its `toArray()`. */
  datatype ValuesArg = PlainArray(values: seq<Value>) | Arrayable(values: seq<Value>)

  // ---------------------------------------------------------------------
  // Ordering

  datatype Direction = Asc | Desc

  /** One entry of `orders`: `['column' => ..., 'direction' => ...]`. */
  datatype Order = Order(column: string, direction: Direction)

  /** The column `latest` and `oldest` sort on: the one given, else the
      model's created-at column, else "created_at". */
  function TimestampColumn(column: Option<string>, createdAtColumn: Option<string>): string
  {
    if column.Some? then column.value
    else if createdAtColumn.Some? then createdAtColumn.value
    else "created_at"
  }

  /** The spellings of "asc" in any mix of upper and lower case. */
  predicate IsAscSpelling(s: string)
  {
    |s| == 3 && (s[0] == 'a' || s[0] == 'A') && (s[1] == 's' || s[1] == 'S') && (s[2] == 'c' || s[2] == 'C')
  }

  /** `strtolower($direction) == 'asc' ? 'asc' : 'desc'`: ascending
      exactly for a case-insensitive "asc", descending for any other
      string, however malformed. */
  function NormaliseDirection(direction: string): (d: Direction)
    ensures d == Asc <==> IsAscSpelling(direction)
    ensures d == Desc <==> !IsAscSpelling(direction)
  {
    var lowered := ToLowerAscii(direction);
    if lowered == "asc" then Asc else Desc
  }

  // ---------------------------------------------------------------------
  // Paging

  /** `$arg ?: $fallback` on a nullable integer: the argument when it is
      set and non-zero, the fallback otherwise. */
  function OrDefault(arg: Option<int>, fallback: int): (r: int)
    ensures arg.Some? && arg.value != 0 ==> r == arg.value
    ensures r == fallback || (arg.Some? && r == arg.value && r != 0)
    ensures fallback != 0 ==> r != 0
  {
    if arg.Some? && arg.value != 0 then arg.value else fallback
  }

  /** The simple paginator's "has more pages" test `perPage * page < total`:
      for a positive page size and a non-negative page, there are more
      pages exactly when the last of the `total` items lies on a page
      after the current one. */
  function HasMorePages(perPage: int, page: int, total: int): (more: bool)
    ensures perPage > 0 && page >= 0 ==>
      (more <==> total > 0 && PageOfItem(total - 1, perPage) > page)
  {
    if perPage > 0 && page >= 0 then
      HasMorePagesIffLastItemBeyond(perPage, page, total);
      perPage * page < total
    else
      perPage * page < total
  }

  /** The (1-based) page that holds the item at a 0-based index. */
  function PageOfItem(index: nat, perPage: int): int
    requires perPage > 0
  {
    index / perPage + 1
  }

  /** The comparison `perPage * page < total` says exactly that the last
      of the `total` items lies on a page after the current one. */
  lemma HasMorePagesIffLastItemBeyond(perPage: int, page: int, total: int)
    requires perPage > 0 && page >= 0
    ensures perPage * page < total <==> total > 0 && PageOfItem(total - 1, perPage) > page
  {
    if total > 0 {
      var q := (total - 1) / perPage;
      assert total - 1 == perPage * q + (total - 1) % perPage;
      if q >= page {
        MulMonotone(perPage, page, q);
      } else {
        MulMonotone(perPage, q + 1, page);
      }
    } else {
      assert perPage * page >= 0;
    }
  }

  lemma MulMonotone(k: int, a: int, b: int)
    requires k > 0 && a <= b
    ensures k * a <= k * b
  {
  }

  /** The limit of the re-query in the count reconciliation:
      `is_null($limit) ? $total : min($limit, $total)`. It never exceeds
      the engine's total nor a set limit, and it is one of the two. */
  function RecountLimit(limit: Option<int>, total: int): (r: int)
    ensures r <= total
    ensures limit.None? ==> r == total
    ensures limit.Some? ==> r <= limit.value && (r == limit.value || r == total)
  {
    match limit
    case None => total
    case Some(l) => if l < total then l else total
  }
}
