/** Laravel Scout's search query builder. A builder is configured in place
    by chained calls that each change one field, and then runs a search
    through its model's engine. Every configuration method names in its
    `modifies` clause the one field it assigns, so every other field is
    provably left as it was. */
module ScoutBuilder {
  import opened Php
  import opened ScoutRules

  class Builder {
    /** The searchable model the query runs against. */
    var model: SearchableModel
    /** The query string. */
    var query: string
    /** Optional callback before search execution. */
    var callback: Option<Closure>
    /** Optional callback before model query execution. */
    var queryCallback: Option<Closure>
    /** Optional callback after the raw search. */
    var afterRawSearchCallback: Option<Value -> Value>
    /** A custom index to search in. */
    var index: Option<string>
    /** Equality constraints, keyed by field. */
    var wheres: map<string, Value>
    /** "Where in" constraints, keyed by field. */
    var whereIns: map<string, seq<Value>>
    /** "Where not in" constraints, keyed by field. */
    var whereNotIns: map<string, seq<Value>>
    /** The limit on the number of hits. */
    var limit: Option<int>
    /** The sort order, in the order the calls were made. */
    var orders: seq<Order>
    /** Extra options handed to the engine. */
    var options: map<string, Value>

    /** A new builder: with `softDelete` the only constraint excludes
        soft-deleted records; otherwise there are none. */
    constructor (model: SearchableModel, query: string, callback: Option<Closure> := None, softDelete: bool := false)
      ensures this.model == model && this.query == query && this.callback == callback
      ensures softDelete ==> wheres == map[SoftDeletedKey := Int(0)]
      ensures !softDelete ==> wheres == map[]
      ensures whereIns == map[] && whereNotIns == map[] && orders == [] && options == map[]
      ensures queryCallback == None && afterRawSearchCallback == None
      ensures index == None && limit == None
    {
      this.model := model;
      this.query := query;
      this.callback := callback;
      queryCallback := None;
      afterRawSearchCallback := None;
      index := None;
      wheres := if softDelete then SetFilter(map[], SoftDeletedKey, Int(0)) else map[];
      whereIns := map[];
      whereNotIns := map[];
      limit := None;
      orders := [];
      options := map[];
    }

    /** `clone $builder`: a shallow copy with every field equal. */
    constructor Clone(other: Builder)
      ensures model == other.model && query == other.query && callback == other.callback
      ensures queryCallback == other.queryCallback && afterRawSearchCallback == other.afterRawSearchCallback
      ensures index == other.index && wheres == other.wheres
      ensures whereIns == other.whereIns && whereNotIns == other.whereNotIns
      ensures limit == other.limit && orders == other.orders && options == other.options
    {
      model := other.model;
      query := other.query;
      callback := other.callback;
      queryCallback := other.queryCallback;
      afterRawSearchCallback := other.afterRawSearchCallback;
      index := other.index;
      wheres := other.wheres;
      whereIns := other.whereIns;
      whereNotIns := other.whereNotIns;
      limit := other.limit;
      orders := other.orders;
      options := other.options;
    }

    /** Search a custom index. */
    method Within(index: string)
      modifies this`index
      ensures this.index == Some(index)
    {
      this.index := Some(index);
    }

    /** Constrain `field` to equal `value`, replacing any earlier value. */
    method Where(field: string, value: Value)
      modifies this`wheres
      ensures wheres == SetFilter(old(wheres), field, value)
    {
      wheres := SetFilter(wheres, field, value);
    }

    /** Constrain `field` to one of `values`, replacing any earlier list;
        the other two filter maps are untouched. */
    method WhereIn(field: string, values: ValuesArg)
      modifies this`whereIns
      ensures whereIns == SetFilter(old(whereIns), field, values.values)
    {
      var list := values.values;
      whereIns := SetFilter(whereIns, field, list);
    }

    /** Exclude the `values` for `field`, replacing any earlier list;
        the other two filter maps are untouched. */
    method WhereNotIn(field: string, values: ValuesArg)
      modifies this`whereNotIns
      ensures whereNotIns == SetFilter(old(whereNotIns), field, values.values)
    {
      var list := values.values;
      whereNotIns := SetFilter(whereNotIns, field, list);
    }

    /** Include soft-deleted records: drop the reserved key only. */
    method WithTrashed()
      modifies this`wheres
      ensures wheres == WithoutSoftDeleted(old(wheres))
      ensures SoftDeletedKey !in wheres
    {
      wheres := WithoutSoftDeleted(wheres);
    }

    /** Select only soft-deleted records: clear the reserved key, then set
        it to 1, whatever it held before. */
    method OnlyTrashed()
      modifies this`wheres
      ensures wheres == old(wheres)[SoftDeletedKey := Int(1)]
      ensures wheres[SoftDeletedKey] == Int(1)
    {
      WithTrashed();
      wheres := SetFilter(wheres, SoftDeletedKey, Int(1));
    }

    /** Set the limit (`null` clears it). */
    method Take(limit: Option<int>)
      modifies this`limit
      ensures this.limit == limit
    {
      this.limit := limit;
    }

    /** Append one sort entry, its direction normalised; the earlier
        entries stay as they were. */
    method OrderBy(column: string, direction: string := "asc")
      modifies this`orders
      ensures |orders| == |old(orders)| + 1 && orders[..|old(orders)|] == old(orders)
      ensures orders[|orders| - 1] == Order(column, NormaliseDirection(direction))
      ensures orders[|orders| - 1].direction == Asc <==> IsAscSpelling(direction)
    {
      orders := orders + [Order(column, NormaliseDirection(direction))];
    }

    /** Append a descending sort entry. */
    method OrderByDesc(column: string)
      modifies this`orders
      ensures orders == old(orders) + [Order(column, Desc)]
    {
      OrderBy(column, "desc");
    }

    /** Append a descending sort on a timestamp column (by default the
        model's created-at column). */
    method Latest(column: Option<string> := None)
      modifies this`orders
      ensures orders == old(orders) + [Order(TimestampColumn(column, model.createdAtColumn), Desc)]
    {
      OrderBy(TimestampColumn(column, model.createdAtColumn), "desc");
    }

    /** Append an ascending sort on a timestamp column (by default the
        model's created-at column). */
    method Oldest(column: Option<string> := None)
      modifies this`orders
      ensures orders == old(orders) + [Order(TimestampColumn(column, model.createdAtColumn), Asc)]
    {
      OrderBy(TimestampColumn(column, model.createdAtColumn), "asc");
    }

    /** Replace the extra engine options wholesale. */
    method Options(options: map<string, Value>)
      modifies this`options
      ensures this.options == options
    {
      this.options := options;
    }

    /** Set the callback that may modify the database query. */
    method Query(callback: Option<Closure>)
      modifies this`queryCallback
      ensures queryCallback == callback
    {
      queryCallback := callback;
    }

    /** Set the callback that may inspect and replace the raw results. */
    method WithRawResults(callback: Option<Value -> Value>)
      modifies this`afterRawSearchCallback
      ensures afterRawSearchCallback == callback
    {
      afterRawSearchCallback := callback;
    }

    /** Run the after-raw-search callback, if any. Its result replaces the
        raw results only when it is truthy: without a callback, or when
        the callback returns a falsy value, the results come back as they
        were. Truthy results therefore stay truthy. */
    function ApplyAfterRawSearchCallback(results: Value): (r: Value)
      reads this
      ensures afterRawSearchCallback.None? ==> r == results
      ensures r == results || (afterRawSearchCallback.Some? && r == afterRawSearchCallback.value(results) && Truthy(r))
      ensures afterRawSearchCallback.Some? && Truthy(afterRawSearchCallback.value(results)) ==>
                r == afterRawSearchCallback.value(results)
      ensures Truthy(results) ==> Truthy(r)
    {
      match afterRawSearchCallback
      case None => results
      case Some(f) =>
        var replaced := f(results);
        if Truthy(replaced) then replaced else results
    }

    /** The total for a length-aware page. Without a query callback it is
        the engine's total. With one, the engine may have counted records
        the database query then drops, so the total is the database count
        over the hits' identifiers; when the engine returned fewer
        identifiers than its total, they are first fetched again through a
        clone of this builder whose limit is the engine's total, or the
        smaller of it and this builder's limit. This builder is not
        changed (the method modifies nothing). */
    method GetTotalCount(engine: Engine, results: Value) returns (total: int)
      ensures queryCallback.None? ==> total == engine.totalCount(results)
      ensures queryCallback.Some? ==>
        var engineTotal := engine.totalCount(results);
        var ids := engine.mapIdsFrom(results, model.scoutKeyName);
        && (|ids| >= engineTotal ==> total == model.countByIds(queryCallback.value, ids))
        && (|ids| < engineTotal ==> total == model.countByIds(queryCallback.value, engine.keys(RecountLimit(limit, engineTotal))))
    {
      var totalCount := engine.totalCount(results);
      if queryCallback.None? {
        return totalCount;
      }
      var ids := engine.mapIdsFrom(results, model.scoutKeyName);
      if |ids| < totalCount {
        var copy := new Builder.Clone(this);
        copy.Take(Some(RecountLimit(limit, totalCount)));
        ids := engine.keys(copy.limit.value);
      }
      total := model.countByIds(queryCallback.value, ids);
    }

    /** The generic fallback of `simplePaginate`: the page and page size
        default to the current page and the model's page size; the
        records are the engine's mapping of the raw page after the
        callback; there are more pages when `perPage * page` is below the
        engine's total for the raw page as the engine returned it. */
    method SimplePaginate(engine: Engine, perPage: Option<int>, page: Option<int>, currentPage: int)
      returns (p: SimplePage)
      ensures p.currentPage == OrDefault(page, currentPage)
      ensures p.perPage == OrDefault(perPage, model.perPage)
      ensures var raw := engine.paginate(p.perPage, p.currentPage);
        && p.items == Models(engine.mapModels(ApplyAfterRawSearchCallback(raw)))
        && (p.hasMorePages <==> HasMorePages(p.perPage, p.currentPage, engine.totalCount(raw)))
    {
      var pageNo := OrDefault(page, currentPage);
      var size := OrDefault(perPage, model.perPage);
      var rawResults := engine.paginate(size, pageNo);
      var results := engine.mapModels(ApplyAfterRawSearchCallback(rawResults));
      p := SimplePage(Models(results), size, pageNo, size * pageNo < engine.totalCount(rawResults));
    }

    /** The generic fallback of `simplePaginateRaw`: as `SimplePaginate`,
        but the page holds the raw results after the callback, and the
        engine's total is taken from those, not from the raw page. */
    method SimplePaginateRaw(engine: Engine, perPage: Option<int>, page: Option<int>, currentPage: int)
      returns (p: SimplePage)
      ensures p.currentPage == OrDefault(page, currentPage)
      ensures p.perPage == OrDefault(perPage, model.perPage)
      ensures var results := ApplyAfterRawSearchCallback(engine.paginate(p.perPage, p.currentPage));
        && p.items == RawItems(results)
        && (p.hasMorePages <==> HasMorePages(p.perPage, p.currentPage, engine.totalCount(results)))
    {
      var pageNo := OrDefault(page, currentPage);
      var size := OrDefault(perPage, model.perPage);
      var results := ApplyAfterRawSearchCallback(engine.paginate(size, pageNo));
      p := SimplePage(RawItems(results), size, pageNo, size * pageNo < engine.totalCount(results));
    }

    /** The generic fallback of `paginate`: page and page size default as
        for `SimplePaginate`; the records are the engine's mapping of the
        raw page after the callback; the total is `GetTotalCount` of the
        raw page as the engine returned it. */
    method Paginate(engine: Engine, perPage: Option<int>, page: Option<int>, currentPage: int)
      returns (p: LengthAwarePage)
      ensures p.currentPage == OrDefault(page, currentPage)
      ensures p.perPage == OrDefault(perPage, model.perPage)
      ensures var raw := engine.paginate(p.perPage, p.currentPage);
        p.items == Models(engine.mapModels(ApplyAfterRawSearchCallback(raw)))
      ensures var raw := engine.paginate(p.perPage, p.currentPage);
        var engineTotal := engine.totalCount(raw);
        var ids := engine.mapIdsFrom(raw, model.scoutKeyName);
        && (queryCallback.None? ==> p.total == engineTotal)
        && (queryCallback.Some? ==>
              p.total == model.countByIds(queryCallback.value, if |ids| < engineTotal then engine.keys(RecountLimit(limit, engineTotal)) else ids))
    {
      var pageNo := OrDefault(page, currentPage);
      var size := OrDefault(perPage, model.perPage);
      var rawResults := engine.paginate(size, pageNo);
      var results := engine.mapModels(ApplyAfterRawSearchCallback(rawResults));
      var total := GetTotalCount(engine, rawResults);
      p := LengthAwarePage(Models(results), total, size, pageNo);
    }

    /** The generic fallback of `paginateRaw`: as `Paginate`, but the page
        holds the raw results after the callback, and the total is
        `GetTotalCount` of those. */
    method PaginateRaw(engine: Engine, perPage: Option<int>, page: Option<int>, currentPage: int)
      returns (p: LengthAwarePage)
      ensures p.currentPage == OrDefault(page, currentPage)
      ensures p.perPage == OrDefault(perPage, model.perPage)
      ensures p.items == RawItems(ApplyAfterRawSearchCallback(engine.paginate(p.perPage, p.currentPage)))
      ensures var results := p.items.raw;
        var engineTotal := engine.totalCount(results);
        var ids := engine.mapIdsFrom(results, model.scoutKeyName);
        && (queryCallback.None? ==> p.total == engineTotal)
        && (queryCallback.Some? ==>
              p.total == model.countByIds(queryCallback.value, if |ids| < engineTotal then engine.keys(RecountLimit(limit, engineTotal)) else ids))
    {
      var pageNo := OrDefault(page, currentPage);
      var size := OrDefault(perPage, model.perPage);
      var results := ApplyAfterRawSearchCallback(engine.paginate(size, pageNo));
      var total := GetTotalCount(engine, results);
      p := LengthAwarePage(RawItems(results), total, size, pageNo);
    }
  }
}
