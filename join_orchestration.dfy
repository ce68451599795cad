/**
 * What one `JoinItem.apply` call does to the state it touches, as a function
 * of the state before the call: the cached foreign binding, the caller's
 * `JoinResult` and facet list, and the returned documents or error.
 */
module JoinOrchestration {
  import opened Wrappers
  import opened JavaLang
  import opened Collaborators
  import opened JoinConfig
  import opened ForeignBinding

  /** The effects of one `apply`: the binding afterwards, the foreign result recorded (if any), facets added, result. */
  datatype ApplyEffect = ApplyEffect(
    binding: Binding,
    recorded: Option<ResultSearch>,
    newFacets: seq<JoinFacet>,
    result: Result<DocSet, JoinError>)

  /**
   * The cached foreign request as `apply` prepares it before the foreign
   * search: zero window, the caller's users and groups, the definition's
   * query string, and the definition's filters appended to its own.
   */
  function ConfigureForeignRequest(request: SearchRequest, searchRequest: SearchRequest,
                                   queryString: JString, filters: seq<Filter>): (r: SearchRequest)
    ensures r.start == 0 && r.rows == 0
    ensures r.users == searchRequest.users && r.groups == searchRequest.groups
    ensures r.queryString == queryString
    ensures r.filterList == request.filterList + filters
    ensures r.kind == request.kind && r.facet == request.facet && r.facetFieldList == request.facetFieldList
  {
    request.(start := 0, rows := 0, users := searchRequest.users, groups := searchRequest.groups,
             queryString := queryString, filterList := request.filterList + filters)
  }

  /**
   * `apply`: check the local string index, bind, configure and run the
   * foreign search, record it, capture then clear the facets, check the
   * foreign string index, then merge.
   */
  function ApplySpec(d: JoinDefinition, filters: seq<Filter>, outerCollector: Option<OuterCollector>,
                     b: Binding, catalog: Catalog, searchRequest: SearchRequest, reader: Reader,
                     docs: DocSet, joinResultSize: int, joinPosition: int,
                     execute: (Client, SearchRequest) -> Option<ResultSearch>,
                     merge: MergeCall -> Option<DocSet>): (e: ApplyEffect)
    ensures !reader.getStringIndex(d.localField).Indexed? ==> e.binding == b && e.result.Failure?
    ensures e.recorded.None? ==> e.newFacets == [] && e.result.Failure?
    ensures e.result.Success? ==> e.binding.client.Some? && e.binding.request.Some? && e.recorded.Some?
    ensures e.newFacets != [] ==> d.returnFacets && |e.newFacets| == 1 && e.newFacets[0].joinPosition == joinPosition
  {
    match reader.getStringIndex(d.localField)
    case NotIndexed => ApplyEffect(b, None, [], Failure(NoLocalStringIndex(d.localField)))
    case ReadFailed => ApplyEffect(b, None, [], Failure(IoFailure))
    case Indexed(localIndex) =>
      var loaded := LazyLoad(b, catalog, d.indexName, d.queryTemplate);
      if loaded.outcome.Fail? then ApplyEffect(loaded.binding, None, [], Failure(loaded.outcome.error))
      else
        var request := ConfigureForeignRequest(loaded.binding.request.value, searchRequest, d.queryString, filters);
        match execute(loaded.binding.client.value, request)
        case None => ApplyEffect(loaded.binding.(request := Some(request)), None, [], Failure(IoFailure))
        case Some(res) =>
          var facets := if request.facet && d.returnFacets then [JoinFacet(joinPosition, request.facetFieldList, res)] else [];
          var after := if request.facet then request.(facetFieldList := []) else request;
          var bound := loaded.binding.(request := Some(after));
          match res.reader.getStringIndex(d.foreignField)
          case NotIndexed => ApplyEffect(bound, Some(res), facets, Failure(NoForeignStringIndex(d.foreignField)))
          case ReadFailed => ApplyEffect(bound, Some(res), facets, Failure(IoFailure))
          case Indexed(foreignIndex) =>
            var call := MergeCall(docs, localIndex, res.docs, foreignIndex, joinResultSize, joinPosition,
                                  d.joinType, outerCollector, res.reader);
            match merge(call)
            case None => ApplyEffect(bound, Some(res), facets, Failure(IoFailure))
            case Some(joined) => ApplyEffect(bound, Some(res), facets, Success(joined))
  }

  /** Without a local string index `apply` fails before binding or touching the foreign request. */
  lemma ApplyFailsFastOnLocalField(d: JoinDefinition, filters: seq<Filter>, outerCollector: Option<OuterCollector>,
                                   b: Binding, catalog: Catalog, searchRequest: SearchRequest, reader: Reader,
                                   docs: DocSet, joinResultSize: int, joinPosition: int,
                                   execute: (Client, SearchRequest) -> Option<ResultSearch>,
                                   merge: MergeCall -> Option<DocSet>)
    requires !reader.getStringIndex(d.localField).Indexed?
    ensures var e := ApplySpec(d, filters, outerCollector, b, catalog, searchRequest, reader, docs,
                               joinResultSize, joinPosition, execute, merge);
      && e.binding == b && e.recorded == None && e.newFacets == []
      && e.result.Failure?
      && (reader.getStringIndex(d.localField).NotIndexed? ==> e.result.error == NoLocalStringIndex(d.localField))
  {
  }

  /**
   * Once bound, the foreign request is left with a zero window, the caller's
   * users and groups, the definition's query string and its filters appended
   * in order, whatever the foreign search does next.
   */
  lemma ApplyConfiguresForeignRequest(d: JoinDefinition, filters: seq<Filter>, outerCollector: Option<OuterCollector>,
                                      b: Binding, catalog: Catalog, searchRequest: SearchRequest, reader: Reader,
                                      docs: DocSet, joinResultSize: int, joinPosition: int,
                                      execute: (Client, SearchRequest) -> Option<ResultSearch>,
                                      merge: MergeCall -> Option<DocSet>)
    requires reader.getStringIndex(d.localField).Indexed?
    requires LazyLoad(b, catalog, d.indexName, d.queryTemplate).outcome.Pass?
    ensures var loaded := LazyLoad(b, catalog, d.indexName, d.queryTemplate).binding;
      var e := ApplySpec(d, filters, outerCollector, b, catalog, searchRequest, reader, docs,
                         joinResultSize, joinPosition, execute, merge);
      && e.binding.client == loaded.client
      && e.binding.request.Some?
      && e.binding.request.value.start == 0 && e.binding.request.value.rows == 0
      && e.binding.request.value.users == searchRequest.users
      && e.binding.request.value.groups == searchRequest.groups
      && e.binding.request.value.queryString == d.queryString
      && e.binding.request.value.filterList == loaded.request.value.filterList + filters
  {
  }

  /**
   * After the foreign search: one facet entry exactly when the request
   * computes facets and the definition returns them; the facet field list is
   * emptied whenever the request computes facets and is untouched otherwise;
   * the result is recorded before the foreign string index is checked.
   */
  lemma ApplyFacetRule(d: JoinDefinition, filters: seq<Filter>, outerCollector: Option<OuterCollector>,
                       b: Binding, catalog: Catalog, searchRequest: SearchRequest, reader: Reader,
                       docs: DocSet, joinResultSize: int, joinPosition: int,
                       execute: (Client, SearchRequest) -> Option<ResultSearch>,
                       merge: MergeCall -> Option<DocSet>)
    requires reader.getStringIndex(d.localField).Indexed?
    requires LazyLoad(b, catalog, d.indexName, d.queryTemplate).outcome.Pass?
    ensures var loaded := LazyLoad(b, catalog, d.indexName, d.queryTemplate).binding;
      var request := ConfigureForeignRequest(loaded.request.value, searchRequest, d.queryString, filters);
      var e := ApplySpec(d, filters, outerCollector, b, catalog, searchRequest, reader, docs,
                         joinResultSize, joinPosition, execute, merge);
      match execute(loaded.client.value, request)
      case None => e.recorded == None && e.newFacets == [] && e.result == Failure(IoFailure)
      case Some(res) =>
        && e.recorded == Some(res)
        && (e.newFacets != [] <==> request.facet && d.returnFacets)
        && (e.newFacets != [] ==> e.newFacets == [JoinFacet(joinPosition, request.facetFieldList, res)])
        && e.binding.request.value.facetFieldList == (if request.facet then [] else loaded.request.value.facetFieldList)
        && (res.reader.getStringIndex(d.foreignField).NotIndexed? ==>
              e.result == Failure(NoForeignStringIndex(d.foreignField)))
  {
  }

  /**
   * Past every check, `apply` returns what the merge gives for exactly these
   * arguments: the local documents and string index, the foreign documents
   * and string index, the row cap, the join position, the join type, the
   * outer collector and the foreign reader; a merge that throws fails the call.
   */
  lemma ApplyMergesExactArguments(d: JoinDefinition, filters: seq<Filter>, outerCollector: Option<OuterCollector>,
                                  b: Binding, catalog: Catalog, searchRequest: SearchRequest, reader: Reader,
                                  docs: DocSet, joinResultSize: int, joinPosition: int,
                                  execute: (Client, SearchRequest) -> Option<ResultSearch>,
                                  merge: MergeCall -> Option<DocSet>)
    requires reader.getStringIndex(d.localField).Indexed?
    requires LazyLoad(b, catalog, d.indexName, d.queryTemplate).outcome.Pass?
    requires var loaded := LazyLoad(b, catalog, d.indexName, d.queryTemplate).binding;
      var request := ConfigureForeignRequest(loaded.request.value, searchRequest, d.queryString, filters);
      execute(loaded.client.value, request).Some?
      && execute(loaded.client.value, request).value.reader.getStringIndex(d.foreignField).Indexed?
    ensures var loaded := LazyLoad(b, catalog, d.indexName, d.queryTemplate).binding;
      var request := ConfigureForeignRequest(loaded.request.value, searchRequest, d.queryString, filters);
      var res := execute(loaded.client.value, request).value;
      var call := MergeCall(docs, reader.getStringIndex(d.localField).index, res.docs,
                            res.reader.getStringIndex(d.foreignField).index, joinResultSize, joinPosition,
                            d.joinType, outerCollector, res.reader);
      var e := ApplySpec(d, filters, outerCollector, b, catalog, searchRequest, reader, docs,
                         joinResultSize, joinPosition, execute, merge);
      e.result == (if merge(call).Some? then Success(merge(call).value) else Failure(IoFailure))
  {
  }

  /** A second `apply` on the same definition appends its filters to the cached request once more. */
  lemma {:induction false} ApplyTwiceAppendsTwice(d: JoinDefinition, filters: seq<Filter>, outerCollector: Option<OuterCollector>,
                                b: Binding, catalog: Catalog, searchRequest: SearchRequest, reader: Reader,
                                docs: DocSet, joinResultSize: int, joinPosition: int,
                                execute: (Client, SearchRequest) -> Option<ResultSearch>,
                                merge: MergeCall -> Option<DocSet>)
    requires reader.getStringIndex(d.localField).Indexed?
    requires LazyLoad(b, catalog, d.indexName, d.queryTemplate).outcome.Pass?
    ensures var loaded := LazyLoad(b, catalog, d.indexName, d.queryTemplate).binding;
      var e1 := ApplySpec(d, filters, outerCollector, b, catalog, searchRequest, reader, docs,
                          joinResultSize, joinPosition, execute, merge);
      var e2 := ApplySpec(d, filters, outerCollector, e1.binding, catalog, searchRequest, reader, docs,
                          joinResultSize, joinPosition, execute, merge);
      && e2.binding.client == loaded.client
      && e2.binding.request.value.filterList == loaded.request.value.filterList + filters + filters
  {
    var loaded := LazyLoad(b, catalog, d.indexName, d.queryTemplate).binding;
    var e1 := ApplySpec(d, filters, outerCollector, b, catalog, searchRequest, reader, docs,
                        joinResultSize, joinPosition, execute, merge);
    ApplyConfiguresForeignRequest(d, filters, outerCollector, b, catalog, searchRequest, reader, docs,
                                  joinResultSize, joinPosition, execute, merge);
    assert LazyLoad(e1.binding, catalog, d.indexName, d.queryTemplate) == Loaded(e1.binding, Pass);
    ApplyConfiguresForeignRequest(d, filters, outerCollector, e1.binding, catalog, searchRequest, reader, docs,
                                  joinResultSize, joinPosition, execute, merge);
  }
}
