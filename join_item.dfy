/** One join definition of a cross-index search join (`JoinItem`). */
module JoinItems {
  import opened Wrappers
  import opened JavaLang
  import opened JoinTypes
  import opened Collaborators
  import opened JoinConfig
  import opened JoinOrder
  import opened ForeignBinding
  import opened JoinOrchestration

  /** The request-parameter key of the join at `position`: "jq" then the decimal position. */
  function ParamKey(position: int): (k: string)
    ensures |k| >= 3 && k[..2] == "jq"
    ensures ParseDecimal(k[2..]) == Some(position)
  {
    var k := "jq" + IntegerToString(position);
    assert k[2..] == IntegerToString(position);
    IntegerToStringRoundTrip(position);
    k
  }

  /** Distinct positions get distinct parameter keys, 0 and negatives included. */
  lemma ParamKeyInjective(p: int, q: int)
    ensures ParamKey(p) == ParamKey(q) ==> p == q
  {
  }

  /** The scalar state `copyTo` transfers: the serialised fields, the filters and the position pair. */
  datatype ItemState = ItemState(
    definition: JoinDefinition,
    filterList: seq<Filter>,
    position: Int32,
    paramPosition: JString)

  class JoinItem {
    var indexName: JString
    var queryTemplate: JString
    var filterList: seq<Filter>
    var queryString: JString
    var localField: JString
    var foreignField: JString
    var position: Int32
    var paramPosition: JString
    var returnFields: bool
    var returnScores: bool
    var returnFacets: bool
    var joinType: JoinType
    // transient
    var outerCollector: Option<OuterCollector>
    var foreignClient: Option<Client>
    var foreignSearchRequest: Option<SearchRequest>

    /** The parameter key is unset, or is the key of the current position. */
    ghost predicate Valid()
      reads this
    {
      paramPosition.None? || paramPosition == Some(ParamKey(position))
    }

    function Definition(): JoinDefinition
      reads this
    {
      JoinDefinition(indexName, queryTemplate, queryString, localField, foreignField,
                     returnFields, returnScores, returnFacets, joinType)
    }

    function State(): ItemState
      reads this
    {
      ItemState(Definition(), filterList, position, paramPosition)
    }

    function CurrentBinding(): Binding
      reads this
    {
      Binding(foreignClient, foreignSearchRequest)
    }

    function NullableKeyOf(): NullableKey
      reads this
    {
      NullableKey(indexName, queryTemplate, queryString, localField, foreignField)
    }

    /** Whether the five fields `compareTo` dereferences are non-null. */
    predicate HasSortKey()
      reads this
    {
      Present(NullableKeyOf())
    }

    function Key(): SortKey
      reads this
      requires HasSortKey()
    {
      KeyOf(NullableKeyOf())
    }

    /** The default constructor: nothing set, INNER, no filters, position 0 without a parameter key. */
    constructor ()
      ensures Valid()
      ensures Definition() == JoinDefinition(None, None, None, None, None, false, false, false, INNER)
      ensures filterList == [] && position == 0 && paramPosition == None
      ensures outerCollector == None && CurrentBinding() == Binding(None, None)
    {
      indexName := None;
      queryTemplate := None;
      queryString := None;
      localField := None;
      foreignField := None;
      position := 0;
      paramPosition := None;
      returnFields := false;
      returnScores := false;
      returnFacets := false;
      joinType := INNER;
      filterList := [];
      outerCollector := None;
      foreignSearchRequest := None;
      foreignClient := None;
    }

    /** The copy constructor: the source's scalar state, and no transient bindings. */
    constructor Copy(source: JoinItem)
      requires source.Valid()
      ensures Valid() && State() == source.State()
      ensures outerCollector == None && CurrentBinding() == Binding(None, None)
    {
      indexName := None;
      queryTemplate := None;
      queryString := None;
      localField := None;
      foreignField := None;
      position := 0;
      paramPosition := None;
      returnFields := false;
      returnScores := false;
      returnFacets := false;
      joinType := INNER;
      filterList := [];
      outerCollector := None;
      foreignSearchRequest := None;
      foreignClient := None;
      new;
      source.CopyTo(this);
    }

    /**
     * `copyTo`: every scalar field of `target` takes this item's value and
     * `target` gets its own filter list with the same contents; the target's
     * transient bindings are left as they were.
     */
    method CopyTo(target: JoinItem)
      requires Valid()
      modifies target
      ensures target.State() == old(State())
      ensures target.Valid()
      ensures target.outerCollector == old(target.outerCollector)
      ensures target.CurrentBinding() == old(target.CurrentBinding())
    {
      target.indexName := indexName;
      target.queryTemplate := queryTemplate;
      target.queryString := queryString;
      target.localField := localField;
      target.foreignField := foreignField;
      target.position := position;
      target.paramPosition := paramPosition;
      target.returnFields := returnFields;
      target.returnScores := returnScores;
      target.returnFacets := returnFacets;
      target.joinType := joinType;
      target.filterList := filterList;
    }

    /** The XML constructor: the parsed fields, no filters, the default position and no bindings. */
    constructor FromXml(node: XmlElement)
      ensures Valid()
      ensures Definition() == ParseXmlConfig(node)
      ensures filterList == [] && position == 0 && paramPosition == None
      ensures outerCollector == None && CurrentBinding() == Binding(None, None)
    {
      indexName := AttributeString(node, AttrIndexName);
      queryTemplate := AttributeString(node, AttrQueryTemplate);
      queryString := Some(node.text);
      localField := AttributeString(node, AttrLocalField);
      foreignField := AttributeString(node, AttrForeignField);
      returnFields := ParseBoolean(AttributeString(node, AttrReturnFields));
      returnScores := ParseBoolean(AttributeString(node, AttrReturnScores));
      returnFacets := ParseBoolean(AttributeString(node, AttrReturnFacets));
      joinType := Find(AttributeString(node, AttrType));
      filterList := [];
      position := 0;
      paramPosition := None;
      outerCollector := None;
      foreignClient := None;
      foreignSearchRequest := None;
    }

    /**
     * `writeXmlConfig`: the element written, which the XML constructor reads
     * back to the same definition, a null query string becoming "".
     */
    function XmlConfig(): (e: XmlElement)
      reads this
      ensures e.name == NodeNameJoin
      ensures ParseXmlConfig(e) == Definition().(queryString := Some(queryString.GetOr("")))
    {
      ConfigRoundTrip(Definition());
      WriteXmlConfig(Definition())
    }

    method SetIndexName(indexName: JString)
      modifies this`indexName
      ensures this.indexName == indexName
    {
      this.indexName := indexName;
    }

    method SetQueryTemplate(queryTemplate: JString)
      modifies this`queryTemplate
      ensures this.queryTemplate == queryTemplate
    {
      this.queryTemplate := queryTemplate;
    }

    method SetQueryString(queryString: JString)
      modifies this`queryString
      ensures this.queryString == queryString
    {
      this.queryString := queryString;
    }

    method SetLocalField(localField: JString)
      modifies this`localField
      ensures this.localField == localField
    {
      this.localField := localField;
    }

    method SetForeignField(foreignField: JString)
      modifies this`foreignField
      ensures this.foreignField == foreignField
    {
      this.foreignField := foreignField;
    }

    method SetOuterCollector(outerCollector: Option<OuterCollector>)
      modifies this`outerCollector
      ensures this.outerCollector == outerCollector
    {
      this.outerCollector := outerCollector;
    }

    method SetReturnFields(returnFields: bool)
      modifies this`returnFields
      ensures this.returnFields == returnFields
    {
      this.returnFields := returnFields;
    }

    method SetReturnScores(returnScores: bool)
      modifies this`returnScores
      ensures this.returnScores == returnScores
    {
      this.returnScores := returnScores;
    }

    method SetReturnFacets(returnFacets: bool)
      modifies this`returnFacets
      ensures this.returnFacets == returnFacets
    {
      this.returnFacets := returnFacets;
    }

    method SetType(joinType: JoinType)
      modifies this`joinType
      ensures this.joinType == joinType
    {
      this.joinType := joinType;
    }

    /**
     * `compareTo`: `None` stands for the `NullPointerException` thrown at the
     * first null field the comparison reaches; with all five fields present
     * it is the total order `CompareKeys`.
     */
    function CompareTo(o: JoinItem): (r: Option<int>)
      reads this, o
      ensures r == Some(0) <==> HasSortKey() && o.HasSortKey() && Key() == o.Key()
      ensures HasSortKey() && o.HasSortKey() ==> r == Some(CompareKeys(Key(), o.Key()))
      ensures indexName.Some? && o.indexName.Some? && indexName != o.indexName ==>
        r == Some(CompareStrings(indexName.value, o.indexName.value))
      ensures indexName.None? || o.indexName.None? ==> r.None?
    {
      CompareNullableKeys(NullableKeyOf(), o.NullableKeyOf())
    }

    /** `setParamPosition`: sets the position and derives its parameter key. */
    method SetParamPosition(position: Int32)
      modifies this`position, this`paramPosition
      ensures this.position == position && paramPosition == Some(ParamKey(position))
      ensures Valid()
    {
      this.position := position;
      paramPosition := Some("jq" + IntegerToString(position));
    }

    /** `lazyLoadForeignSearchRequest`: fills the empty binding slots, failing fast. */
    method LazyLoadForeignSearchRequest(catalog: Catalog) returns (outcome: Outcome<JoinError>)
      modifies this`foreignClient, this`foreignSearchRequest
      ensures Loaded(CurrentBinding(), outcome) == LazyLoad(old(CurrentBinding()), catalog, indexName, queryTemplate)
    {
      if foreignClient.None? {
        var client := GetForeignClient(catalog, indexName);
        if client.Failure? {
          return Fail(client.error);
        }
        foreignClient := Some(client.value);
      }
      if foreignSearchRequest.None? {
        var request := GetForeignSearchRequest(foreignClient.value, queryTemplate);
        if request.Failure? {
          return Fail(request.error);
        }
        foreignSearchRequest := Some(request.value);
      }
      return Pass;
    }

    /** The loop of `apply` that adds each filter, in order, to the cached foreign request's own filter list. */
    method AppendFiltersToForeignRequest()
      requires foreignSearchRequest.Some?
      modifies this`foreignSearchRequest
      ensures foreignSearchRequest ==
        Some(old(foreignSearchRequest.value).(filterList := old(foreignSearchRequest.value.filterList) + filterList))
    {
      ghost var configured := foreignSearchRequest.value;
      var i := 0;
      assert configured.filterList + filterList[..0] == configured.filterList;
      while i < |filterList|
        invariant 0 <= i <= |filterList|
        invariant foreignSearchRequest == Some(configured.(filterList := configured.filterList + filterList[..i]))
      {
        var request := foreignSearchRequest.value;
        assert request.filterList == configured.filterList + filterList[..i];
        assert filterList[..i + 1] == filterList[..i] + [filterList[i]];
        assert request.filterList + [filterList[i]] == configured.filterList + filterList[..i + 1];
        foreignSearchRequest := Some(request.(filterList := request.filterList + [filterList[i]]));
        i := i + 1;
      }
      assert filterList[..i] == filterList;
    }

    /**
     * `apply`: runs the foreign search for this join and merges it with the
     * local documents; its effects are those of `ApplySpec`.
     */
    method Apply(searchRequest: SearchRequest, reader: Reader, docs: DocSet, joinResultSize: int,
                 joinResult: JoinResult, joinFacets: JoinFacetList, catalog: Catalog,
                 execute: (Client, SearchRequest) -> Option<ResultSearch>,
                 merge: MergeCall -> Option<DocSet>)
      returns (r: Result<DocSet, JoinError>)
      modifies this`foreignClient, this`foreignSearchRequest, joinResult`foreignResult, joinFacets`facets
      ensures var e := ApplySpec(Definition(), filterList, outerCollector, old(CurrentBinding()), catalog,
                                 searchRequest, reader, docs, joinResultSize, joinResult.joinPosition,
                                 execute, merge);
        && r == e.result
        && CurrentBinding() == e.binding
        && joinResult.foreignResult == (if e.recorded.Some? then e.recorded else old(joinResult.foreignResult))
        && joinFacets.facets == old(joinFacets.facets) + e.newFacets
    {
      var localStringIndex := reader.getStringIndex(localField);
      if localStringIndex.NotIndexed? {
        return Failure(NoLocalStringIndex(localField));
      } else if localStringIndex.ReadFailed? {
        return Failure(IoFailure);
      }
      var loaded := LazyLoadForeignSearchRequest(catalog);
      if loaded.Fail? {
        return Failure(loaded.error);
      }
      foreignSearchRequest := Some(foreignSearchRequest.value.(start := 0));
      foreignSearchRequest := Some(foreignSearchRequest.value.(rows := 0));
      foreignSearchRequest := Some(foreignSearchRequest.value.(users := searchRequest.users));
      foreignSearchRequest := Some(foreignSearchRequest.value.(groups := searchRequest.groups));
      foreignSearchRequest := Some(foreignSearchRequest.value.(queryString := queryString));
      AppendFiltersToForeignRequest();
      var resultSearch := execute(foreignClient.value, foreignSearchRequest.value);
      if resultSearch.None? {
        return Failure(IoFailure);
      }
      joinResult.foreignResult := Some(resultSearch.value);
      if foreignSearchRequest.value.facet {
        if returnFacets {
          var facet := JoinFacet(joinResult.joinPosition, foreignSearchRequest.value.facetFieldList, resultSearch.value);
          joinFacets.facets := joinFacets.facets + [facet];
        }
        foreignSearchRequest := Some(foreignSearchRequest.value.(facetFieldList := []));
      }
      var foreignReader := resultSearch.value.reader;
      var foreignFieldIndex := foreignReader.getStringIndex(foreignField);
      if foreignFieldIndex.NotIndexed? {
        return Failure(NoForeignStringIndex(foreignField));
      } else if foreignFieldIndex.ReadFailed? {
        return Failure(IoFailure);
      }
      var joinDocs := merge(MergeCall(docs, localStringIndex.index, resultSearch.value.docs,
                                      foreignFieldIndex.index, joinResultSize, joinResult.joinPosition,
                                      joinType, outerCollector, foreignReader));
      if joinDocs.None? {
        return Failure(IoFailure);
      }
      return Success(joinDocs.value);
    }

    /**
     * `setFromServlet`: the parameter `prefix + paramPosition`, when present,
     * replaces the query string; filters are bound under that key plus ".";
     * then the foreign request is bound and takes its own parameters.
     */
    method SetFromServlet(transaction: ServletTransaction, prefix: JString, catalog: Catalog,
                          addFromServlet: (ServletTransaction, string) -> Option<seq<Filter>>,
                          requestFromServlet: (SearchRequest, ServletTransaction, string) -> Option<SearchRequest>)
      returns (outcome: Outcome<JoinError>)
      modifies this`queryString, this`filterList, this`foreignClient, this`foreignSearchRequest
      ensures var key := FastConcat(prefix, paramPosition);
        queryString == (if key in transaction.parameters then Some(transaction.parameters[key]) else old(queryString))
      ensures var filterPrefix := FastConcat(prefix, paramPosition) + ".";
        var added := addFromServlet(transaction, filterPrefix);
        var loaded := LazyLoad(old(CurrentBinding()), catalog, indexName, queryTemplate);
        && filterList == old(filterList) + added.GetOr([])
        && (added.None? ==> outcome == Fail(ParameterError) && CurrentBinding() == old(CurrentBinding()))
        && (added.Some? && loaded.outcome.Fail? ==> outcome == loaded.outcome && CurrentBinding() == loaded.binding)
        && (added.Some? && loaded.outcome.Pass? ==>
              var bound := requestFromServlet(loaded.binding.request.value, transaction, filterPrefix);
              && foreignClient == loaded.binding.client
              && outcome == (if bound.Some? then Pass else Fail(ParameterError))
              && foreignSearchRequest == (if bound.Some? then bound else loaded.binding.request))
    {
      var myPrefix := FastConcat(prefix, paramPosition);
      var q := ParameterString(transaction, myPrefix);
      if q.Some? {
        SetQueryString(q);
      }
      myPrefix := myPrefix + ".";
      var added := addFromServlet(transaction, myPrefix);
      if added.None? {
        return Fail(ParameterError);
      }
      filterList := filterList + added.value;
      outcome := LazyLoadForeignSearchRequest(catalog);
      if outcome.Fail? {
        return;
      }
      var bound := requestFromServlet(foreignSearchRequest.value, transaction, myPrefix);
      if bound.None? {
        return Fail(ParameterError);
      }
      foreignSearchRequest := bound;
    }

    /** `setParam`: a non-null value replaces the query string; null leaves it unchanged. */
    method SetParam(param: JString)
      modifies this`queryString
      ensures queryString == if param.Some? then param else old(queryString)
    {
      if param.Some? {
        SetQueryString(param);
      }
    }
  }
}
