/**
 * The collaborators a join definition talks to, reduced to the interface it
 * uses: filters, the client catalog, clients and their request templates,
 * index readers and their string indexes, search results, the join merge
 * call, servlet parameters, and the caller's `JoinResult` and facet list.
 */
module Collaborators {
  import opened Wrappers
  import opened JavaLang
  import opened JoinTypes

  /** One search filter (`FilterAbstract`); its contents do not matter here. */
  datatype Filter = Filter(id: nat)

  /** The callback invoked by the merge for unmatched local documents under OUTER. */
  datatype OuterCollector = OuterCollector(id: nat)

  /** A per-document string value lookup for one field (`FieldCacheIndex`). */
  datatype FieldIndex = FieldIndex(id: nat)

  /** A set of document ids (`DocIdInterface`). */
  datatype DocSet = DocSet(ids: seq<nat>)

  /** What `reader.getStringIndex(field)` yields: an index, `null`, or an `IOException`. */
  datatype IndexLookup = Indexed(index: FieldIndex) | NotIndexed | ReadFailed

  /** An index reader (`ReaderAbstract`), seen only through its string-index lookup. */
  datatype Reader = Reader(getStringIndex: JString -> IndexLookup)

  /** The outcome of one search (`ResultSearchSingle`): its documents and the reader they came from. */
  datatype ResultSearch = ResultSearch(docs: DocSet, reader: Reader)

  /** The concrete kind of a search request. */
  datatype SearchKind = FieldSearch | PatternSearch

  /** The part of `AbstractSearchRequest` a join reads or writes. */
  datatype SearchRequest = SearchRequest(
    kind: SearchKind,
    start: int,
    rows: int,
    users: seq<string>,
    groups: seq<string>,
    queryString: JString,
    filterList: seq<Filter>,
    facet: bool,
    facetFieldList: seq<string>)

  /** `new SearchFieldRequest(client)`: a field search with no query, filters or facets. */
  function NewSearchFieldRequest(): SearchRequest {
    SearchRequest(FieldSearch, 0, 0, [], [], None, [], false, [])
  }

  /** A request of any kind (`AbstractRequest`): a search request or some other kind. */
  datatype Request = Search(search: SearchRequest) | NonSearch(kindName: string)

  /** An index client, seen through its named request templates. */
  datatype Client = Client(name: string, templates: map<string, Request>)

  /** `client.getNewRequest(name)`: a copy of the named template, or `null`. */
  function GetNewRequest(client: Client, name: string): Option<Request> {
    if name in client.templates then Some(client.templates[name]) else None
  }

  /** The client catalog (`ClientCatalog.getClient`): index name to client, absent when unknown. */
  type Catalog = map<JString, Client>

  /** The request parameters of a servlet transaction. */
  datatype ServletTransaction = ServletTransaction(parameters: map<string, string>)

  /** `transaction.getParameterString(key)`. */
  function ParameterString(transaction: ServletTransaction, key: string): JString {
    if key in transaction.parameters then Some(transaction.parameters[key]) else None
  }

  /** One facet entry captured from a foreign search, tagged with the join position. */
  datatype JoinFacet = JoinFacet(joinPosition: int, facetFields: seq<string>, result: ResultSearch)

  /** The arguments handed to the join merge (`JoinUtils.join`). */
  datatype MergeCall = MergeCall(
    docs: DocSet,
    localIndex: FieldIndex,
    foreignDocs: DocSet,
    foreignIndex: FieldIndex,
    joinResultSize: int,
    joinPosition: int,
    joinType: JoinType,
    outerCollector: Option<OuterCollector>,
    foreignReader: Reader)

  /** The `SearchLibException`/`SyntaxError` cases, one per message the join raises. */
  datatype JoinError =
    | NoClientFound(indexName: JString)
    | TemplateNotFound(queryTemplate: JString)
    | NotASearchRequest(queryTemplate: JString)
    | NoLocalStringIndex(localField: JString)
    | NoForeignStringIndex(foreignField: JString)
    | IoFailure
    | ParameterError

  /** The caller's record of one join's execution. */
  class JoinResult {
    const joinPosition: int
    var foreignResult: Option<ResultSearch>

    constructor (joinPosition: int)
      ensures this.joinPosition == joinPosition && foreignResult == None
    {
      this.joinPosition := joinPosition;
      foreignResult := None;
    }
  }

  /** The caller's list of facet entries collected across joins. */
  class JoinFacetList {
    var facets: seq<JoinFacet>

    constructor ()
      ensures facets == []
    {
      facets := [];
    }
  }
}
