/**
 * The lazy, memoised binding of a join definition to its foreign client and
 * foreign search request (`getFogeignClient`, `getForeignSearchRequest`,
 * `lazyLoadForeignSearchRequest`).
 */
module ForeignBinding {
  import opened Wrappers
  import opened JavaLang
  import opened Collaborators

  /** The two transient slots: the foreign client and the cached foreign search request. */
  datatype Binding = Binding(client: Option<Client>, request: Option<SearchRequest>)

  /** The slots after a binding attempt, and whether it threw. */
  datatype Loaded = Loaded(binding: Binding, outcome: Outcome<JoinError>)

  /** `getFogeignClient`: the catalog's client for `indexName`, or "No client found". */
  function GetForeignClient(catalog: Catalog, indexName: JString): (r: Result<Client, JoinError>)
    ensures r.Success? <==> indexName in catalog
    ensures r.Success? ==> r.value == catalog[indexName]
    ensures r.Failure? ==> r.error == NoClientFound(indexName)
  {
    if indexName in catalog then Success(catalog[indexName]) else Failure(NoClientFound(indexName))
  }

  /**
   * `getForeignSearchRequest`: a fresh field search when the template name is
   * empty, otherwise the named template, which must exist and be a search
   * request.
   */
  function GetForeignSearchRequest(client: Client, queryTemplate: JString): (r: Result<SearchRequest, JoinError>)
    ensures IsEmpty(queryTemplate) ==> r == Success(NewSearchFieldRequest())
    ensures !IsEmpty(queryTemplate) && queryTemplate.value !in client.templates ==>
      r == Failure(TemplateNotFound(queryTemplate))
    ensures !IsEmpty(queryTemplate) && queryTemplate.value in client.templates ==>
      match client.templates[queryTemplate.value]
      case Search(s) => r == Success(s)
      case NonSearch(_) => r == Failure(NotASearchRequest(queryTemplate))
  {
    var foreignRequest: Option<Request> :=
      if IsEmpty(queryTemplate) then Some(Search(NewSearchFieldRequest()))
      else GetNewRequest(client, queryTemplate.value);
    match foreignRequest
    case None => Failure(TemplateNotFound(queryTemplate))
    case Some(NonSearch(_)) => Failure(NotASearchRequest(queryTemplate))
    case Some(Search(s)) => Success(s)
  }

  /** The request half of `lazyLoadForeignSearchRequest`, once a client is bound. */
  function LoadRequest(b: Binding, queryTemplate: JString): Loaded
    requires b.client.Some?
  {
    if b.request.Some? then Loaded(b, Pass)
    else match GetForeignSearchRequest(b.client.value, queryTemplate)
      case Failure(e) => Loaded(b, Fail(e))
      case Success(r) => Loaded(b.(request := Some(r)), Pass)
  }

  /**
   * `lazyLoadForeignSearchRequest`: fills each empty slot in turn, failing
   * fast. A filled slot is never recomputed; on success both are filled; a
   * failed client lookup leaves the client slot empty.
   */
  function LazyLoad(b: Binding, catalog: Catalog, indexName: JString, queryTemplate: JString): (l: Loaded)
    ensures l.outcome.Pass? ==> l.binding.client.Some? && l.binding.request.Some?
    ensures b.client.Some? ==> l.binding.client == b.client
    ensures b.request.Some? ==> l.binding.request == b.request
    ensures b.client.Some? && b.request.Some? ==> l == Loaded(b, Pass)
    ensures b.client.None? && indexName !in catalog ==> l == Loaded(b, Fail(NoClientFound(indexName)))
    ensures l.outcome.Fail? && b.client.None? && indexName in catalog ==>
      l.binding.client == Some(catalog[indexName]) && l.binding.request == b.request
    ensures b.client.None? && indexName in catalog ==> l.binding.client == Some(catalog[indexName])
    ensures b.request.None? && l.binding.client.Some? ==>
      match GetForeignSearchRequest(l.binding.client.value, queryTemplate)
      case Success(r) => l.outcome.Pass? && l.binding.request == Some(r)
      case Failure(e) => l.outcome == Fail(e) && l.binding.request.None?
  {
    if b.client.Some? then LoadRequest(b, queryTemplate)
    else match GetForeignClient(catalog, indexName)
      case Failure(e) => Loaded(b, Fail(e))
      case Success(c) => LoadRequest(b.(client := Some(c)), queryTemplate)
  }

  /** With an empty template name and a known index, an unbound definition gets a fresh field search. */
  lemma LazyLoadEmptyTemplate(catalog: Catalog, indexName: JString, queryTemplate: JString)
    requires indexName in catalog && IsEmpty(queryTemplate)
    ensures LazyLoad(Binding(None, None), catalog, indexName, queryTemplate)
      == Loaded(Binding(Some(catalog[indexName]), Some(NewSearchFieldRequest())), Pass)
  {
  }

  /** A named template that is missing, or is not a search request, makes the binding fail. */
  lemma LazyLoadTemplateErrors(b: Binding, catalog: Catalog, indexName: JString, queryTemplate: JString)
    requires b.request.None? && (b.client.Some? || indexName in catalog)
    requires !IsEmpty(queryTemplate)
    ensures var client := if b.client.Some? then b.client.value else catalog[indexName];
      var l := LazyLoad(b, catalog, indexName, queryTemplate);
      && (queryTemplate.value !in client.templates ==> l.outcome == Fail(TemplateNotFound(queryTemplate)))
      && (queryTemplate.value in client.templates && client.templates[queryTemplate.value].NonSearch? ==>
            l.outcome == Fail(NotASearchRequest(queryTemplate)))
      && (l.outcome.Fail? ==> l.binding.request.None?)
  {
  }

  /** Binding is idempotent: once it has succeeded, a second call changes nothing. */
  lemma LazyLoadIdempotent(b: Binding, catalog: Catalog, indexName: JString, queryTemplate: JString)
    requires LazyLoad(b, catalog, indexName, queryTemplate).outcome.Pass?
    ensures var b1 := LazyLoad(b, catalog, indexName, queryTemplate).binding;
      LazyLoad(b1, catalog, indexName, queryTemplate) == Loaded(b1, Pass)
  {
  }
}
