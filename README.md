# JoinItem: one join definition of a cross-index search join

This project models `JoinItem`, the join definition of OpenSearchServer's
cross-index join. A search that runs against a local index can carry joins.
Each join names a foreign index (`indexName`) and optionally a query template
there (`queryTemplate`). It carries a query string, the two correlated fields
(`localField`, `foreignField`), a list of filters, the join type (INNER or
OUTER) and three return flags. It also has a position in the join pipeline and
the request-parameter key derived from that position (`"jq" + position`).

At run time a `JoinItem` binds itself lazily, and only once, to the foreign
index's client and to a foreign search request (two transient slots). Its
`apply` prepares that foreign request, runs the foreign search, records the
result, captures and clears facets, and hands everything to the join merge.
Request parameters can overwrite its query string and add filters. It is
saved to and loaded from a `join` XML element.

Modules (one file each):

- `Wrappers` (`wrappers.dfy`): `Option` for Java `null`, and `Result`/`Outcome` for calls that can throw.
- `JavaLang` (`java_lang.dfy`): the `java.lang` behaviour the class relies on. This covers `equalsIgnoreCase`, `Integer.toString`, `Boolean.toString`/`parseBoolean` and `String.compareTo`.
- `JoinTypes` (`join_type.dfy`): the nested `JoinType` enum, with `find` and `getLabel`.
- `Collaborators` (`collaborators.dfy`): the external pieces, reduced to the interface the class uses. These are filters, the client catalog, clients and their templates, readers and their string indexes, search results, the merge call, servlet parameters, `JoinResult` and the facet list.
- `JoinConfig` (`join_config.dfy`): the XML form, as an attribute map plus text.
- `JoinOrder` (`join_order.dfy`): the order `compareTo` defines.
- `ForeignBinding` (`foreign_binding.dfy`): the lazy two-slot binding, as pure functions.
- `JoinOrchestration` (`join_orchestration.dfy`): what one `apply` does, as a pure function of the state before it.
- `JoinItems` (`join_item.dfy`): the `JoinItem` class. Its fields are updated in place by methods, each proved against the functions above.

The external collaborators appear as parameters:
- client catalog: a map from index name to client;
- template lookup: a map inside each client;
- string-index lookup of a reader: a function field;
- foreign search execution (`execute`) and the join merge (`merge`): function parameters;
- servlet binders for filters and for the foreign request: function parameters.

## Model

| member | source | states |
|---|---|---|
| JoinTypes.Find | src/main/java/com/jaeksoft/searchlib/join/JoinItem.java:66-71 | `find` never fails. It yields OUTER exactly when the name equals "OUTER" ignoring case, and INNER for every other input, null and unknown labels included |
| JoinTypes.FindIn | src/main/java/com/jaeksoft/searchlib/join/JoinItem.java:67-70 | the search loop returns INNER or a constant of the list whose name matches ignoring case, and it returns a matching constant whenever the list has one |
| JoinTypes.JoinType.Label | src/main/java/com/jaeksoft/searchlib/join/JoinItem.java:64-75 | `getLabel()` equals the name ignoring case and contains no capital letter |
| JoinTypes.FindName | src/main/java/com/jaeksoft/searchlib/join/JoinItem.java:66-71 | `find(t.name()) == t` for both constants, so the uppercase name written to the configuration reads back |
| JoinTypes.FindLabel | src/main/java/com/jaeksoft/searchlib/join/JoinItem.java:64-75 | `find(t.getLabel()) == t`: the lower-case label reads back to the same constant |
| JavaLang.ParseBoolean | src/main/java/com/jaeksoft/searchlib/join/JoinItem.java:153-158 | a flag attribute parses to true exactly when it is "true" in any case; null and anything else give false |
| JavaLang.ParseBooleanRoundTrip | src/main/java/com/jaeksoft/searchlib/join/JoinItem.java:178-180 | `parseBoolean(Boolean.toString(b)) == b`, for the three flags written by `writeXmlConfig` |
| JavaLang.IntegerToStringRoundTrip | src/main/java/com/jaeksoft/searchlib/join/JoinItem.java:283-284 | the decimal form `Integer.toString` gives reads back to the same integer, negatives and 0 included |
| JavaLang.CompareStringsZeroIff | src/main/java/com/jaeksoft/searchlib/join/JoinItem.java:268-277 | `String.compareTo` on one field returns 0 exactly on equal strings |
| JavaLang.CompareStringsAntisymmetric | src/main/java/com/jaeksoft/searchlib/join/JoinItem.java:268-277 | swapping the operands of `String.compareTo` negates the result |
| JavaLang.CompareStringsTransitive | src/main/java/com/jaeksoft/searchlib/join/JoinItem.java:268-277 | the order `String.compareTo` defines is transitive |
| JoinConfig.WriteXmlConfig | src/main/java/com/jaeksoft/searchlib/join/JoinItem.java:174-184 | writes a `join` element whose text is the query string |
| JoinConfig.ParseXmlConfig | src/main/java/com/jaeksoft/searchlib/join/JoinItem.java:145-162 | each of the three flags is true exactly when its attribute is present and reads "true" in any case, so missing or unparsable values give false. The type is OUTER exactly when the `type` attribute is "outer" in any case, otherwise INNER. The element text becomes the query string |
| JoinConfig.ConfigRoundTrip | src/main/java/com/jaeksoft/searchlib/join/JoinItem.java:145-184 | parsing what `writeXmlConfig` wrote recovers every string field, the three flags and the join type. The one exception is a null query string, which comes back as "" |
| JoinConfig.ParseWriteParse | src/main/java/com/jaeksoft/searchlib/join/JoinItem.java:145-162 | parsing normalises: writing a parsed element and parsing again changes nothing |
| JoinOrder.CompareKeys | src/main/java/com/jaeksoft/searchlib/join/JoinItem.java:266-279 | with all five fields non-null, `compareTo` is 0 exactly when indexName, queryTemplate, queryString, localField and foreignField are all equal |
| JoinOrder.CompareNullableKeys | src/main/java/com/jaeksoft/searchlib/join/JoinItem.java:266-279 | `compareTo` over possibly-null fields. It is 0 exactly when all five fields are present and equal, and it equals `CompareKeys` when all are present. A differing non-null `indexName` decides the result whatever the later fields hold. A null `indexName` on either side throws |
| JoinOrder.CompareKeysFirstDifference | src/main/java/com/jaeksoft/searchlib/join/JoinItem.java:266-279 | `compareTo` returns the string comparison of the first of the five fields, in priority order, on which the items differ |
| JoinOrder.CompareKeysAntisymmetric | src/main/java/com/jaeksoft/searchlib/join/JoinItem.java:266-279 | `a.compareTo(b) == -b.compareTo(a)` |
| JoinOrder.CompareKeysTransitive | src/main/java/com/jaeksoft/searchlib/join/JoinItem.java:266-279 | `a < b` and `b < c` give `a < c`, so together with the two rows above `compareTo` is a total order |
| ForeignBinding.GetForeignClient | src/main/java/com/jaeksoft/searchlib/join/JoinItem.java:355-360 | succeeds exactly when the catalog knows the index name, with that client; otherwise it fails with "No client found" |
| ForeignBinding.GetForeignSearchRequest | src/main/java/com/jaeksoft/searchlib/join/JoinItem.java:362-374 | an empty or null template name gives a fresh field search. Otherwise a missing template fails with "not found", a non-search template fails with "not a Search request", and a search template is returned |
| ForeignBinding.LazyLoad | src/main/java/com/jaeksoft/searchlib/join/JoinItem.java:376-381 | on success both slots are filled. An empty client slot is filled with the catalog's client for the index name. An empty request slot is filled with the result of `getForeignSearchRequest` on the bound client, and its error is the call's error. A filled slot is never recomputed, and with both filled nothing changes. An unknown index fails with the client slot left empty. A request failure after a client lookup keeps the client |
| ForeignBinding.LazyLoadEmptyTemplate | src/main/java/com/jaeksoft/searchlib/join/JoinItem.java:364-365 | an unbound item with a known index and an empty template name binds the client and a fresh field search |
| ForeignBinding.LazyLoadTemplateErrors | src/main/java/com/jaeksoft/searchlib/join/JoinItem.java:366-373 | a missing template fails with "not found" and a non-search template with "not a Search request"; either way the request slot stays empty |
| ForeignBinding.LazyLoadIdempotent | src/main/java/com/jaeksoft/searchlib/join/JoinItem.java:376-381 | after a successful binding, a second call passes and changes nothing |
| JoinOrchestration.ConfigureForeignRequest | src/main/java/com/jaeksoft/searchlib/join/JoinItem.java:395-401 | the prepared foreign request has start 0, rows 0, the caller's users and groups, and the item's query string. Its filter list is its old list followed by the item's filters. Kind and facet settings are unchanged |
| JoinOrchestration.ApplySpec | src/main/java/com/jaeksoft/searchlib/join/JoinItem.java:383-433 | without a local string index the binding is untouched and the call fails. When no foreign result is recorded, no facet entry is added and the call fails. A successful call has both slots bound and a recorded result. At most one facet entry is added, only when `returnFacets` is set, and it is tagged with the join position |
| JoinOrchestration.ApplyFailsFastOnLocalField | src/main/java/com/jaeksoft/searchlib/join/JoinItem.java:388-394 | without a local string index, `apply` fails before any binding, request change, result recording or facet capture |
| JoinOrchestration.ApplyConfiguresForeignRequest | src/main/java/com/jaeksoft/searchlib/join/JoinItem.java:394-401 | once bound, the cached request ends with start 0, rows 0, the caller's users and groups, and the query string. Its filters grow by exactly the item's filters, in order, whatever the search does next |
| JoinOrchestration.ApplyFacetRule | src/main/java/com/jaeksoft/searchlib/join/JoinItem.java:402-422 | a failed search records nothing. Otherwise the result is recorded. One facet entry is added exactly when the request computes facets and `returnFacets` is set. The facet field list is emptied when facets are computed and left alone otherwise. A missing foreign string index fails after the result is recorded |
| JoinOrchestration.ApplyMergesExactArguments | src/main/java/com/jaeksoft/searchlib/join/JoinItem.java:416-429 | once the local index, the binding, the foreign search and the foreign index have all succeeded, the result is the merge's result over exactly the local documents and index, the foreign documents and index, the row cap, the join position, the join type, the outer collector and the foreign reader; a merge that throws fails the call |
| JoinOrchestration.ApplyTwiceAppendsTwice | src/main/java/com/jaeksoft/searchlib/join/JoinItem.java:400-401 | a second `apply` reuses the cached request and appends the item's filters to it again |
| JoinItems.ParamKey | src/main/java/com/jaeksoft/searchlib/join/JoinItem.java:281-285 | the key starts with "jq" and what follows reads back as the position |
| JoinItems.ParamKeyInjective | src/main/java/com/jaeksoft/searchlib/join/JoinItem.java:281-285 | distinct positions, 0 and negatives included, get distinct parameter keys |
| JoinItems.JoinItem.constructor | src/main/java/com/jaeksoft/searchlib/join/JoinItem.java:108-124 | all strings null, flags false, INNER, no filters, position 0 with no parameter key, no bindings |
| JoinItems.JoinItem.Copy | src/main/java/com/jaeksoft/searchlib/join/JoinItem.java:126-128 | the copy has the source's scalar state and filter contents, and no outer collector, client or request |
| JoinItems.JoinItem.CopyTo | src/main/java/com/jaeksoft/searchlib/join/JoinItem.java:130-143 | every scalar field of the target, position and parameter key included, takes the source's value. The target gets the source's filters as its own list value. The target's transient slots are untouched |
| JoinItems.JoinItem.FromXml | src/main/java/com/jaeksoft/searchlib/join/JoinItem.java:145-162 | the item holds the parsed definition, no filters, position 0 with no key, and no bindings |
| JoinItems.JoinItem.XmlConfig | src/main/java/com/jaeksoft/searchlib/join/JoinItem.java:174-184 | the element written is a `join` element that the XML constructor reads back to the same definition, except that a null query string comes back as "" |
| JoinItems.JoinItem.SetIndexName | src/main/java/com/jaeksoft/searchlib/join/JoinItem.java:197-199 | sets `indexName` and nothing else |
| JoinItems.JoinItem.SetQueryTemplate | src/main/java/com/jaeksoft/searchlib/join/JoinItem.java:212-214 | sets `queryTemplate` and nothing else |
| JoinItems.JoinItem.SetQueryString | src/main/java/com/jaeksoft/searchlib/join/JoinItem.java:227-229 | sets `queryString` and nothing else |
| JoinItems.JoinItem.SetLocalField | src/main/java/com/jaeksoft/searchlib/join/JoinItem.java:242-244 | sets `localField` and nothing else |
| JoinItems.JoinItem.SetForeignField | src/main/java/com/jaeksoft/searchlib/join/JoinItem.java:257-259 | sets `foreignField` and nothing else |
| JoinItems.JoinItem.SetOuterCollector | src/main/java/com/jaeksoft/searchlib/join/JoinItem.java:261-263 | sets the outer collector and nothing else |
| JoinItems.JoinItem.SetReturnFields | src/main/java/com/jaeksoft/searchlib/join/JoinItem.java:306-308 | sets `returnFields` and nothing else |
| JoinItems.JoinItem.SetReturnScores | src/main/java/com/jaeksoft/searchlib/join/JoinItem.java:321-323 | sets `returnScores` and nothing else |
| JoinItems.JoinItem.SetReturnFacets | src/main/java/com/jaeksoft/searchlib/join/JoinItem.java:336-338 | sets `returnFacets` and nothing else |
| JoinItems.JoinItem.SetType | src/main/java/com/jaeksoft/searchlib/join/JoinItem.java:351-353 | sets the join type and nothing else |
| JoinItems.JoinItem.CompareTo | src/main/java/com/jaeksoft/searchlib/join/JoinItem.java:265-279 | `None` stands for the `NullPointerException` at the first null field reached. The result is 0 exactly when the five key fields are non-null and equal, and is the total order `CompareKeys` when all are present. Differing non-null index names decide the result even when later fields are null. Position, flags and type play no part |
| JoinItems.JoinItem.SetParamPosition | src/main/java/com/jaeksoft/searchlib/join/JoinItem.java:281-285 | afterwards `position == p` and the parameter key is "jq" plus the decimal `p`, for every int. The invariant that the key is unset or matches the position is restored |
| JoinItems.JoinItem.LazyLoadForeignSearchRequest | src/main/java/com/jaeksoft/searchlib/join/JoinItem.java:376-381 | the two slots and the outcome after the call are exactly those of `LazyLoad` applied to the slots before |
| JoinItems.JoinItem.AppendFiltersToForeignRequest | src/main/java/com/jaeksoft/searchlib/join/JoinItem.java:400-401 | the loop appends the item's filters, in order, to the cached request's own list. It does not replace that list |
| JoinItems.JoinItem.Apply | src/main/java/com/jaeksoft/searchlib/join/JoinItem.java:383-433 | the result, the binding slots, the recorded foreign result and the caller's facet list after the call are exactly those given by `ApplySpec` |
| JoinItems.JoinItem.SetFromServlet | src/main/java/com/jaeksoft/searchlib/join/JoinItem.java:435-445 | the parameter at `prefix + paramPosition` replaces the query string only when present. Filters bound under that key plus "." are appended. Then the item binds and the foreign request takes its own parameters. Each failure stops the sequence where it occurs |
| JoinItems.JoinItem.SetParam | src/main/java/com/jaeksoft/searchlib/join/JoinItem.java:447-450 | a null parameter leaves the query string unchanged; any other value replaces it |

Where the code and the component's documented intent differ, the model follows the code:
- The position/parameter-key invariant holds only as "no key, or the key of the position". The default and XML constructors leave position 0 with a null key.
- The XML round trip does not recover filters or the position, because neither is written. A null query string does not survive it either: it comes back as "".
- `localField` and `foreignField` are not checked for non-emptiness.

## Left out

- `JoinUtils.join`, the INNER/OUTER merge itself with its row cap and fan-out, is not part of this model. Its call site is modelled: the exact arguments go to an opaque `merge` function, as `JoinOrchestration.ApplyMergesExactArguments` states.
- Foreign search execution, `ClientCatalog`, `ReaderAbstract` and `FieldCacheIndex` are network and index I/O. They are oracle parameters. Every `IOException` becomes the single `IoFailure` error.
- The `(ResultSearchSingle)` cast of the foreign result is not modelled; `execute` returns a search result directly.
- `Timer` instrumentation is left out: it is telemetry with no effect on results.
- `XmlWriter` and `XPathParser` internals are left out. The element is an attribute map plus text, so attribute order is not modelled. A null attribute value is taken to be omitted on writing and read back as null. Element text is read as a string that is never null, "" when the element has none. `textNode(null)` is taken to write no text.
- JoinConfig.ConfigRoundTrip: a null query string reads back as "", not null. The DOM gives "" for an element without text, and the XML constructor never produces a null query string.
- `FilterList.addFromServlet` and the foreign request's `setFromServlet` are library parsing. They are opaque functions that succeed with new filters or a new request, or fail. A partial addition before a failure is not modelled.
- `SearchLibException` and `SyntaxError` from request binding are both reported as `ParameterError`.
- `StringUtils.fastConcat` is not part of this model. A null part is taken to contribute nothing.
- The initial start and rows of a new `SearchFieldRequest` are not part of this model; 0 is used. `apply` overwrites both before every search.
- `isFacet()` is a flag of the request of its own. It is not derived from the facet field list, whose class is not part of this model. The effect is visible: after a faceted `apply` has cleared the facet field list, a second `apply` on the same item still counts as faceted. With `returnFacets` set, it adds a `JoinFacet` with an empty field list. If `isFacet()` is derived from the list, the second call adds nothing.
- `JoinFacet` contents and facet aggregation are left out. An entry records the join position, the facet fields at capture time and the foreign result. The source hands the request's own facet field list object to `new JoinFacet(...)` and clears that list on the next line; the model assumes the `JoinFacet` constructor copies the list, whose class is not part of this model. If it keeps the reference, the entry's field list is empty after `apply`.
- The lazy-binding race between threads is left out; single-threaded use is modelled.
- JoinTypes.Find: `equalsIgnoreCase` is modelled with ASCII case folding only. This does not change the result. No other character folds onto a letter of "OUTER". A character that folds onto "INNER" yields INNER either way, the same as the fallback.
- JoinTypes.JoinType.Label: `toLowerCase` is taken in a locale where "INNER" lower-cases to "inner"; locale-specific lower-casing is not modelled.
- JavaLang.CompareStrings compares Unicode scalar values, while Java compares UTF-16 code units. The two orders differ only for characters outside the Basic Multilingual Plane.
- JoinItems.JoinItem.CompareTo returns `None` where Java throws `NullPointerException`, at the first null field the comparison reaches. The total-order lemmas are stated for items whose five key fields are all non-null.
- JoinItems.JoinItem.SetType: the join type is never null in the model. Java's `setType(null)` and the later `NullPointerException` in `writeXmlConfig` are not modelled.
- The getters only read fields; the model reads the fields directly.
- Filter lists are sequence values, so a copy's list is independent of the source's by construction. The identity of the `FilterList` object is not modelled.
- The caller's `List<JoinFacet>` and `JoinResult` are objects, changed in place by `apply`.
