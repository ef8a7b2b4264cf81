/** What each client method hands to `request`: the endpoint, with the query
    built from the caller's parameters, and the fetch options
    (src/api/client.ts:69-201). A parameter is sent only when it is truthy in
    JavaScript's sense. */
module ClientRequests {
  import opened Wrappers
  import opened JsText
  import opened SearchParams

  /** The JSON bodies of the two POST endpoints (serialisation not modelled). */
  datatype RequestBody =
    | PaperIds(ids: seq<string>)
    | RecommendationSeeds(positivePaperIds: seq<string>, negativePaperIds: seq<string>)

  /** The `RequestInit` passed to `request`; absent headers are the empty map,
      which the spread in `request` treats alike. */
  datatype RequestOptions = RequestOptions(httpMethod: Option<string>, body: Option<RequestBody>, headers: map<string, string>)

  const NoOptions := RequestOptions(None, None, map[])

  /** `request(endpoint, options)`, not yet sent. */
  datatype ApiCall = ApiCall(endpoint: string, options: RequestOptions)

  /** `if (s)` on an optional string: absent and "" are falsy. */
  function StringParam(o: Option<string>): (v: Option<string>)
    ensures v.Some? <==> o.Some? && o.value != ""
    ensures v.Some? ==> v.value == o.value
  {
    if o.Some? && o.value != "" then o else None
  }

  /** `if (n) ...set(k, String(n))`: absent and 0 are falsy. */
  function NumberParam(o: Option<int>): (v: Option<string>)
    ensures v.Some? <==> o.Some? && o.value != 0
    ensures v.Some? ==> IsNumeral(v.value) && ParseInt(v.value) == o.value
  {
    if o.Some? && o.value != 0 then IntToStringRoundTrip(o.value); Some(IntToString(o.value)) else None
  }

  /** `if (b) ...set(k, 'true')`. */
  function FlagParam(o: Option<bool>): (v: Option<string>)
    ensures v.Some? <==> o == Some(true)
    ensures v.Some? ==> v.value == "true"
  {
    if o == Some(true) then Some("true") else None
  }

  /** `if (xs?.length) ...set(k, xs.join(','))`: absent and [] are falsy. */
  function ListParam(o: Option<seq<string>>): (v: Option<string>)
    ensures v.Some? <==> o.Some? && |o.value| > 0
    ensures v.Some? && (forall i :: 0 <= i < |o.value| ==> NoComma(o.value[i])) ==> Split(v.value) == o.value
  {
    if o.Some? && |o.value| > 0 then
      if forall i :: 0 <= i < |o.value| ==> NoComma(o.value[i]) then SplitJoin(o.value); Some(Join(o.value))
      else Some(Join(o.value))
    else None
  }

  /** One conditional `searchParams.set(name, ...)`. */
  method SetIfTruthy(ps: Params, name: string, v: Option<string>) returns (r: Params)
    requires Get(ps, name).None?
    ensures UniqueNames(ps) ==> UniqueNames(r)
    ensures Get(r, name) == v
    ensures forall other {:trigger Get(r, other)} :: other != name ==> Get(r, other) == Get(ps, other)
  {
    r := ps;
    if v.Some? {
      r := Set(ps, name, v.value);
    }
  }

  datatype PaperSearch = PaperSearch(
    query: string, fields: Option<string>, year: Option<string>, openAccessPdf: Option<bool>,
    minCitationCount: Option<int>, fieldsOfStudy: Option<seq<string>>, limit: Option<int>, offset: Option<int>)

  /** Paging parameters shared by citations, references and author papers. */
  datatype Page = Page(fields: Option<string>, limit: Option<int>, offset: Option<int>)

  datatype AuthorSearch = AuthorSearch(query: string, fields: Option<string>, limit: Option<int>, offset: Option<int>)

  datatype Recommendation = Recommendation(
    positivePaperIds: seq<string>, negativePaperIds: Option<seq<string>>, fields: Option<string>, limit: Option<int>)

  const PaperSearchPath := "/graph/v1/paper/search"
  const AuthorSearchPath := "/graph/v1/author/search"

  /** The only names each query can carry. */
  const PaperSearchNames: set<string> :=
    {"query", "fields", "year", "openAccessPdf", "minCitationCount", "fieldsOfStudy", "limit", "offset"}
  const AuthorSearchNames: set<string> := {"query", "fields", "limit", "offset"}
  const PageNames: set<string> := {"fields", "limit", "offset"}

  /** The query `searchPapers(params)` builds: `query` always, each other
      parameter only when truthy. */
  method SearchPapersQuery(p: PaperSearch) returns (q: Params)
    ensures Get(q, "query") == Some(p.query)
    ensures Get(q, "fields") == StringParam(p.fields) && Get(q, "year") == StringParam(p.year)
    ensures Get(q, "openAccessPdf") == FlagParam(p.openAccessPdf)
    ensures Get(q, "minCitationCount") == NumberParam(p.minCitationCount)
    ensures Get(q, "fieldsOfStudy") == ListParam(p.fieldsOfStudy)
    ensures Get(q, "limit") == NumberParam(p.limit) && Get(q, "offset") == NumberParam(p.offset)
    ensures UniqueNames(q)
    ensures forall k :: k !in PaperSearchNames ==> Get(q, k).None?
  {
    q := Set([], "query", p.query);
    q := SetIfTruthy(q, "fields", StringParam(p.fields));
    q := SetIfTruthy(q, "year", StringParam(p.year));
    q := SetIfTruthy(q, "openAccessPdf", FlagParam(p.openAccessPdf));
    q := SetIfTruthy(q, "minCitationCount", NumberParam(p.minCitationCount));
    q := SetIfTruthy(q, "fieldsOfStudy", ListParam(p.fieldsOfStudy));
    q := SetIfTruthy(q, "limit", NumberParam(p.limit));
    q := SetIfTruthy(q, "offset", NumberParam(p.offset));
  }

  /** `searchPapers(params)`: the `?` is written unconditionally, which is the
      same as the conditional form because the query is never empty. */
  method SearchPapersCall(p: PaperSearch) returns (q: Params, call: ApiCall)
    ensures Get(q, "query") == Some(p.query)
    ensures Get(q, "fields") == StringParam(p.fields) && Get(q, "year") == StringParam(p.year)
    ensures Get(q, "openAccessPdf") == FlagParam(p.openAccessPdf)
    ensures Get(q, "minCitationCount") == NumberParam(p.minCitationCount)
    ensures Get(q, "fieldsOfStudy") == ListParam(p.fieldsOfStudy)
    ensures Get(q, "limit") == NumberParam(p.limit) && Get(q, "offset") == NumberParam(p.offset)
    ensures UniqueNames(q)
    ensures forall k :: k !in PaperSearchNames ==> Get(q, k).None?
    ensures call == ApiCall(PaperSearchPath + "?" + Serialize(q), NoOptions)
    ensures call.endpoint == PaperSearchPath + QuerySuffix(Serialize(q))
  {
    q := SearchPapersQuery(p);
    call := ApiCall(PaperSearchPath + "?" + Serialize(q), NoOptions);
    AlwaysQueried(PaperSearchPath, q);
  }

  /** The query of `getPaper`, `batchGetPapers` and `getAuthor`: `fields` only. */
  method FieldsQuery(fields: Option<string>) returns (q: Params)
    ensures Get(q, "fields") == StringParam(fields)
    ensures q == if StringParam(fields).Some? then [("fields", fields.value)] else []
  {
    q := [];
    if StringParam(fields).Some? {
      q := Set(q, "fields", fields.value);
    }
  }

  /** The query of the paged endpoints: `fields`, `limit`, `offset`, each when truthy. */
  method PageQuery(p: Page) returns (q: Params)
    ensures Get(q, "fields") == StringParam(p.fields)
    ensures Get(q, "limit") == NumberParam(p.limit) && Get(q, "offset") == NumberParam(p.offset)
    ensures UniqueNames(q)
    ensures forall k :: k !in PageNames ==> Get(q, k).None?
  {
    q := SetIfTruthy([], "fields", StringParam(p.fields));
    q := SetIfTruthy(q, "limit", NumberParam(p.limit));
    q := SetIfTruthy(q, "offset", NumberParam(p.offset));
  }

  /** `getPaper(paperId, fields)`. */
  method GetPaperCall(paperId: string, fields: Option<string>) returns (q: Params, call: ApiCall)
    ensures q == if StringParam(fields).Some? then [("fields", fields.value)] else []
    ensures call == ApiCall("/graph/v1/paper/" + paperId + QuerySuffix(Serialize(q)), NoOptions)
    ensures call.endpoint == "/graph/v1/paper/" + paperId <==> StringParam(fields).None?
  {
    q := FieldsQuery(fields);
    call := ApiCall("/graph/v1/paper/" + paperId + QuerySuffix(Serialize(q)), NoOptions);
    SuffixOnlyWhenSet("/graph/v1/paper/" + paperId, q);
  }

  /** `getPaperCitations(paperId, params)`. */
  method GetPaperCitationsCall(paperId: string, p: Page) returns (q: Params, call: ApiCall)
    ensures Get(q, "fields") == StringParam(p.fields)
    ensures Get(q, "limit") == NumberParam(p.limit) && Get(q, "offset") == NumberParam(p.offset)
    ensures UniqueNames(q)
    ensures forall k :: k !in PageNames ==> Get(q, k).None?
    ensures call == ApiCall("/graph/v1/paper/" + paperId + "/citations" + QuerySuffix(Serialize(q)), NoOptions)
    ensures call.endpoint == "/graph/v1/paper/" + paperId + "/citations" <==> q == []
  {
    q := PageQuery(p);
    call := ApiCall("/graph/v1/paper/" + paperId + "/citations" + QuerySuffix(Serialize(q)), NoOptions);
    SuffixOnlyWhenSet("/graph/v1/paper/" + paperId + "/citations", q);
  }

  /** `getPaperReferences(paperId, params)`. */
  method GetPaperReferencesCall(paperId: string, p: Page) returns (q: Params, call: ApiCall)
    ensures Get(q, "fields") == StringParam(p.fields)
    ensures Get(q, "limit") == NumberParam(p.limit) && Get(q, "offset") == NumberParam(p.offset)
    ensures UniqueNames(q)
    ensures forall k :: k !in PageNames ==> Get(q, k).None?
    ensures call == ApiCall("/graph/v1/paper/" + paperId + "/references" + QuerySuffix(Serialize(q)), NoOptions)
    ensures call.endpoint == "/graph/v1/paper/" + paperId + "/references" <==> q == []
  {
    q := PageQuery(p);
    call := ApiCall("/graph/v1/paper/" + paperId + "/references" + QuerySuffix(Serialize(q)), NoOptions);
    SuffixOnlyWhenSet("/graph/v1/paper/" + paperId + "/references", q);
  }

  /** `batchGetPapers(paperIds, fields)`: a POST whose body carries the ids. */
  method BatchGetPapersCall(paperIds: seq<string>, fields: Option<string>) returns (q: Params, call: ApiCall)
    ensures q == if StringParam(fields).Some? then [("fields", fields.value)] else []
    ensures call.endpoint == "/graph/v1/paper/batch" + QuerySuffix(Serialize(q))
    ensures call.options == RequestOptions(Some("POST"), Some(PaperIds(paperIds)), map[])
  {
    q := FieldsQuery(fields);
    call := ApiCall("/graph/v1/paper/batch" + QuerySuffix(Serialize(q)),
                    RequestOptions(Some("POST"), Some(PaperIds(paperIds)), map[]));
  }

  /** The query `searchAuthors(params)` builds. */
  method SearchAuthorsQuery(p: AuthorSearch) returns (q: Params)
    ensures Get(q, "query") == Some(p.query) && Get(q, "fields") == StringParam(p.fields)
    ensures Get(q, "limit") == NumberParam(p.limit) && Get(q, "offset") == NumberParam(p.offset)
    ensures UniqueNames(q)
    ensures forall k :: k !in AuthorSearchNames ==> Get(q, k).None?
  {
    q := Set([], "query", p.query);
    q := SetIfTruthy(q, "fields", StringParam(p.fields));
    q := SetIfTruthy(q, "limit", NumberParam(p.limit));
    q := SetIfTruthy(q, "offset", NumberParam(p.offset));
  }

  /** `searchAuthors(params)`. */
  method SearchAuthorsCall(p: AuthorSearch) returns (q: Params, call: ApiCall)
    ensures Get(q, "query") == Some(p.query) && Get(q, "fields") == StringParam(p.fields)
    ensures Get(q, "limit") == NumberParam(p.limit) && Get(q, "offset") == NumberParam(p.offset)
    ensures UniqueNames(q)
    ensures forall k :: k !in AuthorSearchNames ==> Get(q, k).None?
    ensures call == ApiCall(AuthorSearchPath + "?" + Serialize(q), NoOptions)
    ensures call.endpoint == AuthorSearchPath + QuerySuffix(Serialize(q))
  {
    q := SearchAuthorsQuery(p);
    call := ApiCall(AuthorSearchPath + "?" + Serialize(q), NoOptions);
    AlwaysQueried(AuthorSearchPath, q);
  }

  /** `getAuthor(authorId, fields)`. */
  method GetAuthorCall(authorId: string, fields: Option<string>) returns (q: Params, call: ApiCall)
    ensures q == if StringParam(fields).Some? then [("fields", fields.value)] else []
    ensures call == ApiCall("/graph/v1/author/" + authorId + QuerySuffix(Serialize(q)), NoOptions)
    ensures call.endpoint == "/graph/v1/author/" + authorId <==> StringParam(fields).None?
  {
    q := FieldsQuery(fields);
    call := ApiCall("/graph/v1/author/" + authorId + QuerySuffix(Serialize(q)), NoOptions);
    SuffixOnlyWhenSet("/graph/v1/author/" + authorId, q);
  }

  /** `getAuthorPapers(authorId, params)`. */
  method GetAuthorPapersCall(authorId: string, p: Page) returns (q: Params, call: ApiCall)
    ensures Get(q, "fields") == StringParam(p.fields)
    ensures Get(q, "limit") == NumberParam(p.limit) && Get(q, "offset") == NumberParam(p.offset)
    ensures UniqueNames(q)
    ensures forall k :: k !in PageNames ==> Get(q, k).None?
    ensures call == ApiCall("/graph/v1/author/" + authorId + "/papers" + QuerySuffix(Serialize(q)), NoOptions)
    ensures call.endpoint == "/graph/v1/author/" + authorId + "/papers" <==> q == []
  {
    q := PageQuery(p);
    call := ApiCall("/graph/v1/author/" + authorId + "/papers" + QuerySuffix(Serialize(q)), NoOptions);
    SuffixOnlyWhenSet("/graph/v1/author/" + authorId + "/papers", q);
  }

  /** `getRecommendations(params)`: a POST; missing negative ids become []. */
  method GetRecommendationsCall(p: Recommendation) returns (q: Params, call: ApiCall)
    ensures Get(q, "fields") == StringParam(p.fields) && Get(q, "limit") == NumberParam(p.limit)
    ensures UniqueNames(q)
    ensures forall k :: k !in {"fields", "limit"} ==> Get(q, k).None?
    ensures call.endpoint == "/recommendations/v1/papers" + QuerySuffix(Serialize(q))
    ensures call.options.httpMethod == Some("POST") && call.options.headers == map[]
    ensures call.options.body == Some(RecommendationSeeds(p.positivePaperIds,
      if p.negativePaperIds.Some? then p.negativePaperIds.value else []))
  {
    q := SetIfTruthy([], "fields", StringParam(p.fields));
    q := SetIfTruthy(q, "limit", NumberParam(p.limit));
    var negative := if p.negativePaperIds.Some? then p.negativePaperIds.value else [];
    call := ApiCall("/recommendations/v1/papers" + QuerySuffix(Serialize(q)),
                    RequestOptions(Some("POST"), Some(RecommendationSeeds(p.positivePaperIds, negative)), map[]));
  }

  /** With a parameter always set, the unconditional `?` of the search
      endpoints is the conditional suffix every other endpoint uses. */
  lemma AlwaysQueried(path: string, q: Params)
    requires q != []
    ensures path + "?" + Serialize(q) == path + QuerySuffix(Serialize(q))
  {
    assert path + "?" + Serialize(q) == path + ("?" + Serialize(q));
  }

  /** Appending the suffix changes the path exactly when a parameter is set. */
  lemma SuffixOnlyWhenSet(path: string, q: Params)
    ensures path + QuerySuffix(Serialize(q)) == path <==> q == []
  {
    if q != [] {
      assert |path + QuerySuffix(Serialize(q))| > |path|;
    }
  }
}
