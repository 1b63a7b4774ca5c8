/** The list and search handlers: each builds a page query from its arguments,
    projects every returned item to a summary, truncates the summaries and
    echoes the page's total, limit and skip. */
module ListTools {
  import opened Values
  import opened Response
  import opened Summarizer

  /** The paging arguments the list handlers accept; each handler reads only
      some of them. */
  datatype ListArgs = ListArgs(
    limit: Option<int>,
    skip: Option<int>,
    select: Option<string>,
    includeDepth: Option<int>,
    order: Option<string>,
    linksToEntry: Option<string>)

  /** `Math.min(limit || cap, cap)`. */
  function ClampedLimit(limit: Option<int>, cap: int): (n: int)
    ensures n <= cap
    ensures limit.None? || limit.value == 0 ==> n == cap
    ensures limit.Some? && limit.value != 0 ==> n == Min(limit.value, cap)
  {
    Min(NumberOr(limit, cap), cap)
  }

  /** The keys of a query record: `limit`, `skip`, `select`, `include`,
      `order`, `links_to_entry` and, for the entry search, `content_type`. */
  datatype QueryKey = Limit | Skip | Select | Include | Order | LinksToEntry | ContentTypeKey

  const QueryKeys := {Limit, Skip, Select, Include, Order, LinksToEntry}

  /** A page query: the given limit, `skip || 0`, and each optional key the
      handler forwards only when its argument is truthy. */
  function ListQuery(limit: int, args: ListArgs, withInclude: bool, withLinks: bool): (q: map<QueryKey, Value>)
    ensures Limit in q && q[Limit] == Num(limit)
    ensures Skip in q && q[Skip] == Num(NumberOr(args.skip, 0))
    ensures Select in q <==> args.select.Some? && args.select.value != ""
    ensures Select in q ==> q[Select] == Str(args.select.value)
    ensures Order in q <==> args.order.Some? && args.order.value != ""
    ensures Order in q ==> q[Order] == Str(args.order.value)
    ensures Include in q <==> withInclude && args.includeDepth.Some? && args.includeDepth.value != 0
    ensures Include in q ==> q[Include] == Num(args.includeDepth.value)
    ensures LinksToEntry in q <==> withLinks && args.linksToEntry.Some? && args.linksToEntry.value != ""
    ensures LinksToEntry in q ==> q[LinksToEntry] == Str(args.linksToEntry.value)
    ensures q.Keys <= QueryKeys
  {
    var q := map[Limit := Num(limit), Skip := Num(NumberOr(args.skip, 0))];
    var q := if args.select.Some? && args.select.value != "" then q[Select := Str(args.select.value)] else q;
    var q := if withInclude && args.includeDepth.Some? && args.includeDepth.value != 0
             then q[Include := Num(args.includeDepth.value)] else q;
    var q := if args.order.Some? && args.order.value != "" then q[Order := Str(args.order.value)] else q;
    if withLinks && args.linksToEntry.Some? && args.linksToEntry.value != ""
    then q[LinksToEntry := Str(args.linksToEntry.value)] else q
  }

  /** A page as the backend returns it; `rest` holds its other properties. */
  datatype Page<T> = Page(items: seq<T>, total: int, skip: int, limit: int, rest: map<string, Value>)

  /** `{...page, items}`: the page with its items replaced by the summaries. */
  function PageValue<T>(p: Page<T>, items: seq<Value>): (v: Value)
    ensures IsWellTypedCollection(v) && v.props["items"] == Arr(items) && v.props["total"] == Num(p.total)
  {
    Obj(p.rest["total" := Num(p.total)]["skip" := Num(p.skip)]["limit" := Num(p.limit)]["items" := Arr(items)])
  }

  /** `items.map(project)`. */
  function Project<T>(items: seq<T>, project: T -> Value): (r: seq<Value>)
    ensures |r| == |items| && forall i | 0 <= i < |items| :: r[i] == project(items[i])
  {
    seq(|items|, i requires 0 <= i < |items| => project(items[i]))
  }

  /** The reply of a list handler: on success, the first min(n, maxItems)
      summaries in item order under `key`, and the page's total, limit and skip;
      on failure, the error text under the handler's prefix. */
  ghost predicate ListedAs<T>(r: ToolResponse, page: Remote<Page<T>>, project: T -> Value, key: string,
                              message: string, maxItems: nat, prefix: string) {
    match page
    case Failure(e) => IsErrorResponse(r) && HasErrorText(r, prefix) && r == Reply(Threw(e), prefix)
    case Success(p) =>
      && IsSuccessWith(r, message) && r.content[0].text.Formatted?
      && var d := r.content[0].text.data;
         && d.Keys == {key, "total", "limit", "skip"}
         && d["total"] == Num(p.total) && d["limit"] == Num(p.limit) && d["skip"] == Num(p.skip)
         && ShownItems(d[key]) == Project(p.items, project)[..Min(|p.items|, maxItems)]
  }

  /** The shared shape of the list handlers after the query. */
  function ListReply<T>(page: Remote<Page<T>>, project: T -> Value, key: string, message: string,
                        maxItems: nat, remaining: string, prefix: string): (r: ToolResponse)
    requires key != "total" && key != "limit" && key != "skip"
    ensures ListedAs(r, page, project, key, message, maxItems, prefix)
  {
    match page
    case Failure(e) => Reply(Threw(e), prefix)
    case Success(p) =>
      var options := SummarizeOptions(Some(maxItems), Some(remaining));
      var data := PageValue(p, Project(p.items, project));
      SummarizeShowsPrefix(data, options);
      var summarized := SummarizeData(data, options);
      CreateSuccessResponse(message, Some(map[key := summarized, "total" := Num(p.total), "limit" := Num(p.limit), "skip" := Num(p.skip)]))
  }

  /** The note a list handler attaches when items were left out. */
  function MoreItems(noun: string): string {
    "To see more " + noun + ", please ask me to retrieve the next page using the skip parameter."
  }

  /** The query a handler sent and its reply. */
  datatype ListExchange = ListExchange(query: map<QueryKey, Value>, response: ToolResponse)

  // ----- assets -----

  datatype FileInfo = FileInfo(fileName: Value, contentType: Value, url: Value, size: Value)

  /** An asset; `title`, `description` and `file` are the `en-US` values, and
      `Undefined` when missing. */
  datatype AssetItem = AssetItem(
    id: string, title: Value, description: Value, file: Option<FileInfo>,
    createdAt: Value, updatedAt: Value, publishedVersion: Value)

  /** `v || null` yields a truthy value or null, never undefined. */
  predicate TruthyOrNull(v: Value) {
    Truthy(v) || v == Null
  }

  function AssetSummary(a: AssetItem): (v: Value)
    ensures v.Obj? && v.props.Keys == {"id", "title", "description", "fileName", "contentType", "url", "size",
                                       "createdAt", "updatedAt", "publishedVersion"}
    ensures v.props["id"] == Str(a.id)
    ensures v.props["title"] == (if Truthy(a.title) then a.title else Str("Untitled"))
    ensures TruthyOrNull(v.props["description"]) && TruthyOrNull(v.props["fileName"])
    ensures TruthyOrNull(v.props["contentType"]) && TruthyOrNull(v.props["url"]) && TruthyOrNull(v.props["size"])
    ensures a.file.None? ==> v.props["fileName"] == Null && v.props["url"] == Null && v.props["size"] == Null
    ensures v.props["description"] == (if Truthy(a.description) then a.description else Null)
    ensures a.file.Some? ==>
      && v.props["fileName"] == (if Truthy(a.file.value.fileName) then a.file.value.fileName else Null)
      && v.props["contentType"] == (if Truthy(a.file.value.contentType) then a.file.value.contentType else Null)
      && v.props["url"] == (if Truthy(a.file.value.url) then a.file.value.url else Null)
      && v.props["size"] == (if Truthy(a.file.value.size) then a.file.value.size else Null)
    ensures a.file.None? ==> v.props["contentType"] == Null
    ensures v.props["createdAt"] == a.createdAt && v.props["updatedAt"] == a.updatedAt
    ensures v.props["publishedVersion"] == a.publishedVersion
  {
    var file := if a.file.Some? then a.file.value else FileInfo(Undefined, Undefined, Undefined, Undefined);
    Obj(map[
      "id" := Str(a.id),
      "title" := Or(a.title, Str("Untitled")),
      "description" := Or(a.description, Null),
      "fileName" := Or(file.fileName, Null),
      "contentType" := Or(file.contentType, Null),
      "url" := Or(file.url, Null),
      "size" := Or(file.size, Null),
      "createdAt" := a.createdAt,
      "updatedAt" := a.updatedAt,
      "publishedVersion" := a.publishedVersion])
  }

  /** The asset query: at most 3 items, and `include` and `links_to_entry` may be forwarded. */
  function AssetsQuery(args: ListArgs): (q: map<QueryKey, Value>)
    ensures Limit in q && q[Limit] == Num(ClampedLimit(args.limit, 3)) && q[Limit].n <= 3
    ensures Skip in q && q[Skip] == Num(NumberOr(args.skip, 0))
    ensures q.Keys <= QueryKeys
    ensures LinksToEntry in q <==> args.linksToEntry.Some? && args.linksToEntry.value != ""
  {
    ListQuery(ClampedLimit(args.limit, 3), args, true, true)
  }

  function ListAssetsTool(args: ListArgs, page: Remote<Page<AssetItem>>): (x: ListExchange)
    ensures x.query == AssetsQuery(args)
    ensures ListedAs(x.response, page, AssetSummary, "assets", "Assets retrieved successfully", 3, "Error listing assets")
  {
    var q := AssetsQuery(args);
    var r := ListReply(page, AssetSummary, "assets", "Assets retrieved successfully", 3,
        MoreItems("assets"),
        "Error listing assets");
    ListExchange(q, r)
  }

  // ----- AI actions -----

  datatype AiActionItem = AiActionItem(
    id: string, name: Value, description: Value, instruction: Value, configuration: Value, testCases: Value,
    createdAt: Value, updatedAt: Value, publishedVersion: Value)

  function AiActionSummary(a: AiActionItem): (v: Value)
    ensures v.Obj? && v.props.Keys == {"id", "name", "description", "instruction", "configuration", "testCases",
                                       "createdAt", "updatedAt", "publishedVersion"}
    ensures v.props["id"] == Str(a.id)
    ensures v.props["name"] == (if Truthy(a.name) then a.name else Str("Untitled"))
    ensures TruthyOrNull(v.props["description"]) && TruthyOrNull(v.props["instruction"])
    ensures TruthyOrNull(v.props["configuration"]) && TruthyOrNull(v.props["testCases"])
    ensures v.props["description"] == (if Truthy(a.description) then a.description else Null)
    ensures v.props["instruction"] == (if Truthy(a.instruction) then a.instruction else Null)
    ensures v.props["configuration"] == (if Truthy(a.configuration) then a.configuration else Null)
    ensures v.props["testCases"] == (if Truthy(a.testCases) then a.testCases else Null)
    ensures v.props["createdAt"] == a.createdAt && v.props["updatedAt"] == a.updatedAt
    ensures v.props["publishedVersion"] == a.publishedVersion
  {
    Obj(map[
      "id" := Str(a.id),
      "name" := Or(a.name, Str("Untitled")),
      "description" := Or(a.description, Null),
      "instruction" := Or(a.instruction, Null),
      "configuration" := Or(a.configuration, Null),
      "testCases" := Or(a.testCases, Null),
      "createdAt" := a.createdAt,
      "updatedAt" := a.updatedAt,
      "publishedVersion" := a.publishedVersion])
  }

  /** The AI-action query: at most 3 items; `links_to_entry` is never sent. */
  function AiActionsQuery(args: ListArgs): (q: map<QueryKey, Value>)
    ensures Limit in q && q[Limit] == Num(ClampedLimit(args.limit, 3)) && q[Limit].n <= 3
    ensures Skip in q && q[Skip] == Num(NumberOr(args.skip, 0))
    ensures q.Keys <= {Limit, Skip, Select, Include, Order}
  {
    ListQuery(ClampedLimit(args.limit, 3), args, true, false)
  }

  function ListAiActionsTool(args: ListArgs, page: Remote<Page<AiActionItem>>): (x: ListExchange)
    ensures x.query == AiActionsQuery(args)
    ensures ListedAs(x.response, page, AiActionSummary, "aiActions", "AI actions retrieved successfully", 3,
                     "Error listing AI actions")
  {
    var q := AiActionsQuery(args);
    var r := ListReply(page, AiActionSummary, "aiActions", "AI actions retrieved successfully", 3,
        MoreItems("AI actions"),
        "Error listing AI actions");
    ListExchange(q, r)
  }

  // ----- content types -----

  /** A content type: all its own properties, its `sys.id` and its field list. */
  datatype ContentTypeItem = ContentTypeItem(props: map<string, Value>, sysId: string, fields: seq<Value>)

  function ContentTypeSummary(c: ContentTypeItem): (v: Value)
    ensures v.Obj? && v.props.Keys == c.props.Keys + {"id", "fieldsCount"}
    ensures v.props["id"] == Str(c.sysId) && v.props["fieldsCount"] == Num(|c.fields|)
    ensures forall k | k in c.props && k != "id" && k != "fieldsCount" :: v.props[k] == c.props[k]
  {
    Obj(c.props["id" := Str(c.sysId)]["fieldsCount" := Num(|c.fields|)])
  }

  /** The content-type query: at most 10 items; `links_to_entry` is never sent. */
  function ContentTypesQuery(args: ListArgs): (q: map<QueryKey, Value>)
    ensures Limit in q && q[Limit] == Num(ClampedLimit(args.limit, 10)) && q[Limit].n <= 10
    ensures Skip in q && q[Skip] == Num(NumberOr(args.skip, 0))
    ensures q.Keys <= {Limit, Skip, Select, Include, Order}
  {
    ListQuery(ClampedLimit(args.limit, 10), args, true, false)
  }

  function ListContentTypesTool(args: ListArgs, page: Remote<Page<ContentTypeItem>>): (x: ListExchange)
    ensures x.query == ContentTypesQuery(args)
    ensures ListedAs(x.response, page, ContentTypeSummary, "contentTypes", "Content types retrieved successfully", 10,
                     "Error listing content types")
  {
    var q := ContentTypesQuery(args);
    var r := ListReply(page, ContentTypeSummary, "contentTypes", "Content types retrieved successfully", 10,
        MoreItems("content types"),
        "Error listing content types");
    ListExchange(q, r)
  }

  // ----- environments -----

  /** An environment; `statusId` is `sys.status.sys.id`, `Undefined` when missing. */
  datatype EnvironmentItem = EnvironmentItem(id: string, name: Value, statusId: Value, createdAt: Value, updatedAt: Value)

  function EnvironmentSummary(e: EnvironmentItem): (v: Value)
    ensures v.Obj? && v.props.Keys == {"id", "name", "status", "createdAt", "updatedAt"}
    ensures v.props["id"] == Str(e.id) && v.props["name"] == e.name
    ensures v.props["status"] == (if Truthy(e.statusId) then e.statusId else Str("unknown"))
    ensures v.props["createdAt"] == e.createdAt && v.props["updatedAt"] == e.updatedAt
  {
    Obj(map[
      "id" := Str(e.id),
      "name" := e.name,
      "status" := Or(e.statusId, Str("unknown")),
      "createdAt" := e.createdAt,
      "updatedAt" := e.updatedAt])
  }

  /** The client's space and environment: the environment defaults to `master`. */
  function EnvironmentClientArgs(spaceId: string, environmentId: Option<string>): (r: (string, string))
    ensures r.0 == spaceId
    ensures r.1 == (if environmentId.Some? && environmentId.value != "" then environmentId.value else "master")
  {
    (spaceId, StringOr(environmentId, "master"))
  }

  /** The environment query: at most 10 items; only `select` and `order` may be added. */
  function EnvironmentsQuery(args: ListArgs): (q: map<QueryKey, Value>)
    ensures Limit in q && q[Limit] == Num(ClampedLimit(args.limit, 10)) && q[Limit].n <= 10
    ensures Skip in q && q[Skip] == Num(NumberOr(args.skip, 0))
    ensures q.Keys <= {Limit, Skip, Select, Order}
  {
    ListQuery(ClampedLimit(args.limit, 10), args, false, false)
  }

  function ListEnvironmentsTool(args: ListArgs, page: Remote<Page<EnvironmentItem>>): (x: ListExchange)
    ensures x.query == EnvironmentsQuery(args)
    ensures ListedAs(x.response, page, EnvironmentSummary, "environments", "Environments retrieved successfully", 10,
                     "Error listing environments")
  {
    var q := EnvironmentsQuery(args);
    var r := ListReply(page, EnvironmentSummary, "environments", "Environments retrieved successfully", 10,
        MoreItems("environments"),
        "Error listing environments");
    ListExchange(q, r)
  }

  // ----- spaces -----

  datatype SpaceItem = SpaceItem(id: string, name: Value, createdAt: Value, updatedAt: Value)

  function SpaceSummary(s: SpaceItem): (v: Value)
    ensures v.Obj? && v.props.Keys == {"id", "name", "createdAt", "updatedAt"}
    ensures v.props["id"] == Str(s.id) && v.props["name"] == s.name
    ensures v.props["createdAt"] == s.createdAt && v.props["updatedAt"] == s.updatedAt
  {
    Obj(map["id" := Str(s.id), "name" := s.name, "createdAt" := s.createdAt, "updatedAt" := s.updatedAt])
  }

  /** The space query: at most 10 items; only `select` and `order` may be added. */
  function SpacesQuery(args: ListArgs): (q: map<QueryKey, Value>)
    ensures Limit in q && q[Limit] == Num(ClampedLimit(args.limit, 10)) && q[Limit].n <= 10
    ensures Skip in q && q[Skip] == Num(NumberOr(args.skip, 0))
    ensures q.Keys <= {Limit, Skip, Select, Order}
  {
    ListQuery(ClampedLimit(args.limit, 10), args, false, false)
  }

  function ListSpacesTool(args: ListArgs, page: Remote<Page<SpaceItem>>): (x: ListExchange)
    ensures x.query == SpacesQuery(args)
    ensures ListedAs(x.response, page, SpaceSummary, "spaces", "Spaces retrieved successfully", 10,
                     "Error listing spaces")
  {
    var q := SpacesQuery(args);
    var r := ListReply(page, SpaceSummary, "spaces", "Spaces retrieved successfully", 10,
        MoreItems("spaces"),
        "Error listing spaces");
    ListExchange(q, r)
  }

  // ----- tags -----

  datatype TagItem = TagItem(id: string, name: Value, visibility: Value, createdAt: Value, updatedAt: Value)

  function TagSummary(t: TagItem): (v: Value)
    ensures v.Obj? && v.props.Keys == {"id", "name", "visibility", "createdAt", "updatedAt"}
    ensures v.props["id"] == Str(t.id) && v.props["name"] == t.name && v.props["visibility"] == t.visibility
    ensures v.props["createdAt"] == t.createdAt && v.props["updatedAt"] == t.updatedAt
  {
    Obj(map["id" := Str(t.id), "name" := t.name, "visibility" := t.visibility,
            "createdAt" := t.createdAt, "updatedAt" := t.updatedAt])
  }

  /** The tag query: `limit || 100`, not clamped; only `select` and `order` may be added. */
  function TagsQuery(args: ListArgs): (q: map<QueryKey, Value>)
    ensures args.limit.Some? && args.limit.value != 0 ==> Limit in q && q[Limit] == Num(args.limit.value)
    ensures args.limit.None? || args.limit.value == 0 ==> Limit in q && q[Limit] == Num(100)
    ensures Skip in q && q[Skip] == Num(NumberOr(args.skip, 0))
    ensures q.Keys <= {Limit, Skip, Select, Order}
  {
    ListQuery(NumberOr(args.limit, 100), args, false, false)
  }

  function ListTagsTool(args: ListArgs, page: Remote<Page<TagItem>>): (x: ListExchange)
    ensures x.query == TagsQuery(args)
    ensures ListedAs(x.response, page, TagSummary, "tags", "Tags retrieved successfully", 100, "Error listing tags")
  {
    var q := TagsQuery(args);
    var r := ListReply(page, TagSummary, "tags", "Tags retrieved successfully", 100,
        MoreItems("tags"),
        "Error listing tags");
    ListExchange(q, r)
  }

  // ----- entry search -----

  /** The caller's search query; every given key is forwarded, even a falsy one. */
  datatype SearchQuery = SearchQuery(
    contentType: Option<string>,
    includeDepth: Option<int>,
    select: Option<string>,
    linksToEntry: Option<string>,
    limit: Option<int>,
    skip: Option<int>,
    order: Option<string>)

  function IfGivenString(key: QueryKey, v: Option<string>): map<QueryKey, Value> {
    if v.Some? then map[key := Str(v.value)] else map[]
  }

  function IfGivenNumber(key: QueryKey, v: Option<int>): map<QueryKey, Value> {
    if v.Some? then map[key := Num(v.value)] else map[]
  }

  /** The caller's keys as the spread `...args.query` copies them. */
  function GivenKeys(q: SearchQuery): map<QueryKey, Value> {
    IfGivenString(ContentTypeKey, q.contentType)
      + IfGivenNumber(Include, q.includeDepth)
      + IfGivenString(Select, q.select)
      + IfGivenString(LinksToEntry, q.linksToEntry)
      + IfGivenNumber(Limit, q.limit)
      + IfGivenNumber(Skip, q.skip)
      + IfGivenString(Order, q.order)
  }

  /** `{...query, limit: Math.min(limit || 3, 3), skip: skip || 0}`. */
  function SentSearchQuery(q: SearchQuery): (m: map<QueryKey, Value>)
    ensures m.Keys == GivenKeys(q).Keys + {Limit, Skip}
    ensures Limit in m && m[Limit] == Num(ClampedLimit(q.limit, 3)) && m[Limit].n <= 3
    ensures Skip in m && m[Skip] == Num(NumberOr(q.skip, 0))
    ensures forall k | k in GivenKeys(q) && k != Limit && k != Skip :: m[k] == GivenKeys(q)[k]
  {
    GivenKeys(q)[Limit := Num(ClampedLimit(q.limit, 3))][Skip := Num(NumberOr(q.skip, 0))]
  }

  const SearchRemaining := "To see more entries, please ask me to retrieve the next page."

  /** searchEntriesTool. Its error prefix is "Error deleting dataset". */
  function SearchEntriesTool(q: SearchQuery, reply: Remote<Value>): (x: ListExchange)
    ensures x.query == SentSearchQuery(q)
    ensures reply.Failure? ==>
      IsErrorResponse(x.response) && HasErrorText(x.response, "Error deleting dataset")
      && x.response == ErrorResponse("Error deleting dataset", reply.error)
    ensures reply.Success? ==>
      x.response == CreateSuccessResponse("Entries retrieved successfully",
        Some(map["entries" := SummarizeData(reply.value, SummarizeOptions(Some(3), Some(SearchRemaining)))]))
    ensures reply.Success? && (IsWellTypedCollection(reply.value) || reply.value.Arr?) ==>
      |ShownItems(x.response.content[0].text.data["entries"])| <= 3
  {
    var c := match reply
             case Failure(e) => Threw(e)
             case Success(entries) =>
               var options := SummarizeOptions(Some(3), Some(SearchRemaining));
               assert IsWellTypedCollection(entries) || entries.Arr? ==>
                 |ShownItems(SummarizeData(entries, options))| <= 3 by {
                 if IsWellTypedCollection(entries) || entries.Arr? {
                   SummarizeShowsPrefix(entries, options);
                 }
               }
               Returned(CreateSuccessResponse("Entries retrieved successfully",
                 Some(map["entries" := SummarizeData(entries, options)])));
    ListExchange(SentSearchQuery(q), Reply(c, "Error deleting dataset"))
  }
}
