/** The four publish/unpublish handlers for entries and assets. One id takes a
    direct get-then-act path whose failures come back as a normal reply; any
    other number of ids, none included, takes the bulk-job path, whose
    failures propagate to the error wrapper. */
module PublishTools {
  import opened Values
  import opened Response
  import opened BulkOperations

  /** The id argument: a single id, or a list of ids. */
  datatype IdArg = OneId(id: string) | IdList(ids: seq<string>)

  /** The parameter schema caps a list at 100 ids. */
  const MaxIds := 100

  predicate SchemaAccepts(arg: IdArg) {
    arg.IdList? ==> |arg.ids| <= MaxIds
  }

  /** A single id becomes a one-element list; a list is used as given. */
  function NormalizeIds(arg: IdArg): (ids: seq<string>)
    ensures arg.OneId? ==> ids == [arg.id]
    ensures arg.IdList? ==> ids == arg.ids
    ensures SchemaAccepts(arg) ==> |ids| <= MaxIds
  {
    if arg.IdList? then arg.ids else [arg.id]
  }

  /** The remote calls a handler issues. */
  datatype Request =
    | GetEntity(kind: EntityKind, id: string)
    | ActOnEntity(kind: EntityKind, action: BulkAction, id: string)
    | SubmitBulk(action: BulkAction, entities: Collection)
    | GetBulk(jobId: string)

  /** Scripted backend: the reply to `get` of each id (the entity's version),
      the reply to the single-entity publish or unpublish (the resulting
      `sys.status`), the reply to the bulk submission (the job id), and the
      replies to the successive gets of the bulk job. */
  datatype Backend = Backend(
    fetch: Fetch,
    act: Remote<Value>,
    submit: Remote<string>,
    polls: seq<Remote<BulkJob>>)

  /** The calls a handler issued, in order, and how it settled. */
  datatype Exchange = Exchange(requests: seq<Request>, outcome: Completion)

  function KindName(kind: EntityKind): string {
    match kind
    case Entry => "Entry"
    case Asset => "Asset"
  }

  function IdKey(kind: EntityKind): string {
    match kind
    case Entry => "entryId"
    case Asset => "assetId"
  }

  function IdsKey(kind: EntityKind): string {
    match kind
    case Entry => "entryIds"
    case Asset => "assetIds"
  }

  function Verb(action: BulkAction): string {
    match action
    case Publish => "publish"
    case Unpublish => "unpublish"
  }

  /** "Entry published successfully", "Asset unpublished successfully", ... */
  function SingleSuccessMessage(kind: EntityKind, action: BulkAction): string {
    KindName(kind) + " " + Verb(action) + "ed successfully"
  }

  /** "Entry publish failed", "Asset unpublish failed", ... */
  function SingleFailureMessage(kind: EntityKind, action: BulkAction): string {
    KindName(kind) + " " + Verb(action) + " failed"
  }

  /** "Entry(s) published successfully", "Asset(s) unpublished successfully", ... */
  function BulkSuccessMessage(kind: EntityKind, action: BulkAction): string {
    KindName(kind) + "(s) " + Verb(action) + "ed successfully"
  }

  function IdValues(ids: seq<string>): (vs: seq<Value>)
    ensures |vs| == |ids| && forall i | 0 <= i < |ids| :: vs[i] == Str(ids[i])
  {
    seq(|ids|, i requires 0 <= i < |ids| => Str(ids[i]))
  }

  function EntityGets(kind: EntityKind, ids: seq<string>): (rs: seq<Request>)
    ensures |rs| == |ids| && forall i | 0 <= i < |ids| :: rs[i] == GetEntity(kind, ids[i])
  {
    seq(|ids|, i requires 0 <= i < |ids| => GetEntity(kind, ids[i]))
  }

  /** The one-id path: get, then publish or unpublish; any failure is caught and
      reported in a normal reply carrying the error and the id. */
  function SinglePath(kind: EntityKind, action: BulkAction, id: string, b: Backend): (x: Exchange)
    ensures x.outcome.Returned? && !IsErrorResponse(x.outcome.response) && |x.outcome.response.content| == 1
    ensures b.fetch(id).Failure? ==> x.requests == [GetEntity(kind, id)]
    ensures b.fetch(id).Success? ==> x.requests == [GetEntity(kind, id), ActOnEntity(kind, action, id)]
    ensures b.fetch(id).Success? && b.act.Success? ==>
      x.outcome.response == CreateSuccessResponse(SingleSuccessMessage(kind, action),
                                                  Some(map["status" := b.act.value, IdKey(kind) := Str(id)]))
    ensures b.fetch(id).Failure? || b.act.Failure? ==>
      var e := if b.fetch(id).Failure? then b.fetch(id).error else b.act.error;
      x.outcome.response == CreateSuccessResponse(SingleFailureMessage(kind, action),
                                                  Some(map["status" := e, IdKey(kind) := Str(id)]))
  {
    var failed := (e: Value) =>
      CreateSuccessResponse(SingleFailureMessage(kind, action), Some(map["status" := e, IdKey(kind) := Str(id)]));
    match b.fetch(id)
    case Failure(e) => Exchange([GetEntity(kind, id)], Returned(failed(e)))
    case Success(_) =>
      var calls := [GetEntity(kind, id), ActOnEntity(kind, action, id)];
      match b.act
      case Failure(e) => Exchange(calls, Returned(failed(e)))
      case Success(status) =>
        Exchange(calls, Returned(CreateSuccessResponse(SingleSuccessMessage(kind, action),
          Some(map["status" := status, IdKey(kind) := Str(id)]))))
  }

  /** The error the bulk path throws, if any: a failed get of some id, else a
      rejected submission, else a failed get of the bulk job. */
  function BulkError(ids: seq<string>, b: Backend): (e: Option<Value>)
    ensures !Fetched(b.fetch, ids) ==> e.Some? && exists i | 0 <= i < |ids| :: b.fetch(ids[i]) == Failure(e.value)
    ensures Fetched(b.fetch, ids) && b.submit.Failure? ==> e == Some(b.submit.error)
    ensures Fetched(b.fetch, ids) && b.submit.Success? ==>
      (e.Some? <==> WaitSpec(b.polls).WaitThrew?) && (e.Some? ==> e.value == WaitSpec(b.polls).error)
  {
    if FirstFailure(ids, b.fetch).Some? then FirstFailure(ids, b.fetch)
    else if b.submit.Failure? then Some(b.submit.error)
    else if WaitSpec(b.polls).WaitThrew? then Some(WaitSpec(b.polls).error)
    else None
  }

  /** The bulk path: links for every id (versioned to publish, unversioned to
      unpublish), one bulk submission, then the wait; nothing is caught. */
  function BulkPath(kind: EntityKind, action: BulkAction, ids: seq<string>, b: Backend): (x: Exchange)
    ensures |ids| <= |x.requests| && x.requests[..|ids|] == EntityGets(kind, ids)
    ensures forall r | r in x.requests :: !r.ActOnEntity?
    ensures x.outcome.Returned? ==> IsSuccessWith(x.outcome.response, BulkSuccessMessage(kind, action))
    ensures !Fetched(b.fetch, ids) ==>
      x.requests == EntityGets(kind, ids) && x.outcome.Threw?
      && exists i | 0 <= i < |ids| :: b.fetch(ids[i]) == Failure(x.outcome.error)
    ensures Fetched(b.fetch, ids) ==>
      |x.requests| > |ids| && x.requests[|ids|] == SubmitBulk(action, CreateEntitiesCollection(
        if action == Publish then CreateVersionedLinks(kind, ids, b.fetch).value
        else CreateUnversionedLinks(kind, ids, b.fetch).value))
    ensures Fetched(b.fetch, ids) && b.submit.Success? && WaitSpec(b.polls).Finished? ==>
      x.outcome == Returned(CreateSuccessResponse(BulkSuccessMessage(kind, action),
        Some(map["status" := Str(WaitSpec(b.polls).job.status), IdsKey(kind) := Arr(IdValues(ids))])))
    // a rejected submission or a failed poll of the job is thrown
    ensures Fetched(b.fetch, ids) && b.submit.Failure? ==>
      x.outcome == Threw(b.submit.error) && |x.requests| == |ids| + 1
    ensures Fetched(b.fetch, ids) && b.submit.Success? ==>
      |x.requests| == |ids| + 1 + WaitSpec(b.polls).gets
      && (WaitSpec(b.polls).WaitThrew? ==> x.outcome == Threw(WaitSpec(b.polls).error))
      && (WaitSpec(b.polls).StillWaiting? ==> x.outcome.Running?)
    ensures (x.outcome.Threw? <==> BulkError(ids, b).Some?) && (x.outcome.Threw? ==> x.outcome.error == BulkError(ids, b).value)
  {
    var gets := EntityGets(kind, ids);
    var links := if action == Publish then CreateVersionedLinks(kind, ids, b.fetch)
                 else CreateUnversionedLinks(kind, ids, b.fetch);
    match links
    case Failure(e) => Exchange(gets, Threw(e))
    case Success(ls) =>
      var submitted := gets + [SubmitBulk(action, CreateEntitiesCollection(ls))];
      match b.submit
      case Failure(e) => Exchange(submitted, Threw(e))
      case Success(jobId) =>
        var w := WaitSpec(b.polls);
        var calls := submitted + seq(w.gets, _ => GetBulk(jobId));
        match w
        case Finished(job, _) =>
          Exchange(calls, Returned(CreateSuccessResponse(BulkSuccessMessage(kind, action),
            Some(map["status" := Str(job.status), IdsKey(kind) := Arr(IdValues(ids))]))))
        case WaitThrew(e, _) => Exchange(calls, Threw(e))
        case StillWaiting(_) => Exchange(calls, Running)
  }

  /** The handler body shared by the four tools, before the error wrapper. */
  function Dispatch(kind: EntityKind, action: BulkAction, ids: seq<string>, b: Backend): (x: Exchange)
    // exactly one id: get then act, and every failure becomes a normal reply
    ensures |ids| == 1 ==>
      && x.outcome.Returned? && !IsErrorResponse(x.outcome.response)
      && |x.outcome.response.content| == 1
      && |x.requests| >= 1 && x.requests[0] == GetEntity(kind, ids[0])
      && (x.requests == [GetEntity(kind, ids[0])] <==> b.fetch(ids[0]).Failure?)
      && (x.requests == [GetEntity(kind, ids[0]), ActOnEntity(kind, action, ids[0])] <==> b.fetch(ids[0]).Success?)
      && (IsSuccessWith(x.outcome.response, SingleSuccessMessage(kind, action))
          <==> (b.fetch(ids[0]).Success? && b.act.Success?))
    ensures |ids| == 1 && b.fetch(ids[0]).Success? && b.act.Success? ==>
      x.outcome.response.content[0].text
        == Formatted(SingleSuccessMessage(kind, action), map["status" := b.act.value, IdKey(kind) := Str(ids[0])])
    ensures |ids| == 1 && (b.fetch(ids[0]).Failure? || b.act.Failure?) ==>
      var e := if b.fetch(ids[0]).Failure? then b.fetch(ids[0]).error else b.act.error;
      x.outcome.response.content[0].text
        == Formatted(SingleFailureMessage(kind, action), map["status" := e, IdKey(kind) := Str(ids[0])])
    // any other count: every id is fetched first, in order, and nothing is acted on singly
    ensures |ids| != 1 ==> |ids| <= |x.requests| && x.requests[..|ids|] == EntityGets(kind, ids)
    ensures |ids| != 1 ==> forall r | r in x.requests :: !r.ActOnEntity?
    // a failed get fails the whole call before anything is submitted
    ensures |ids| != 1 && !Fetched(b.fetch, ids) ==>
      x.requests == EntityGets(kind, ids) && x.outcome.Threw?
      && exists i | 0 <= i < |ids| :: b.fetch(ids[i]) == Failure(x.outcome.error)
    // otherwise one submission of one link per id, in order
    ensures |ids| != 1 && Fetched(b.fetch, ids) ==>
      |x.requests| > |ids| && x.requests[|ids|].SubmitBulk? && x.requests[|ids|].action == action
      && var links := x.requests[|ids|].entities;
         && links.sysType == ArrayType && |links.items| == |ids|
         && forall i | 0 <= i < |ids| ::
              && links.items[i].id == ids[i] && links.items[i].linkType == kind
              && links.items[i].sysType == LinkType
              && links.items[i].version == (if action == Publish then Some(b.fetch(ids[i]).value) else None)
    // the reply echoes the finished job's status, whatever it is, and all the ids
    ensures |ids| != 1 && Fetched(b.fetch, ids) && b.submit.Success? && WaitSpec(b.polls).Finished? ==>
      x.outcome.Returned? && IsSuccessWith(x.outcome.response, BulkSuccessMessage(kind, action))
      && x.outcome.response.content[0].text
           == Formatted(BulkSuccessMessage(kind, action),
                map["status" := Str(WaitSpec(b.polls).job.status), IdsKey(kind) := Arr(IdValues(ids))])
    // on the bulk path a failure is thrown, never turned into a reply
    ensures |ids| != 1 && x.outcome.Returned? ==> IsSuccessWith(x.outcome.response, BulkSuccessMessage(kind, action))
    ensures |ids| != 1 && Fetched(b.fetch, ids) && b.submit.Failure? ==> x.outcome == Threw(b.submit.error)
    ensures |ids| != 1 && Fetched(b.fetch, ids) && b.submit.Success? && WaitSpec(b.polls).WaitThrew? ==>
      x.outcome == Threw(WaitSpec(b.polls).error)
    ensures |ids| != 1 ==>
      (x.outcome.Threw? <==> BulkError(ids, b).Some?) && (x.outcome.Threw? ==> x.outcome.error == BulkError(ids, b).value)
  {
    if |ids| == 1 then SinglePath(kind, action, ids[0], b) else BulkPath(kind, action, ids, b)
  }

  /** A tool: normalize the argument, dispatch, and wrap with its error prefix. */
  function Tool(kind: EntityKind, action: BulkAction, errorPrefix: string, arg: IdArg, b: Backend): (x: Exchange)
    requires SchemaAccepts(arg)
    ensures !x.outcome.Threw?
    ensures x.requests == Dispatch(kind, action, NormalizeIds(arg), b).requests
    ensures x.outcome.Returned? && IsErrorResponse(x.outcome.response) ==>
      |NormalizeIds(arg)| != 1 && HasErrorText(x.outcome.response, errorPrefix)
    // whatever the handler throws becomes the "<prefix>: <message>" error reply
    ensures var inner := Dispatch(kind, action, NormalizeIds(arg), b);
            && (inner.outcome.Threw? ==> x.outcome == Returned(ErrorResponse(errorPrefix, inner.outcome.error)))
            && (!inner.outcome.Threw? ==> x.outcome == inner.outcome)
    ensures var ids := NormalizeIds(arg);
            |ids| != 1 && BulkError(ids, b).Some? ==> x.outcome == Returned(ErrorResponse(errorPrefix, BulkError(ids, b).value))
  {
    var inner := Dispatch(kind, action, NormalizeIds(arg), b);
    Exchange(inner.requests, WithErrorHandling(inner.outcome, Some(errorPrefix)))
  }

  /** publishEntryTool */
  function PublishEntryTool(entryId: IdArg, b: Backend): (x: Exchange)
    requires SchemaAccepts(entryId)
    ensures entryId.OneId? ==> x.outcome.Returned? && !IsErrorResponse(x.outcome.response)
    ensures entryId.OneId? ==> |x.requests| >= 1 && x.requests[0] == GetEntity(Entry, entryId.id)
    ensures entryId.IdList? && |entryId.ids| != 1 && Fetched(b.fetch, entryId.ids) ==>
      |x.requests| > |entryId.ids| && x.requests[|entryId.ids|].SubmitBulk? && x.requests[|entryId.ids|].action == Publish
    ensures x.outcome.Returned? && IsErrorResponse(x.outcome.response) ==>
      HasErrorText(x.outcome.response, "Error publishing entry")
    // a failure on the bulk path comes back as "Error publishing entry: <message>"
    ensures |NormalizeIds(entryId)| != 1 && BulkError(NormalizeIds(entryId), b).Some? ==>
      x.outcome == Returned(ErrorResponse("Error publishing entry", BulkError(NormalizeIds(entryId), b).value))
  {
    Tool(Entry, Publish, "Error publishing entry", entryId, b)
  }

  /** unpublishEntryTool */
  function UnpublishEntryTool(entryId: IdArg, b: Backend): (x: Exchange)
    requires SchemaAccepts(entryId)
    ensures entryId.OneId? ==> x.outcome.Returned? && !IsErrorResponse(x.outcome.response)
    ensures entryId.OneId? ==> |x.requests| >= 1 && x.requests[0] == GetEntity(Entry, entryId.id)
    ensures entryId.IdList? && |entryId.ids| != 1 && Fetched(b.fetch, entryId.ids) ==>
      |x.requests| > |entryId.ids| && x.requests[|entryId.ids|].SubmitBulk? && x.requests[|entryId.ids|].action == Unpublish
    ensures x.outcome.Returned? && IsErrorResponse(x.outcome.response) ==>
      HasErrorText(x.outcome.response, "Error unpublishing entry")
    // a failure on the bulk path comes back as "Error unpublishing entry: <message>"
    ensures |NormalizeIds(entryId)| != 1 && BulkError(NormalizeIds(entryId), b).Some? ==>
      x.outcome == Returned(ErrorResponse("Error unpublishing entry", BulkError(NormalizeIds(entryId), b).value))
  {
    Tool(Entry, Unpublish, "Error unpublishing entry", entryId, b)
  }

  /** publishAssetTool */
  function PublishAssetTool(assetId: IdArg, b: Backend): (x: Exchange)
    requires SchemaAccepts(assetId)
    ensures assetId.OneId? ==> x.outcome.Returned? && !IsErrorResponse(x.outcome.response)
    ensures assetId.OneId? ==> |x.requests| >= 1 && x.requests[0] == GetEntity(Asset, assetId.id)
    ensures assetId.IdList? && |assetId.ids| != 1 && Fetched(b.fetch, assetId.ids) ==>
      |x.requests| > |assetId.ids| && x.requests[|assetId.ids|].SubmitBulk? && x.requests[|assetId.ids|].action == Publish
    ensures x.outcome.Returned? && IsErrorResponse(x.outcome.response) ==>
      HasErrorText(x.outcome.response, "Error publishing asset")
    // a failure on the bulk path comes back as "Error publishing asset: <message>"
    ensures |NormalizeIds(assetId)| != 1 && BulkError(NormalizeIds(assetId), b).Some? ==>
      x.outcome == Returned(ErrorResponse("Error publishing asset", BulkError(NormalizeIds(assetId), b).value))
  {
    Tool(Asset, Publish, "Error publishing asset", assetId, b)
  }

  /** unpublishAssetTool */
  function UnpublishAssetTool(assetId: IdArg, b: Backend): (x: Exchange)
    requires SchemaAccepts(assetId)
    ensures assetId.OneId? ==> x.outcome.Returned? && !IsErrorResponse(x.outcome.response)
    ensures assetId.OneId? ==> |x.requests| >= 1 && x.requests[0] == GetEntity(Asset, assetId.id)
    ensures assetId.IdList? && |assetId.ids| != 1 && Fetched(b.fetch, assetId.ids) ==>
      |x.requests| > |assetId.ids| && x.requests[|assetId.ids|].SubmitBulk? && x.requests[|assetId.ids|].action == Unpublish
    ensures x.outcome.Returned? && IsErrorResponse(x.outcome.response) ==>
      HasErrorText(x.outcome.response, "Error unpublishing asset")
    // a failure on the bulk path comes back as "Error unpublishing asset: <message>"
    ensures |NormalizeIds(assetId)| != 1 && BulkError(NormalizeIds(assetId), b).Some? ==>
      x.outcome == Returned(ErrorResponse("Error unpublishing asset", BulkError(NormalizeIds(assetId), b).value))
  {
    Tool(Asset, Unpublish, "Error unpublishing asset", assetId, b)
  }

  /** An empty list is not an error: it takes the bulk path and submits an
      empty collection. */
  lemma EmptyListSubmitsEmptyCollection(kind: EntityKind, action: BulkAction, b: Backend)
    ensures var x := Dispatch(kind, action, [], b);
            |x.requests| >= 1 && x.requests[0] == SubmitBulk(action, Collection(ArrayType, []))
  {
  }

  /** A bulk job that finished as "failed" is still reported with the success
      message; its status is only echoed. */
  lemma FailedJobReportedAsSuccess(kind: EntityKind, action: BulkAction, ids: seq<string>, b: Backend, k: nat)
    requires |ids| != 1 && Fetched(b.fetch, ids) && b.submit.Success?
    requires k < |b.polls| && b.polls[k].Success? && b.polls[k].value.status == "failed"
    requires forall i | 0 <= i < k :: NonTerminalReply(b.polls[i])
    ensures var x := Dispatch(kind, action, ids, b);
            && x.outcome.Returned? && !IsErrorResponse(x.outcome.response)
            && x.outcome.response.content[0].text.data["status"] == Str("failed")
            && |x.requests| == |ids| + 1 + (k + 1)
  {
    WaitStopsAtFirstTerminal(b.polls, k);
  }
}
