/** Links to entries and assets, the collection that carries them to a bulk
    job, and the loop that waits for a bulk job to finish. */
module BulkOperations {
  import opened Values

  datatype EntityKind = Entry | Asset

  datatype BulkAction = Publish | Unpublish

  /** The `sys.type` of every link and of every collection. */
  const LinkType := "Link"
  const ArrayType := "Array"

  /** A link to one entry or asset. A versioned link (for publishing) carries
      the version just fetched; an unversioned link (for unpublishing) has none. */
  datatype Link = Link(sysType: string, linkType: EntityKind, id: string, version: Option<int>)

  datatype Collection = Collection(sysType: string, items: seq<Link>)

  /** A bulk job as the backend reports it. The status is the backend's string;
      the per-entity outcome lists are passed on, never read. */
  datatype BulkJob = BulkJob(id: string, status: string, succeeded: Option<seq<string>>, failed: Option<seq<string>>)

  /** The backend's reply to `get` of the entity with a given id: its
      `sys.version`, or the value the call threw. */
  type Fetch = string -> Remote<int>

  /** Only "inProgress" and "created" keep the wait loop polling. */
  predicate IsTerminal(status: string) {
    status != "inProgress" && status != "created"
  }

  predicate Fetched(fetch: Fetch, ids: seq<string>) {
    forall i | 0 <= i < |ids| :: fetch(ids[i]).Success?
  }

  /** The error `Promise.all` rejects with when some get fails. Which failure
      comes first depends on timing; the model takes the lowest index. */
  function FirstFailure(ids: seq<string>, fetch: Fetch): (e: Option<Value>)
    ensures e.None? <==> Fetched(fetch, ids)
    ensures e.Some? ==> exists i | 0 <= i < |ids| :: fetch(ids[i]) == Failure(e.value)
    decreases |ids|
  {
    if ids == [] then None
    else if fetch(ids[0]).Failure? then Some(fetch(ids[0]).error)
    else
      var rest := FirstFailure(ids[1..], fetch);
      assert forall i | 1 <= i < |ids| :: ids[1..][i - 1] == ids[i];
      rest
  }

  /** createEntryVersionedLinks / createAssetVersionedLinks: fetch every id, then
      link each to the version it was fetched at; any failed get fails it all. */
  function CreateVersionedLinks(kind: EntityKind, ids: seq<string>, fetch: Fetch): (r: Result<seq<Link>, Value>)
    ensures r.Success? <==> Fetched(fetch, ids)
    ensures r.Success? ==> |r.value| == |ids|
    ensures r.Success? ==> forall i | 0 <= i < |ids| ::
      r.value[i] == Link(LinkType, kind, ids[i], Some(fetch(ids[i]).value))
    ensures r.Failure? ==> exists i | 0 <= i < |ids| :: fetch(ids[i]) == Failure(r.error)
  {
    match FirstFailure(ids, fetch)
    case Some(e) => Failure(e)
    case None =>
      Success(seq(|ids|, i requires 0 <= i < |ids| && fetch(ids[i]).Success? =>
        Link(LinkType, kind, ids[i], Some(fetch(ids[i]).value))))
  }

  /** createEntryUnversionedLinks / createAssetUnversionedLinks: fetch every id
      only to confirm it exists, then link the ids in input order without a
      version; any failed get fails it all. */
  function CreateUnversionedLinks(kind: EntityKind, ids: seq<string>, fetch: Fetch): (r: Result<seq<Link>, Value>)
    ensures r.Success? <==> Fetched(fetch, ids)
    ensures r.Success? ==> |r.value| == |ids|
    ensures r.Success? ==> forall i | 0 <= i < |ids| :: r.value[i] == Link(LinkType, kind, ids[i], None)
    ensures r.Failure? ==> exists i | 0 <= i < |ids| :: fetch(ids[i]) == Failure(r.error)
  {
    match FirstFailure(ids, fetch)
    case Some(e) => Failure(e)
    case None => Success(seq(|ids|, i requires 0 <= i < |ids| => Link(LinkType, kind, ids[i], None)))
  }

  function CreateEntitiesCollection(links: seq<Link>): (c: Collection)
    ensures c.sysType == ArrayType && c.items == links
  {
    Collection(ArrayType, links)
  }

  /** The end of a wait, with the number of `get` calls it issued. StillWaiting
      means the scripted replies ran out while the job was not yet terminal:
      the loop has no cap and would go on polling. */
  datatype Waited =
    | Finished(job: BulkJob, gets: nat)
    | WaitThrew(error: Value, gets: nat)
    | StillWaiting(gets: nat)

  predicate NonTerminalReply(reply: Remote<BulkJob>) {
    reply.Success? && !IsTerminal(reply.value.status)
  }

  /** The wait driven by the replies `polls[k..]` to successive gets. */
  function WaitFrom(polls: seq<Remote<BulkJob>>, k: nat): (w: Waited)
    requires k <= |polls|
    ensures k <= w.gets <= |polls|
    ensures w.Finished? ==> k < w.gets && polls[w.gets - 1] == Success(w.job) && IsTerminal(w.job.status)
    ensures w.WaitThrew? ==> k < w.gets && polls[w.gets - 1] == Failure(w.error)
    ensures w.StillWaiting? ==> w.gets == |polls|
    ensures forall i | k <= i < w.gets - 1 :: NonTerminalReply(polls[i])
    ensures w.StillWaiting? ==> forall i | k <= i < |polls| :: NonTerminalReply(polls[i])
    decreases |polls| - k
  {
    if k == |polls| then StillWaiting(k)
    else match polls[k]
      case Failure(e) => WaitThrew(e, k + 1)
      case Success(job) => if IsTerminal(job.status) then Finished(job, k + 1) else WaitFrom(polls, k + 1)
  }

  /** waitForBulkActionCompletion over the replies to its successive gets. */
  function WaitSpec(polls: seq<Remote<BulkJob>>): Waited {
    WaitFrom(polls, 0)
  }

  method WaitForBulkActionCompletion(polls: seq<Remote<BulkJob>>) returns (w: Waited)
    ensures w == WaitSpec(polls)
    ensures w.Finished? ==> IsTerminal(w.job.status)
  {
    if polls == [] {
      return StillWaiting(0);
    }
    var gets := 1;
    var reply := polls[0];
    if reply.Failure? {
      return WaitThrew(reply.error, gets);
    }
    var action := reply.value;
    while action.status == "inProgress" || action.status == "created"
      invariant 1 <= gets <= |polls|
      invariant polls[gets - 1] == Success(action)
      invariant WaitFrom(polls, gets - 1) == WaitSpec(polls)
      decreases |polls| - gets
    {
      if gets == |polls| {
        return StillWaiting(gets);
      }
      reply := polls[gets];
      gets := gets + 1;
      if reply.Failure? {
        return WaitThrew(reply.error, gets);
      }
      action := reply.value;
    }
    return Finished(action, gets);
  }

  /** The number of gets is one more than the number of leading non-terminal
      statuses, and the job returned is the first terminal one, unchanged. */
  lemma {:induction false} WaitStopsAtFirstTerminal(polls: seq<Remote<BulkJob>>, k: nat)
    requires k < |polls| && polls[k].Success? && IsTerminal(polls[k].value.status)
    requires forall i | 0 <= i < k :: NonTerminalReply(polls[i])
    ensures WaitSpec(polls) == Finished(polls[k].value, k + 1)
  {
    WaitFromSkipsNonTerminal(polls, 0, k);
  }

  lemma {:induction false} WaitFromSkipsNonTerminal(polls: seq<Remote<BulkJob>>, j: nat, k: nat)
    requires j <= k <= |polls|
    requires forall i | j <= i < k :: NonTerminalReply(polls[i])
    ensures WaitFrom(polls, j) == WaitFrom(polls, k)
    decreases k - j
  {
    if j < k {
      WaitFromSkipsNonTerminal(polls, j + 1, k);
    }
  }

  /** Polling a job that is already finished takes one get and returns it as is. */
  lemma RepollFinishedJob(job: BulkJob, later: seq<Remote<BulkJob>>)
    requires IsTerminal(job.status)
    ensures WaitSpec([Success(job)] + later) == Finished(job, 1)
  {
  }

  /** There is no cap: as long as the backend reports "created" or
      "inProgress", every reply is consumed and the wait has not ended. */
  lemma {:induction false} NoPollCap(polls: seq<Remote<BulkJob>>)
    requires forall i | 0 <= i < |polls| :: NonTerminalReply(polls[i])
    ensures WaitSpec(polls) == StillWaiting(|polls|)
  {
    WaitFromSkipsNonTerminal(polls, 0, |polls|);
  }
}
