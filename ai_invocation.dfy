/** The AI-action invocation handler: one invoke per field spec, in order, then
    bounded polling rounds over the invocations not yet recorded. */
module AiInvocation {
  import opened Values
  import opened Response

  /** Invocation statuses (src/utils/ai-actions.ts). */
  datatype InvocationStatus = Scheduled | InProgress | Failed | Completed | Cancelled

  function StatusName(s: InvocationStatus): string {
    match s
    case Scheduled => "SCHEDULED"
    case InProgress => "IN_PROGRESS"
    case Failed => "FAILED"
    case Completed => "COMPLETED"
    case Cancelled => "CANCELLED"
  }

  datatype OutputFormat = RichText | Markdown | PlainText

  datatype VariableValue = VariableValue(id: string, value: Value)

  /** One requested output: a format and the variable assignments. */
  datatype FieldSpec = FieldSpec(outputFormat: OutputFormat, variables: seq<VariableValue>)

  /** The invoke call issued for one field spec. */
  datatype InvokeRequest = InvokeRequest(aiActionId: string, outputFormat: OutputFormat, variables: seq<VariableValue>)

  function RequestFor(aiActionId: string, field: FieldSpec): InvokeRequest {
    InvokeRequest(aiActionId, field.outputFormat, field.variables)
  }

  /** The reply to the k-th invoke call: the new invocation's `sys.id`, or what
      the call threw. */
  type Invoke = nat -> Remote<string>

  /** A status reply: the status and, when a result is present, its content. */
  datatype StatusReply = StatusReply(status: InvocationStatus, result: Option<Value>)

  /** The reply to the status check of invocation `id` in round `r`. */
  type Check = (nat, string) -> Remote<StatusReply>

  /** What the callback for one status check does. */
  datatype Effect = Recorded(content: Value) | Logged(error: Value) | Unchanged

  /** The callback of one status check. A FAILED or CANCELLED status is thrown
      inside the `try` and caught by its own `catch`, exactly like an error of
      the check call itself: both are only logged, and the id stays pending. */
  function Callback(id: string, reply: Remote<StatusReply>): (e: Effect)
    ensures e.Recorded? <==> reply.Success? && reply.value.status == Completed && reply.value.result.Some?
    ensures e.Recorded? ==> e.content == reply.value.result.value
    ensures reply.Failure? ==> e == Logged(reply.error)
    ensures reply.Success? && (reply.value.status == Failed || reply.value.status == Cancelled) ==>
      e == Logged(ErrorObj("AI action " + id + " failed with status " + StatusName(reply.value.status)))
    ensures reply.Success? && reply.value.status != Failed && reply.value.status != Cancelled ==> !e.Logged?
  {
    match reply
    case Failure(err) => Logged(err)
    case Success(sr) =>
      if sr.status == Completed && sr.result.Some? then Recorded(sr.result.value)
      else if sr.status == Failed || sr.status == Cancelled then
        Logged(ErrorObj("AI action " + id + " failed with status " + StatusName(sr.status)))
      else Unchanged
  }

  predicate Records(id: string, check: Check, round: nat) {
    Callback(id, check(round, id)).Recorded?
  }

  /** The result map (`completedActions`) and its keys in insertion order. */
  datatype PollState = PollState(done: map<string, Value>, order: seq<string>)

  ghost predicate WellFormed(st: PollState) {
    && (forall i, j | 0 <= i < j < |st.order| :: st.order[i] != st.order[j])
    && (forall k :: k in st.done <==> k in st.order)
  }

  /** `Map.set`: a new key goes to the end of the insertion order. */
  function Set(st: PollState, id: string, content: Value): (r: PollState)
    ensures WellFormed(st) ==> WellFormed(r)
  {
    PollState(st.done[id := content], if id in st.done then st.order else st.order + [id])
  }

  /** The ids of `handles` not yet recorded, in handle order. */
  function Pending(handles: seq<string>, done: map<string, Value>): (p: seq<string>)
    ensures forall h :: h in p <==> h in handles && h !in done
    decreases |handles|
  {
    if handles == [] then []
    else (if handles[0] in done then [] else [handles[0]]) + Pending(handles[1..], done)
  }

  /** Each id not yet recorded is pending as often as it occurs in `handles`,
      and a recorded one not at all. */
  lemma {:induction false} PendingCounts(handles: seq<string>, done: map<string, Value>)
    ensures forall h :: multiset(Pending(handles, done))[h] == if h in done then 0 else multiset(handles)[h]
    decreases |handles|
  {
    if handles != [] {
      assert handles == [handles[0]] + handles[1..];
      PendingCounts(handles[1..], done);
    }
  }

  /** One round's checks of `ids`. Within a round the checks settle in any
      order; the model records them in the order of `ids`. */
  function RunChecks(round: nat, ids: seq<string>, check: Check, st: PollState): (r: PollState)
    ensures WellFormed(st) ==> WellFormed(r)
    ensures forall h :: h in r.done <==> h in st.done || (h in ids && Records(h, check, round))
    ensures forall h | h in r.done ::
      r.done[h] == if h in ids && Records(h, check, round) then Callback(h, check(round, h)).content else st.done[h]
    decreases |ids|
  {
    if ids == [] then st
    else
      var next := match Callback(ids[0], check(round, ids[0]))
                  case Recorded(c) => Set(st, ids[0], c)
                  case _ => st;
      RunChecks(round, ids[1..], check, next)
  }

  /** The outcome of the polling loop: the final state, the rounds it ran, and
      the ids checked in each round. */
  datatype Polled = Polled(state: PollState, rounds: nat, checked: seq<seq<string>>)

  /** The polling loop from round `attempt` on. */
  function PollFrom(handles: seq<string>, check: Check, maxAttempts: int, attempt: nat,
                    st: PollState, checked: seq<seq<string>>): (p: Polled)
    ensures attempt <= p.rounds
    ensures attempt < maxAttempts ==> p.rounds <= maxAttempts
    ensures attempt >= maxAttempts ==> p.rounds == attempt
    ensures p.rounds < maxAttempts ==> |p.state.done| >= |handles|
    ensures |st.done| >= |handles| ==> p.rounds == attempt && p.state == st
    ensures |p.checked| == |checked| + (p.rounds - attempt) && p.checked[..|checked|] == checked
    ensures WellFormed(st) ==> WellFormed(p.state)
    decreases if attempt < maxAttempts then maxAttempts - attempt else 0
  {
    if attempt < maxAttempts && |st.done| < |handles| then
      var pending := Pending(handles, st.done);
      var p := PollFrom(handles, check, maxAttempts, attempt + 1, RunChecks(attempt, pending, check, st), checked + [pending]);
      assert p.checked[..|checked|] == (checked + [pending])[..|checked|];
      p
    else Polled(st, attempt, checked)
  }

  const Empty := PollState(map[], [])

  /** pollForCompletion's loop, from an empty result map. */
  function PollSpec(handles: seq<string>, check: Check, maxAttempts: int): (p: Polled)
    ensures WellFormed(p.state)
    ensures p.rounds <= Max(maxAttempts, 0)
    ensures p.rounds < maxAttempts ==> |p.state.done| >= |handles|
    ensures |handles| == 0 ==> p.rounds == 0 && p.state == Empty
    ensures |p.checked| == p.rounds
  {
    PollFrom(handles, check, maxAttempts, 0, Empty, [])
  }

  function TimeoutMessage(completed: nat, total: nat, maxAttempts: int): (m: string)
    ensures PollingTimeout <= m && m[|m| - |Attempts|..] == Attempts
  {
    PollingTimeout + IntToString(completed) + "/" + IntToString(total)
      + " actions completed after " + IntToString(maxAttempts) + Attempts
  }

  const PollingTimeout := "Polling timeout: "
  const Attempts := " attempts"

  /** One element of the returned list. */
  datatype ActionContent = ActionContent(actionId: string, content: Value)

  /** `Array.from(completedActions.entries())`: the entries in insertion order. */
  function Entries(st: PollState): (r: seq<ActionContent>)
    requires WellFormed(st)
    ensures |r| == |st.order|
    ensures forall i | 0 <= i < |r| :: r[i] == ActionContent(st.order[i], st.done[st.order[i]])
  {
    seq(|st.order|, i requires 0 <= i < |st.order| => ActionContent(st.order[i], st.done[st.order[i]]))
  }

  /** pollForCompletion's result: the entries, or the timeout error. */
  function PollResult(handles: seq<string>, check: Check, maxAttempts: int): (r: Result<seq<ActionContent>, Value>)
    ensures |handles| == 0 ==> r == Success([])
    ensures r.Failure? ==>
      |handles| > 0 && r.error == ErrorObj(TimeoutMessage(|PollSpec(handles, check, maxAttempts).state.done|, |handles|, maxAttempts))
    ensures r.Success? ==> |r.value| == |PollSpec(handles, check, maxAttempts).state.order|
  {
    var p := PollSpec(handles, check, maxAttempts);
    if |p.state.done| < |handles| then Failure(ErrorObj(TimeoutMessage(|p.state.done|, |handles|, maxAttempts)))
    else Success(Entries(p.state))
  }

  /** One polling round: check every pending id in turn and record the ones
      that came back COMPLETED with a result. */
  method CheckRound(round: nat, pending: seq<string>, check: Check, completed: map<string, Value>, order: seq<string>)
    returns (completed': map<string, Value>, order': seq<string>)
    requires WellFormed(PollState(completed, order))
    ensures PollState(completed', order') == RunChecks(round, pending, check, PollState(completed, order))
  {
    completed', order' := completed, order;
    var i := 0;
    while i < |pending|
      invariant 0 <= i <= |pending|
      invariant WellFormed(PollState(completed', order'))
      invariant RunChecks(round, pending[i..], check, PollState(completed', order'))
             == RunChecks(round, pending, check, PollState(completed, order))
    {
      var id := pending[i];
      var reply := check(round, id);
      assert pending[i..][1..] == pending[i + 1..];
      match reply {
        case Failure(_) =>
          // the check call threw: logged, the id stays pending
        case Success(sr) =>
          if sr.status == Completed && sr.result.Some? {
            if id !in completed' {
              order' := order' + [id];
            }
            completed' := completed'[id := sr.result.value];
          }
          // FAILED or CANCELLED is thrown and caught right here: logged, still pending
      }
      i := i + 1;
    }
  }

  method PollForCompletion(handles: seq<string>, check: Check, maxAttempts: int)
    returns (r: Result<seq<ActionContent>, Value>, rounds: nat)
    ensures r == PollResult(handles, check, maxAttempts)
    ensures rounds == PollSpec(handles, check, maxAttempts).rounds
  {
    var completed: map<string, Value> := map[];
    var order: seq<string> := [];
    ghost var checked: seq<seq<string>> := [];
    var attempt: nat := 0;
    while attempt < maxAttempts && |completed| < |handles|
      invariant WellFormed(PollState(completed, order))
      invariant PollFrom(handles, check, maxAttempts, attempt, PollState(completed, order), checked)
             == PollSpec(handles, check, maxAttempts)
      decreases maxAttempts - attempt
    {
      var pending := Pending(handles, completed);
      completed, order := CheckRound(attempt, pending, check, completed, order);
      checked := checked + [pending];
      attempt := attempt + 1;
    }
    rounds := attempt;
    if |completed| < |handles| {
      r := Failure(ErrorObj(TimeoutMessage(|completed|, |handles|, maxAttempts)));
    } else {
      r := Success(Entries(PollState(completed, order)));
    }
  }

  /** The content recorded for `h` by the first of rounds 0 .. a-1 whose check
      completed with a result, if any did. */
  ghost function FirstRecorded(h: string, check: Check, a: nat): Option<Value> {
    if a == 0 then None
    else match FirstRecorded(h, check, a - 1)
      case Some(c) => Some(c)
      case None => if Records(h, check, a - 1) then Some(Callback(h, check(a - 1, h)).content) else None
  }

  /** No round before `a` recorded `h` exactly when FirstRecorded finds nothing. */
  lemma {:induction false} FirstRecordedNone(h: string, check: Check, a: nat)
    ensures FirstRecorded(h, check, a).None? <==> forall r | 0 <= r < a :: !Records(h, check, r)
  {
    if a > 0 {
      FirstRecordedNone(h, check, a - 1);
    }
  }

  lemma FirstRecordedAt(h: string, check: Check, r: nat)
    requires FirstRecorded(h, check, r).None? && Records(h, check, r)
    ensures FirstRecorded(h, check, r + 1) == Some(Callback(h, check(r, h)).content)
  {
  }

  lemma {:induction false} FirstRecordedStable(h: string, check: Check, a: nat, b: nat)
    requires a <= b && FirstRecorded(h, check, a).Some?
    ensures FirstRecorded(h, check, b) == FirstRecorded(h, check, a)
    decreases b - a
  {
    if a < b {
      FirstRecordedStable(h, check, a, b - 1);
    }
  }

  /** The state after `a` rounds holds exactly the handle ids some round
      recorded, each with the content of the first round that recorded it. */
  ghost predicate DoneAfter(handles: seq<string>, check: Check, a: nat, st: PollState) {
    && (forall h :: h in st.done <==> h in handles && FirstRecorded(h, check, a).Some?)
    && (forall h | h in st.done :: st.done[h] == FirstRecorded(h, check, a).value)
  }

  /** Round r checked exactly the handle ids no earlier round had recorded. */
  ghost predicate CheckedPending(handles: seq<string>, check: Check, checked: seq<seq<string>>) {
    forall r, h {:trigger h in checked[r]} | 0 <= r < |checked| :: h in checked[r] <==> h in handles && FirstRecorded(h, check, r).None?
  }

  ghost predicate RecordedAfter(handles: seq<string>, check: Check, a: nat, st: PollState, checked: seq<seq<string>>) {
    DoneAfter(handles, check, a, st) && |checked| == a && CheckedPending(handles, check, checked)
  }

  lemma DoneStep(handles: seq<string>, check: Check, a: nat, st: PollState)
    requires DoneAfter(handles, check, a, st)
    ensures DoneAfter(handles, check, a + 1, RunChecks(a, Pending(handles, st.done), check, st))
  {
    var next := RunChecks(a, Pending(handles, st.done), check, st);
    forall h
      ensures h in next.done <==> h in handles && FirstRecorded(h, check, a + 1).Some?
    {
    }
    forall h | h in next.done
      ensures next.done[h] == FirstRecorded(h, check, a + 1).value
    {
      if h in st.done {
        FirstRecordedStable(h, check, a, a + 1);
      }
    }
  }

  lemma CheckedStep(handles: seq<string>, check: Check, checked: seq<seq<string>>, done: map<string, Value>)
    requires CheckedPending(handles, check, checked)
    requires forall h :: h in done <==> h in handles && FirstRecorded(h, check, |checked|).Some?
    ensures CheckedPending(handles, check, checked + [Pending(handles, done)])
  {
    var checked' := checked + [Pending(handles, done)];
    forall r, h | 0 <= r < |checked'|
      ensures h in checked'[r] <==> h in handles && FirstRecorded(h, check, r).None?
    {
      if r < |checked| {
        assert checked'[r] == checked[r];
        assert h in checked[r] <==> h in handles && FirstRecorded(h, check, r).None?;
      } else {
        assert checked'[r] == Pending(handles, done);
        assert r == |checked|;
        assert h in Pending(handles, done) <==> h in handles && h !in done;
      }
    }
  }

  lemma {:induction false} PollFromRecorded(handles: seq<string>, check: Check, maxAttempts: int, attempt: nat,
                                            st: PollState, checked: seq<seq<string>>)
    requires RecordedAfter(handles, check, attempt, st, checked)
    ensures var p := PollFrom(handles, check, maxAttempts, attempt, st, checked);
            RecordedAfter(handles, check, p.rounds, p.state, p.checked)
    decreases if attempt < maxAttempts then maxAttempts - attempt else 0
  {
    if attempt < maxAttempts && |st.done| < |handles| {
      DoneStep(handles, check, attempt, st);
      CheckedStep(handles, check, checked, st.done);
      PollFromRecorded(handles, check, maxAttempts, attempt + 1,
                       RunChecks(attempt, Pending(handles, st.done), check, st), checked + [Pending(handles, st.done)]);
    }
  }

  /** Polling records each handle id with the content of the first round whose
      check came back COMPLETED with a result, never overwrites it, and checks
      in each round exactly the handle ids not recorded before it. How any other
      id's check went plays no part. */
  lemma PollRecordsFirstCompletion(handles: seq<string>, check: Check, maxAttempts: int)
    ensures var p := PollSpec(handles, check, maxAttempts);
            RecordedAfter(handles, check, p.rounds, p.state, p.checked)
  {
    PollFromRecorded(handles, check, maxAttempts, 0, Empty, []);
  }

  /** The handle ids some round before `a` recorded. */
  ghost function CompletedBy(handles: seq<string>, check: Check, a: nat): set<string> {
    set h | h in handles && FirstRecorded(h, check, a).Some?
  }

  lemma {:induction false} PollFromIncomplete(handles: seq<string>, check: Check, maxAttempts: int, attempt: nat,
                                              st: PollState, checked: seq<seq<string>>)
    requires RecordedAfter(handles, check, attempt, st, checked)
    requires forall r | 0 <= r < attempt :: |CompletedBy(handles, check, r)| < |handles|
    ensures var p := PollFrom(handles, check, maxAttempts, attempt, st, checked);
            forall r | 0 <= r < p.rounds :: |CompletedBy(handles, check, r)| < |handles|
    decreases if attempt < maxAttempts then maxAttempts - attempt else 0
  {
    if attempt < maxAttempts && |st.done| < |handles| {
      assert st.done.Keys == CompletedBy(handles, check, attempt);
      DoneStep(handles, check, attempt, st);
      CheckedStep(handles, check, checked, st.done);
      PollFromIncomplete(handles, check, maxAttempts, attempt + 1,
                         RunChecks(attempt, Pending(handles, st.done), check, st), checked + [Pending(handles, st.done)]);
    }
  }

  /** pollForCompletion runs a round only while fewer ids are recorded than
      there are handles, and stops before the attempt limit only once that many
      are recorded: no round is spent when every handle is already complete. */
  lemma RoundsRunOnlyWhileIncomplete(handles: seq<string>, check: Check, maxAttempts: int)
    ensures var p := PollSpec(handles, check, maxAttempts);
            && (forall r | 0 <= r < p.rounds :: |CompletedBy(handles, check, r)| < |handles|)
            && (p.rounds < maxAttempts ==> |CompletedBy(handles, check, p.rounds)| >= |handles|)
  {
    var p := PollSpec(handles, check, maxAttempts);
    PollFromIncomplete(handles, check, maxAttempts, 0, Empty, []);
    PollRecordsFirstCompletion(handles, check, maxAttempts);
    assert p.state.done.Keys == CompletedBy(handles, check, p.rounds);
  }

  lemma {:induction false} SetOfSeqCard(s: seq<string>)
    ensures |set x | x in s| <= |s|
    ensures (exists i, j | 0 <= i < j < |s| :: s[i] == s[j]) ==> |set x | x in s| < |s|
    ensures (forall i, j | 0 <= i < j < |s| :: s[i] != s[j]) ==> |set x | x in s| == |s|
  {
    if s != [] {
      SetOfSeqCard(s[1..]);
      var rest := set x | x in s[1..];
      assert (set x | x in s) == {s[0]} + rest;
      if exists i, j | 0 <= i < j < |s| :: s[i] == s[j] {
        var i, j :| 0 <= i < j < |s| && s[i] == s[j];
        if i == 0 {
          assert s[0] in rest by { assert s[1..][j - 1] == s[j]; }
        } else {
          assert s[1..][i - 1] == s[1..][j - 1];
        }
      } else {
        assert s[0] !in rest;
      }
    }
  }

  lemma SubsetCard(a: set<string>, b: set<string>)
    requires a <= b
    ensures |a| <= |b|
  {
    assert b == a + (b - a);
  }

  /** A well-formed state holding at least |handles| ids, all of them handle
      ids, holds every handle id, once each, and the handles are distinct. */
  lemma CoverByCounting(handles: seq<string>, st: PollState)
    requires WellFormed(st)
    requires forall h | h in st.done :: h in handles
    requires |st.done| >= |handles|
    ensures forall i, j | 0 <= i < j < |handles| :: handles[i] != handles[j]
    ensures |st.order| == |handles|
    ensures forall h | h in handles :: h in st.done
  {
    var ids := set x | x in handles;
    var keys := st.done.Keys;
    SubsetCard(keys, ids);
    SetOfSeqCard(handles);
    assert keys == set x | x in st.order;
    SetOfSeqCard(st.order);
    forall h | h in handles
      ensures h in st.done
    {
      if h !in st.done {
        SubsetCard(keys, ids - {h});
      }
    }
  }

  /** A state that records, after a rounds, every handle id with its first
      completion and holds at least |handles| ids lists every handle id once. */
  lemma EntriesCoverHandles(handles: seq<string>, check: Check, a: nat, st: PollState)
    requires WellFormed(st) && DoneAfter(handles, check, a, st) && |st.done| >= |handles|
    ensures var entries := Entries(st);
            && |entries| == |handles|
            && (forall i, j | 0 <= i < j < |handles| :: handles[i] != handles[j])
            && (forall h :: h in handles <==> exists i | 0 <= i < |entries| :: entries[i].actionId == h)
            && (forall i | 0 <= i < |entries| :: Some(entries[i].content) == FirstRecorded(entries[i].actionId, check, a))
  {
    CoverByCounting(handles, st);
    var entries := Entries(st);
    forall h | h in handles
      ensures exists i | 0 <= i < |entries| :: entries[i].actionId == h
    {
      var i :| 0 <= i < |st.order| && st.order[i] == h;
      assert entries[i].actionId == h;
    }
  }

  /** On success every handle id was recorded, the handle ids were distinct,
      and the result holds one entry per handle id, each carrying the content
      of the first check that completed with a result. */
  lemma PollSuccessCoversHandles(handles: seq<string>, check: Check, maxAttempts: int)
    requires PollResult(handles, check, maxAttempts).Success?
    ensures var p := PollSpec(handles, check, maxAttempts);
            var entries := PollResult(handles, check, maxAttempts).value;
            && |entries| == |handles|
            && (forall i, j | 0 <= i < j < |handles| :: handles[i] != handles[j])
            && (forall h :: h in handles <==> exists i | 0 <= i < |entries| :: entries[i].actionId == h)
            && (forall i | 0 <= i < |entries| ::
                  Some(entries[i].content) == FirstRecorded(entries[i].actionId, check, p.rounds))
  {
    var p := PollSpec(handles, check, maxAttempts);
    PollRecordsFirstCompletion(handles, check, maxAttempts);
    EntriesCoverHandles(handles, check, p.rounds, p.state);
  }

  /** An id that no round finds COMPLETED with a result (for instance one the
      backend keeps reporting as FAILED or CANCELLED) never aborts the batch:
      it stays pending through every round and the call ends in the timeout
      error, not in an error naming the id. */
  lemma NeverCompletedTimesOut(handles: seq<string>, check: Check, maxAttempts: int, h: string)
    requires h in handles
    requires forall r | 0 <= r < maxAttempts :: !Records(h, check, r)
    ensures var p := PollSpec(handles, check, maxAttempts);
            && PollResult(handles, check, maxAttempts)
                 == Failure(ErrorObj(TimeoutMessage(|p.state.done|, |handles|, maxAttempts)))
            && |p.state.done| < |handles|
            && p.rounds == Max(maxAttempts, 0)
  {
    var p := PollSpec(handles, check, maxAttempts);
    PollRecordsFirstCompletion(handles, check, maxAttempts);
    FirstRecordedNone(h, check, p.rounds);
    assert h !in p.state.done;
    SubsetCard(p.state.done.Keys, (set x | x in handles) - {h});
    SetOfSeqCard(handles);
  }

  lemma CheckedThenRecorded(handles: seq<string>, check: Check, a: nat, st: PollState, checked: seq<seq<string>>,
                            r: nat, h: string)
    requires RecordedAfter(handles, check, a, st, checked)
    requires r < a && h in checked[r] && Records(h, check, r)
    ensures h in st.done && st.done[h] == Callback(h, check(r, h)).content
  {
    assert h in handles && FirstRecorded(h, check, r).None? by {
      assert CheckedPending(handles, check, checked);
    }
    FirstRecordedAt(h, check, r);
    FirstRecordedStable(h, check, r + 1, a);
    assert DoneAfter(handles, check, a, st);
  }

  /** A check that completes with a result is recorded even when every other
      check of the same round failed or threw. */
  lemma CompletionRecordedDespiteOthers(handles: seq<string>, check: Check, maxAttempts: int, r: nat, h: string)
    requires var p := PollSpec(handles, check, maxAttempts); r < p.rounds && h in p.checked[r]
    requires Records(h, check, r)
    ensures var p := PollSpec(handles, check, maxAttempts);
            h in p.state.done && p.state.done[h] == Callback(h, check(r, h)).content
  {
    var p := PollSpec(handles, check, maxAttempts);
    PollRecordsFirstCompletion(handles, check, maxAttempts);
    CheckedThenRecorded(handles, check, p.rounds, p.state, p.checked, r, h);
  }

  /** With no field specs nothing is polled and the result is empty. */
  lemma NoFieldsNoRounds(check: Check, maxAttempts: int)
    ensures PollSpec([], check, maxAttempts).rounds == 0
    ensures PollResult([], check, maxAttempts) == Success([])
  {
  }

  const DefaultMaxAttempts := 10
  const InvokedMessage := "AI action invoked and completed successfully"
  const NextStepsGuidance := "Required next step: Now that the invocation is complete, you will take the next step to complete the workflow. This will involve a CRUD operation that will take action on each of the action returned in the aiActions variable. You will need to use the appropriate tool to do this, choose a tool depending on the type of entity the action was executed on and the description of the Ai Action."
  const InvokeErrorPrefix := "Error invoking AI action"

  predicate AllInvoked(invoke: Invoke, n: nat) {
    forall i | 0 <= i < n :: invoke(i).Success?
  }

  /** The ids of the invocations the first n invoke calls created. */
  function InvokedIds(invoke: Invoke, n: nat): (ids: seq<string>)
    requires AllInvoked(invoke, n)
    ensures |ids| == n && forall i | 0 <= i < n :: invoke(i) == Success(ids[i])
  {
    seq(n, i requires 0 <= i < n && invoke(i).Success? => invoke(i).value)
  }

  /** The sequential invoke loop: one call per field spec, in order, stopping at
      the first call that throws. */
  method InvokeAll(aiActionId: string, fields: seq<FieldSpec>, invoke: Invoke)
    returns (r: Result<seq<string>, Value>, issued: seq<InvokeRequest>)
    ensures |issued| <= |fields|
    ensures forall i | 0 <= i < |issued| :: issued[i] == RequestFor(aiActionId, fields[i])
    ensures r.Success? <==> AllInvoked(invoke, |fields|)
    ensures r.Success? ==> |issued| == |fields| && r.value == InvokedIds(invoke, |fields|)
    ensures r.Failure? ==>
      && 1 <= |issued| && invoke(|issued| - 1) == Failure(r.error)
      && AllInvoked(invoke, |issued| - 1)
  {
    var aiActions: seq<string> := [];
    issued := [];
    for i := 0 to |fields|
      invariant |aiActions| == i && |issued| == i
      invariant forall k | 0 <= k < i :: issued[k] == RequestFor(aiActionId, fields[k])
      invariant forall k | 0 <= k < i :: invoke(k) == Success(aiActions[k])
    {
      issued := issued + [RequestFor(aiActionId, fields[i])];
      var reply := invoke(i);
      if reply.Failure? {
        return Failure(reply.error), issued;
      }
      aiActions := aiActions + [reply.value];
    }
    return Success(aiActions), issued;
  }

  function EntryValue(e: ActionContent): Value {
    Obj(map["actionId" := Str(e.actionId), "content" := e.content])
  }

  /** The success reply: every completed action's id and content, in handle
      order, and the guidance on the next step. */
  function CompletedReply(entries: seq<ActionContent>): (r: ToolResponse)
    ensures IsSuccessWith(r, InvokedMessage) && r.content[0].text.Formatted?
    ensures var d := r.content[0].text.data;
            && d.Keys == {"aiActions", "nextStepsGuidance"}
            && d["nextStepsGuidance"] == Str(NextStepsGuidance)
            && d["aiActions"].Arr? && |d["aiActions"].elems| == |entries|
            && forall i | 0 <= i < |entries| ::
                 d["aiActions"].elems[i] == Obj(map["actionId" := Str(entries[i].actionId), "content" := entries[i].content])
  {
    CreateSuccessResponse(InvokedMessage, Some(map[
      "aiActions" := Arr(seq(|entries|, i requires 0 <= i < |entries| => EntryValue(entries[i]))),
      "nextStepsGuidance" := Str(NextStepsGuidance)]))
  }

  /** invokeAiActionTool: invoke, poll with the default budget, reply. */
  method InvokeAiActionTool(aiActionId: string, fields: seq<FieldSpec>, invoke: Invoke, check: Check)
    returns (response: ToolResponse, issued: seq<InvokeRequest>, rounds: nat)
    ensures |issued| <= |fields| && forall i | 0 <= i < |issued| :: issued[i] == RequestFor(aiActionId, fields[i])
    // an invoke that throws aborts the batch before any polling
    ensures !AllInvoked(invoke, |fields|) ==>
      && rounds == 0 && 1 <= |issued| <= |fields| && invoke(|issued| - 1).Failure?
      && AllInvoked(invoke, |issued| - 1)
      && IsErrorResponse(response) && HasErrorText(response, InvokeErrorPrefix)
      && response.content[0].text == Plain(InvokeErrorPrefix + ": " + ErrorMessage(invoke(|issued| - 1).error))
    ensures AllInvoked(invoke, |fields|) ==>
      var handles := InvokedIds(invoke, |fields|);
      var p := PollResult(handles, check, DefaultMaxAttempts);
      && |issued| == |fields|
      && rounds == PollSpec(handles, check, DefaultMaxAttempts).rounds && rounds <= DefaultMaxAttempts
      && (p.Success? ==> response == CompletedReply(p.value))
      && (p.Failure? ==>
            IsErrorResponse(response) && HasErrorText(response, InvokeErrorPrefix)
            && response.content[0].text == Plain(InvokeErrorPrefix + ": " + p.error.message))
  {
    var invoked;
    invoked, issued := InvokeAll(aiActionId, fields, invoke);
    if invoked.Failure? {
      response := Reply(Threw(invoked.error), InvokeErrorPrefix);
      rounds := 0;
      return;
    }
    var completed;
    completed, rounds := PollForCompletion(invoked.value, check, DefaultMaxAttempts);
    if completed.Failure? {
      response := Reply(Threw(completed.error), InvokeErrorPrefix);
      return;
    }
    response := CompletedReply(completed.value);
  }
}
