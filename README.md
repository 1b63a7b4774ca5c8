# Contentful MCP server: tool handlers

This project models the tool handlers of an MCP server for the Contentful
content-management API, together with the utilities they share. A handler
receives the tool's arguments, sends requests to the Contentful backend,
shapes the replies into a `ToolResponse`, and turns a thrown error into an
error reply under its own prefix. The model covers these parts:

- **Responses** (`Response`): building a success reply, and the error wrapper
  that catches what a handler throws.
- **Summarizer** (`Summarizer`): truncating a page of items, or an array, to
  `maxItems` and saying how many remain.
- **Bulk operations** (`BulkOperations`): versioned and unversioned links, the
  entity collection, and the loop that waits for a bulk job to reach a
  terminal status.
- **Publish and unpublish** (`PublishTools`): the single-id path, which catches
  failures and reports them as a normal reply. The bulk path, for any other
  number of ids, lets failures propagate.
- **AI-action invocation** (`AiInvocation`):
  - the sequential invoke loop;
  - the bounded polling loop, which records each invocation's first
    COMPLETED result and ends in a timeout error when some id never completes;
  - the final reply.
- **Update handlers** (`UpdateContentType`, `UpdateEntities`):
  - the content-type field reconciliation;
  - the entry and asset field merge and tag concatenation;
  - the AI-action overrides, which apply only to truthy arguments.
- **List and search handlers** (`ListTools`): the page query each handler
  sends, the projection of each item, the truncated reply, and the entry
  search.

Remote calls are not executed. Each one is a parameter holding the reply the
backend gives:

- a `Fetch` function for `get` by id;
- a single `Remote<T>` for a single call;
- a finite sequence of replies for a loop of calls;
- `Invoke` and `Check` functions indexed by call number, or by round and
  invocation id.

A handler's end is a `Completion`: it returned a reply, it threw a value, or
it was still polling when the scripted replies ran out. `Value` stands for a
JavaScript value, with its truthiness and its `String()` form.

## Model

| member | source | states |
|---|---|---|
| Response.CreateSuccessResponse | src/utils/response.ts:23-37 | the reply is not an error reply; its single text item is the message, or the message formatted with the data when data is given |
| Response.WithErrorHandling | src/utils/response.ts:42-72 | the wrapped handler never throws; a returned reply passes through unchanged; a thrown error becomes an error reply whose text is the prefix (default "Error"), a colon and the error's message or its `String()` form |
| Response.ErrorMessage | src/utils/response.ts:59-60 | the reported message is an `Error`'s own message, a thrown string itself, and `String()` of anything else (JsStringOfScalars states the scalar cases) |
| Response.Reply | src/utils/response.ts:56-70 | a settled handler gives its own reply, or an error reply carrying the prefix when it threw |
| Values.ParseDigitsOfDigits | src/utils/response.ts:60 | the decimal digits `String()` prints for a natural number read back as that number |
| Values.JsStringOfScalars | src/utils/response.ts:60 | `String()` of a string is the string itself, and of a number its digits |
| Values.JsString | src/utils/response.ts:60 | `String()` of a value: a string is itself, undefined and null print their names, an empty array prints as empty, and an error starts with "Error" |
| Values.DigitChar | src/utils/response.ts:60 | each digit is printed as the character 0-9 that reads back as that digit |
| Summarizer.SummarizeData | src/utils/summarizer.ts:8-59 | a collection with non-array items or a non-number total, a short enough collection or array, and any other value come back unchanged; a longer one keeps its first maxItems items, and reports the total, the count shown, the count remaining, the message and the next skip |
| Summarizer.SummarizeShowsPrefix | src/utils/summarizer.ts:27-54 | for a non-negative maxItems, the items shown are exactly the first min(n, maxItems) items in order |
| Summarizer.SummarizeIdempotent | src/utils/summarizer.ts:8-59 | summarizing an already summarized value changes nothing |
| Summarizer.SliceTo | src/utils/summarizer.ts:32 | `slice(0, k)` is a prefix of the list: the first min(n, k) items, or all but the last -k for a negative k |
| Summarizer.Truncated | src/utils/summarizer.ts:31-54 | the six keys of a truncated page; with 0 <= maxItems <= n the items are the first maxItems; shown plus remaining is the total; the next skip is the count shown; the message is the one given |
| BulkOperations.FirstFailure | src/utils/bulkOperations.ts:85-101 | no failure exactly when every `get` succeeds; a reported failure is the error of one of the ids |
| BulkOperations.CreateVersionedLinks | src/utils/bulkOperations.ts:80-102 | fails exactly when some `get` fails, with that error; otherwise one Link per id in order, carrying the fetched version |
| BulkOperations.CreateUnversionedLinks | src/utils/bulkOperations.ts:105-128 | fails exactly when some `get` fails; otherwise one Link per id in order, with no version |
| BulkOperations.CreateEntitiesCollection | src/utils/bulkOperations.ts:182-197 | an Array collection holding the links as given |
| BulkOperations.WaitFrom | src/utils/bulkOperations.ts:60-76 | the wait ends on the first reply that throws or is terminal; every reply before it was non-terminal; a wait that has not ended has used every reply |
| BulkOperations.WaitForBulkActionCompletion | src/utils/bulkOperations.ts:55-77 | the loop's result equals the wait specification, and a finished job has a terminal status |
| BulkOperations.WaitStopsAtFirstTerminal | src/utils/bulkOperations.ts:65-74 | after k non-terminal replies and a terminal one, the wait finishes with that job after k+1 gets |
| BulkOperations.WaitFromSkipsNonTerminal | src/utils/bulkOperations.ts:65-74 | non-terminal replies are skipped without changing the outcome |
| BulkOperations.RepollFinishedJob | src/utils/bulkOperations.ts:60-76 | a job that is terminal at the first `get` is returned without polling again |
| BulkOperations.NoPollCap | src/utils/bulkOperations.ts:65-74 | the loop has no attempt cap: while replies stay "created" or "inProgress" it never ends |
| PublishTools.IdValues | src/tools/entries/publishEntry.ts:88-91 | the ids echoed in the bulk reply, in order |
| PublishTools.NormalizeIds | src/tools/entries/publishEntry.ts:33 | a single id becomes a one-element list and a list is used as given, so a list the schema accepts has at most 100 ids |
| PublishTools.EntityGets | src/utils/bulkOperations.ts:85-91 | one `get` per id, in id order |
| PublishTools.SinglePath | src/tools/entries/publishEntry.ts:36-63 | one id: `get` then publish; a failed `get` stops before the publish; every failure becomes a normal reply with the failure message, the error as status, and the id |
| PublishTools.BulkError | src/tools/entries/publishEntry.ts:65-91 | the error the bulk path throws: a failed `get` of some id, else a rejected submission, else the error of a failed job poll; none when the job finishes |
| PublishTools.BulkPath | src/tools/entries/publishEntry.ts:65-91 | every id is fetched first; a failed `get` throws before anything is submitted; otherwise one bulk submission of one link per id; a rejected submission or a failed job poll is thrown; a finished job is reported with its status and all the ids; it throws exactly the error BulkError names |
| PublishTools.Dispatch | src/tools/entries/publishEntry.ts:33-92 | exactly one id takes the single path, any other count takes the bulk path, nothing is acted on singly on the bulk path, versions are sent only to publish, and a bulk failure (a failed `get`, a rejected submission, a failed job poll) is thrown rather than answered |
| PublishTools.Tool | src/tools/entries/publishEntry.ts:94-97 | the wrapped tool never throws; a thrown error becomes the reply "<prefix>: <message>" flagged isError, anything else passes through; an error reply can only come from the bulk path |
| PublishTools.PublishEntryTool | src/tools/entries/publishEntry.ts:33-97 | a single id never gets an error reply; a list of other than one id submits a bulk publish after the gets; any bulk-path failure comes back as "Error publishing entry: <message>" flagged isError |
| PublishTools.UnpublishEntryTool | src/tools/entries/unpublishEntry.ts:33-97 | as publishing, with a bulk unpublish of unversioned links; a bulk-path failure comes back as "Error unpublishing entry: <message>" |
| PublishTools.PublishAssetTool | src/tools/assets/publishAsset.ts:33-97 | as for entries, on assets; a bulk-path failure comes back as "Error publishing asset: <message>" |
| PublishTools.UnpublishAssetTool | src/tools/assets/unpublishAsset.ts:33-97 | as for entries, on assets; a bulk-path failure comes back as "Error unpublishing asset: <message>" |
| PublishTools.EmptyListSubmitsEmptyCollection | src/tools/entries/publishEntry.ts:65-79 | an empty id list fetches nothing and submits an empty collection |
| PublishTools.FailedJobReportedAsSuccess | src/tools/entries/publishEntry.ts:82-91 | a bulk job that ends "failed" is still answered with the success message, echoing "failed" as its status |
| AiInvocation.Callback | src/tools/ai-actions/invokeAiAction.ts:50-75 | a check records the content exactly when the status is COMPLETED with a result; FAILED and CANCELLED raise "AI action <id> failed with status <S>", which is logged like a failed `get`; other statuses change nothing |
| AiInvocation.Pending | src/tools/ai-actions/invokeAiAction.ts:47-48 | the ids still to check are exactly the handle ids not yet recorded |
| AiInvocation.PendingCounts | src/tools/ai-actions/invokeAiAction.ts:47-48 | each unrecorded handle id is checked as often as it occurs among the handles, a recorded one never |
| AiInvocation.Set | src/tools/ai-actions/invokeAiAction.ts:61-64 | recording an id keeps the map and its insertion order consistent |
| AiInvocation.RunChecks | src/tools/ai-actions/invokeAiAction.ts:46-77 | after a round, an id is recorded exactly when it was recorded before or this round's check recorded it, and its content is that check's result |
| AiInvocation.PollFrom | src/tools/ai-actions/invokeAiAction.ts:39-78 | the loop runs at most maxAttempts rounds, stops early only when every id is recorded, and runs no round at all once as many ids are recorded as there are handles |
| AiInvocation.PollSpec | src/tools/ai-actions/invokeAiAction.ts:30-78 | starting from an empty map, the rounds are bounded by max(maxAttempts, 0), no handles means no rounds, and the state stays well formed |
| AiInvocation.Entries | src/tools/ai-actions/invokeAiAction.ts:86-89 | one entry per recorded id, in insertion order, with its content |
| AiInvocation.TimeoutMessage | src/tools/ai-actions/invokeAiAction.ts:81-85 | the timeout text starts "Polling timeout: " and ends " attempts" |
| AiInvocation.PollResult | src/tools/ai-actions/invokeAiAction.ts:80-89 | no handles means an empty success; a failure happens only with handles and is the timeout error with the recorded and total counts; a success lists one entry per recorded id (PollSuccessCoversHandles and NeverCompletedTimesOut say which) |
| AiInvocation.CheckRound | src/tools/ai-actions/invokeAiAction.ts:46-77 | the round's loop computes the round specification |
| AiInvocation.PollForCompletion | src/tools/ai-actions/invokeAiAction.ts:30-90 | the loop's result and round count equal the polling specification: the entries, or the timeout error "Polling timeout: k/n actions completed after M attempts" |
| AiInvocation.FirstRecordedNone | src/tools/ai-actions/invokeAiAction.ts:39-78 | an id has no first completion before round a exactly when no round before a records it |
| AiInvocation.FirstRecordedAt | src/tools/ai-actions/invokeAiAction.ts:60-64 | the first round that records an id fixes its content |
| AiInvocation.FirstRecordedStable | src/tools/ai-actions/invokeAiAction.ts:47-48 | once recorded, an id's content never changes in later rounds |
| AiInvocation.DoneStep | src/tools/ai-actions/invokeAiAction.ts:46-77 | one round keeps "recorded ids are those with a first completion, holding its content" |
| AiInvocation.CheckedStep | src/tools/ai-actions/invokeAiAction.ts:47-48 | each round checks exactly the ids with no completion before it |
| AiInvocation.PollFromRecorded | src/tools/ai-actions/invokeAiAction.ts:39-78 | the loop preserves both invariants to its end |
| AiInvocation.PollRecordsFirstCompletion | src/tools/ai-actions/invokeAiAction.ts:30-78 | at the end, the map holds exactly the handle ids that completed, each with the content of its first completion |
| AiInvocation.PollFromIncomplete | src/tools/ai-actions/invokeAiAction.ts:39-43 | every round the loop runs started with fewer ids recorded than there are handles |
| AiInvocation.RoundsRunOnlyWhileIncomplete | src/tools/ai-actions/invokeAiAction.ts:39-43 | no round runs once every handle is recorded, and the loop stops before the attempt limit only when every handle is recorded |
| AiInvocation.SetOfSeqCard | src/tools/ai-actions/invokeAiAction.ts:80 | a list has at least as many elements as distinct values, strictly more when it repeats one |
| AiInvocation.SubsetCard | src/tools/ai-actions/invokeAiAction.ts:80 | a subset is no larger than its superset |
| AiInvocation.CoverByCounting | src/tools/ai-actions/invokeAiAction.ts:80 | a map of handle ids as large as the handle list holds every handle, and the handles are distinct |
| AiInvocation.EntriesCoverHandles | src/tools/ai-actions/invokeAiAction.ts:80-89 | such a state lists every handle exactly once, with the content of its first completion |
| AiInvocation.PollSuccessCoversHandles | src/tools/ai-actions/invokeAiAction.ts:80-89 | on success there is one entry per handle; the handle ids were distinct; each entry carries its id's first completed content |
| AiInvocation.NeverCompletedTimesOut | src/tools/ai-actions/invokeAiAction.ts:65-84 | an id that never completes, for instance one that keeps reporting FAILED, makes the call use every attempt and end in the timeout error, not in an error naming the id |
| AiInvocation.CheckedThenRecorded | src/tools/ai-actions/invokeAiAction.ts:60-64 | an id checked in a round that records it is in the final map with that round's content |
| AiInvocation.CompletionRecordedDespiteOthers | src/tools/ai-actions/invokeAiAction.ts:46-77 | a completed check is recorded even when other checks of the same round throw |
| AiInvocation.NoFieldsNoRounds | src/tools/ai-actions/invokeAiAction.ts:39-43 | with no invocations nothing is polled and the result is empty |
| AiInvocation.InvokedIds | src/tools/ai-actions/invokeAiAction.ts:113 | the collected ids are the replies of the invoke calls, in order |
| AiInvocation.InvokeAll | src/tools/ai-actions/invokeAiAction.ts:101-114 | one invoke per field spec, in order, with its output format and variables; the loop stops at the first call that throws and reports its error |
| AiInvocation.CompletedReply | src/tools/ai-actions/invokeAiAction.ts:123-126 | the success reply lists every entry's id and content, in order, next to the guidance text |
| AiInvocation.InvokeAiActionTool | src/tools/ai-actions/invokeAiAction.ts:92-132 | an invoke failure aborts at the first failing call, before any polling, with "Error invoking AI action: <message>"; otherwise at most 10 rounds are polled, and the reply is the completed entries or the timeout error under the same prefix |
| UpdateContentType.LastById | src/tools/types/updateContentType.ts:49-55 | the map's keys are exactly the existing field ids |
| UpdateContentType.HasIdBeforeLast | src/tools/types/updateContentType.ts:49-55 | an id that is not the last field's occurs among the earlier fields |
| UpdateContentType.LastWithIdExtends | src/tools/types/updateContentType.ts:49-55 | appending a field with another id keeps the last field with this id the last one |
| UpdateContentType.LastByIdIsLast | src/tools/types/updateContentType.ts:49-55 | for duplicate ids, the map holds the last field with the id |
| UpdateContentType.ExistingFieldsById | src/tools/types/updateContentType.ts:49-55 | the `reduce` loop builds exactly that map |
| UpdateContentType.Reconcile | src/tools/types/updateContentType.ts:58-87 | only validations, required, linkType and items change. `required` always ends up a boolean and a given one is kept. A new field is otherwise unchanged. An existing match supplies missing validations, a missing required (defaulting to false), a blank Link linkType and missing Array items |
| UpdateContentType.ReconcileIdempotent | src/tools/types/updateContentType.ts:58-87 | reconciling twice against the same fields equals reconciling once |
| UpdateContentType.ExplicitMetadataWins | src/tools/types/updateContentType.ts:58-87 | a field stating all four pieces of metadata is sent as given |
| UpdateContentType.PreserveMetadata | src/tools/types/updateContentType.ts:58-87 | the in-place `forEach` leaves each array slot reconciled from its old value |
| UpdateContentType.ReconciledFields | src/tools/types/updateContentType.ts:58-87 | one reconciled field per given field, in order |
| UpdateContentType.Payload | src/tools/types/updateContentType.ts:90-97 | the sent content type keeps every other fetched property; the name falls back when the argument is empty; with no fields argument the fetched fields are re-sent; with one, each given field is sent reconciled against the last existing field with its id (TextPropertiesFallBack, GivenFieldsReplaceExisting and NoArgumentsResendsCurrent refine this) |
| UpdateContentType.NoArgumentsResendsCurrent | src/tools/types/updateContentType.ts:91-97 | with no optional argument the fetched content type is sent back unchanged |
| UpdateContentType.GivenFieldsReplaceExisting | src/tools/types/updateContentType.ts:45-96 | given fields replace the list: same length, same ids in order, each with a boolean `required`; existing fields not given are dropped |
| UpdateContentType.TextPropertiesFallBack | src/tools/types/updateContentType.ts:93-95 | name, description and displayField take the argument only when it is a non-empty string |
| UpdateContentType.InheritsFromLastDuplicate | src/tools/types/updateContentType.ts:49-87 | a given field inherits from the last existing field with its id |
| UpdateContentType.UpdateContentTypeTool | src/tools/types/updateContentType.ts:42-107 | a failed fetch sends nothing and gives an "Error updating content type" reply; otherwise the payload sent is the reconciled content type, and the reply echoes the update or reports its failure |
| UpdateEntities.MergeFields | src/tools/entries/updateEntry.ts:45-48 | the merged keys are the union; a given value overrides an existing one; other existing values are kept |
| UpdateEntities.UpdatePayload | src/tools/entries/updateEntry.ts:45-62 | the sent record merges the fields (given values win), replaces the metadata by a tag list alone, and keeps every other fetched property (TagsAreConcatenated and EmptyUpdateKeepsFields refine this) |
| UpdateEntities.TagsAreConcatenated | src/tools/entries/updateEntry.ts:50-62 | the tags sent are the existing ones followed by the given ones, with nothing removed; other metadata is dropped |
| UpdateEntities.RepeatedUpdateDuplicatesTags | src/tools/entries/updateEntry.ts:50-53 | repeating an update leaves the fields as after the first one but appends the given tags again |
| UpdateEntities.EmptyUpdateKeepsFields | src/tools/entries/updateEntry.ts:45-53 | an update with no fields and no tags sends the fields and tags unchanged |
| UpdateEntities.UpdateEntityTool | src/tools/entries/updateEntry.ts:42-68 | a failed `get` sends nothing and gives an error reply under the kind's prefix; otherwise the merged payload is sent and the reply echoes the update or is the error reply "<prefix>: <message>" of the failure |
| UpdateEntities.UpdateEntryTool | src/tools/entries/updateEntry.ts:42-68 | the entry handler: "Entry updated successfully" with `updatedEntry`; a failed `get`, and a failed `update` after a successful `get`, each give the error reply "Error updating entry: <message>" |
| UpdateEntities.UpdateAssetTool | src/tools/assets/updateAsset.ts:42-57 | the asset handler: "Asset updated successfully" with `updatedAsset`; a failed `get`, and a failed `update` after a successful `get`, each give the error reply "Error updating asset: <message>" |
| UpdateEntities.Override | src/tools/ai-actions/updateAiAction.ts:65-69 | an argument replaces the property exactly when it is given and truthy |
| UpdateEntities.AiActionPayload | src/tools/ai-actions/updateAiAction.ts:63-70 | a non-empty name or description replaces the fetched one; a given instruction, configuration or test-case list always replaces; every other property is kept |
| UpdateEntities.NoArgumentsResendsAiAction | src/tools/ai-actions/updateAiAction.ts:63-70 | with no optional argument the fetched AI action is sent back unchanged |
| UpdateEntities.EmptyStringsDoNotClear | src/tools/ai-actions/updateAiAction.ts:65-66 | an empty name or description leaves the existing one |
| UpdateEntities.GivenObjectsAlwaysReplace | src/tools/ai-actions/updateAiAction.ts:67-69 | a given instruction, configuration or test-case list always replaces the existing one, even when empty |
| UpdateEntities.UpdateAiActionTool | src/tools/ai-actions/updateAiAction.ts:62-80 | a failed `get` sends nothing; otherwise the overridden record is sent; either failure gives the error reply "Error updating AI action: <message>" |
| ListTools.ClampedLimit | src/tools/assets/listAssets.ts:43 | `Math.min(limit \|\| cap, cap)`: never above the cap, and the cap when the limit is absent or 0 |
| ListTools.ListQuery | src/tools/assets/listAssets.ts:40-50 | the query always has limit and `skip \|\| 0`; select, include, order and links_to_entry appear exactly when their argument is truthy, and only for the handlers that forward them |
| ListTools.PageValue | src/tools/assets/listAssets.ts:65-69 | `{...page, items}` is a well-typed collection with the new items and the page's total |
| ListTools.Project | src/tools/assets/listAssets.ts:52 | one projected item per page item, in order |
| ListTools.ListReply | src/tools/assets/listAssets.ts:65-85 | on success, the first min(n, maxItems) projected items under the handler's key, plus the page's total, limit and skip; on failure, the error under the prefix |
| ListTools.AssetSummary | src/tools/assets/listAssets.ts:52-63 | the ten summary keys; the title defaults to "Untitled"; description and each file detail are the value when truthy and null otherwise, and null with no file; dates and published version are the item's |
| ListTools.AssetsQuery | src/tools/assets/listAssets.ts:40-50 | at most 3 items, with skip and links_to_entry forwarded when truthy |
| ListTools.ListAssetsTool | src/tools/assets/listAssets.ts:40-85 | sends the asset query and replies with at most 3 asset summaries, or "Error listing assets" |
| ListTools.AiActionSummary | src/tools/ai-actions/listAiActions.ts:50-60 | the nine summary keys; the name defaults to "Untitled"; description, instruction, configuration and test cases are the value when truthy and null otherwise; dates and published version are the item's |
| ListTools.AiActionsQuery | src/tools/ai-actions/listAiActions.ts:39-48 | at most 3 items; links_to_entry is never sent |
| ListTools.ListAiActionsTool | src/tools/ai-actions/listAiActions.ts:39-85 | at most 3 AI-action summaries, or "Error listing AI actions" |
| ListTools.ContentTypeSummary | src/tools/types/listContentTypes.ts:50-54 | every property of the content type, plus its id and its field count |
| ListTools.ContentTypesQuery | src/tools/types/listContentTypes.ts:39-48 | at most 10 items; links_to_entry is never sent |
| ListTools.ListContentTypesTool | src/tools/types/listContentTypes.ts:39-79 | at most 10 content-type summaries, or "Error listing content types" |
| ListTools.EnvironmentSummary | src/tools/environments/listEnvironments.ts:53-59 | id, name, creation and update dates as given, with the status id or "unknown" |
| ListTools.EnvironmentClientArgs | src/tools/environments/listEnvironments.ts:36-39 | the client environment defaults to "master" |
| ListTools.EnvironmentsQuery | src/tools/environments/listEnvironments.ts:43-51 | at most 10 items; only select and order may be added |
| ListTools.ListEnvironmentsTool | src/tools/environments/listEnvironments.ts:43-84 | at most 10 environment summaries, or "Error listing environments" |
| ListTools.SpaceSummary | src/tools/spaces/listSpaces.ts:42-47 | id, name and dates of each space |
| ListTools.SpacesQuery | src/tools/spaces/listSpaces.ts:33-40 | at most 10 items; only select and order may be added |
| ListTools.ListSpacesTool | src/tools/spaces/listSpaces.ts:33-69 | at most 10 space summaries, or "Error listing spaces" |
| ListTools.TagSummary | src/tools/tags/listTags.ts:39-45 | id, name, visibility, creation and update dates of each tag as given |
| ListTools.TagsQuery | src/tools/tags/listTags.ts:29-37 | the limit is `limit \|\| 100`, not clamped; only select and order may be added |
| ListTools.ListTagsTool | src/tools/tags/listTags.ts:29-67 | at most 100 tag summaries, or "Error listing tags" |
| ListTools.SentSearchQuery | src/tools/entries/searchEntries.ts:43-50 | every key the caller gave is forwarded, even a falsy one; the limit is clamped to 3 and the skip defaults to 0 |
| ListTools.SearchEntriesTool | src/tools/entries/searchEntries.ts:43-66 | at most 3 entries shown; a failure is the error reply "Error deleting dataset: <message>" |

## Left out

- Transport, tool registration, the prompts and the initial-context tool are not modelled. Neither are the parameter validation by zod schemas, the configuration or the client construction. The `Tool` functions take arguments that have already been validated.
- The get handlers (entry, asset, content type, space, AI action, AI-action invocation) are not modelled. Each makes one `get` and echoes the record.
- The create handlers (entry, content type, tag, environment, AI action) are not modelled. Each makes one `create` call and echoes the record it returns.
- The entry, asset and AI-action delete handlers are not modelled. Each calls `get` and then `delete`, and replies with the record fetched before the delete. The content-type and environment delete handlers make one `delete` call and echo the id.
- The asset upload handler is not modelled. It calls `create` and then `processForAllLocales`, and replies with the processed asset.
- In every handler above, any failure reaches the error wrapper, which is modelled.
- The content-type publish and unpublish handlers are not modelled. Publishing gets the content type and then publishes it; unpublishing makes one call; either failure reaches the error wrapper.
- The AI-action publish and unpublish handlers are not modelled. Publishing gets the action and then publishes it at its version; unpublishing makes one call. Each catches its own failure and answers with a normal reply, "AI action publish failed" or "AI action unpublish failed", carrying the error and the id. This is the same soft-failure shape as the single-id path of the entry and asset handlers.
- I/O, timers and concurrency are not modelled. The 30000 ms poll interval and the 1000 ms bulk-wait delay are round boundaries. `console.warn` is the `Logged` effect.
- `Promise.all` reports the failure that settles first. The model reports the failure of the lowest-index id, and its contracts promise only "the error of some failing id".
- The checks of one polling round settle in any order. The model records them in handle order. Its contracts speak of the recorded id set and contents, not of the order of entries within one round.
- JavaScript property order and the rendering by `formatResponse` are not modelled; a formatted reply is kept as `Formatted(message, data)`.
- The backend oracles `Fetch` and `Check` are functions of the id (and round). Two occurrences of one id in a bulk list, or in one polling round, therefore always get the same reply, though the real backend could answer them differently.
- Floating-point numbers, such as a fractional limit or `modelTemperature`, are not modelled: numbers are integers.
- BulkOperations.WaitFrom: a bulk job that never reaches a terminal status would be polled forever. The model works over a finite sequence of replies, and `StillWaiting` marks where those replies ran out.
- UpdateContentType.LastById: a field id such as `__proto__`, which a plain JavaScript object treats specially, is handled as an ordinary key.
- ListTools.ContentTypeSummary: the model does not require the item's own `fields` property to match the field list it counts.
- The AI-action registration text says polling happens "every 3 seconds for up to 60 seconds". The code polls 10 times at 30000 ms, and the model follows the code.
- A FAILED or CANCELLED invocation status does not make the tool fail at once. The error raised for it is caught in the same callback and only logged, so the model keeps polling that id until the attempts run out. This follows the code rather than the intent its error message suggests.
