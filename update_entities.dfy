/** The update handlers for entries, assets and AI actions: each fetches the
    current record, merges the arguments into it and sends the result. */
module UpdateEntities {
  import opened Values
  import opened Response
  import opened BulkOperations

  /** A tag link, `{sys: {type: 'Link', linkType: 'Tag', id}}`. */
  datatype TagLink = TagLink(id: string)

  /** An entity's `metadata`: its tag list, if any, and every other property. */
  datatype Metadata = Metadata(tags: Option<seq<TagLink>>, other: map<string, Value>)

  /** An entry or asset as fetched: its field map, its metadata, and every
      other property (`sys`, ...). */
  datatype Entity = Entity(fields: map<string, Value>, metadata: Option<Metadata>, rest: map<string, Value>)

  /** The arguments of updateEntry / updateAsset: the id, the field values to
      merge, and the tags of the optional `metadata` argument. */
  datatype UpdateArgs = UpdateArgs(id: string, fields: map<string, Value>, tags: Option<seq<TagLink>>)

  /** `x || []` for an optional list. */
  function OrEmpty<T>(x: Option<seq<T>>): seq<T> {
    if x.Some? then x.value else []
  }

  function ExistingTags(e: Entity): seq<TagLink> {
    if e.metadata.Some? then OrEmpty(e.metadata.value.tags) else []
  }

  /** `{...existing.fields, ...given}`: a given key takes the given value. */
  function MergeFields(existing: map<string, Value>, given: map<string, Value>): (m: map<string, Value>)
    ensures m.Keys == existing.Keys + given.Keys
    ensures forall k | k in given :: m[k] == given[k]
    ensures forall k | k in existing && k !in given :: m[k] == existing[k]
  {
    existing + given
  }

  /** The record sent to `update`: merged fields, the concatenated tag list as
      the whole metadata, and every other property as fetched. */
  function UpdatePayload(existing: Entity, args: UpdateArgs): (p: Entity)
    ensures p.fields.Keys == existing.fields.Keys + args.fields.Keys
    ensures forall k | k in args.fields :: p.fields[k] == args.fields[k]
    ensures forall k | k in existing.fields && k !in args.fields :: p.fields[k] == existing.fields[k]
    ensures p.metadata.Some? && p.metadata.value.other == map[] && p.metadata.value.tags.Some?
    ensures p.rest == existing.rest
  {
    Entity(
      MergeFields(existing.fields, args.fields),
      Some(Metadata(Some(ExistingTags(existing) + OrEmpty(args.tags)), map[])),
      existing.rest)
  }

  /** Tags are the existing ones followed by the given ones, with nothing
      removed or merged; metadata other than tags is not sent. */
  lemma TagsAreConcatenated(existing: Entity, args: UpdateArgs)
    ensures var m := UpdatePayload(existing, args).metadata.value;
            && m.tags.Some? && m.other == map[]
            && |m.tags.value| == |ExistingTags(existing)| + |OrEmpty(args.tags)|
            && m.tags.value[..|ExistingTags(existing)|] == ExistingTags(existing)
            && m.tags.value[|ExistingTags(existing)|..] == OrEmpty(args.tags)
            && multiset(m.tags.value) == multiset(ExistingTags(existing)) + multiset(OrEmpty(args.tags))
  {
    var a := ExistingTags(existing);
    var b := OrEmpty(args.tags);
    assert (a + b)[..|a|] == a;
    assert (a + b)[|a|..] == b;
  }

  /** Sending the same update twice leaves the fields as after the first, but
      the given tags are appended a second time. */
  lemma RepeatedUpdateDuplicatesTags(existing: Entity, args: UpdateArgs)
    ensures var once := UpdatePayload(existing, args);
            var twice := UpdatePayload(once, args);
            && twice.fields == once.fields
            && twice.rest == existing.rest
            && ExistingTags(twice) == ExistingTags(existing) + OrEmpty(args.tags) + OrEmpty(args.tags)
  {
    var once := UpdatePayload(existing, args);
    assert once.fields + args.fields == once.fields;
  }

  /** With no field values and no tags the fields and tags are sent unchanged. */
  lemma EmptyUpdateKeepsFields(existing: Entity, id: string)
    ensures var p := UpdatePayload(existing, UpdateArgs(id, map[], None));
            p.fields == existing.fields && ExistingTags(p) == ExistingTags(existing) && p.rest == existing.rest
  {
    assert existing.fields + map[] == existing.fields;
  }

  function UpdatedMessage(kind: EntityKind): string {
    if kind == Entry then "Entry updated successfully" else "Asset updated successfully"
  }

  function UpdatedKey(kind: EntityKind): string {
    if kind == Entry then "updatedEntry" else "updatedAsset"
  }

  function UpdateErrorPrefix(kind: EntityKind): string {
    if kind == Entry then "Error updating entry" else "Error updating asset"
  }

  /** What a handler sent to `update` (nothing when the fetch threw) and its reply. */
  datatype Sent<T> = Sent(payload: Option<T>, response: ToolResponse)

  /** updateEntryTool / updateAssetTool given the replies to `get` and `update`. */
  function UpdateEntityTool(kind: EntityKind, args: UpdateArgs, fetched: Remote<Entity>, updated: Remote<Value>): (x: Sent<Entity>)
    ensures fetched.Failure? ==>
      x.payload.None? && IsErrorResponse(x.response) && HasErrorText(x.response, UpdateErrorPrefix(kind))
    ensures fetched.Success? ==> x.payload == Some(UpdatePayload(fetched.value, args))
    ensures fetched.Success? && updated.Success? ==>
      x.response == CreateSuccessResponse(UpdatedMessage(kind), Some(map[UpdatedKey(kind) := updated.value]))
    ensures fetched.Success? && updated.Failure? ==>
      IsErrorResponse(x.response) && HasErrorText(x.response, UpdateErrorPrefix(kind))
    ensures fetched.Failure? ==> x.response == ErrorResponse(UpdateErrorPrefix(kind), fetched.error)
    ensures fetched.Success? && updated.Failure? ==> x.response == ErrorResponse(UpdateErrorPrefix(kind), updated.error)
  {
    match fetched
    case Failure(e) => Sent(None, Reply(Threw(e), UpdateErrorPrefix(kind)))
    case Success(existing) =>
      var payload := UpdatePayload(existing, args);
      var c := match updated
               case Failure(e) => Threw(e)
               case Success(v) => Returned(CreateSuccessResponse(UpdatedMessage(kind), Some(map[UpdatedKey(kind) := v])));
      Sent(Some(payload), Reply(c, UpdateErrorPrefix(kind)))
  }

  function UpdateEntryTool(args: UpdateArgs, fetched: Remote<Entity>, updated: Remote<Value>): (x: Sent<Entity>)
    ensures fetched.Success? ==> x.payload == Some(UpdatePayload(fetched.value, args))
    ensures fetched.Failure? ==> x.payload.None? && HasErrorText(x.response, "Error updating entry")
    ensures fetched.Failure? ==> x.response == ErrorResponse("Error updating entry", fetched.error)
    // a failed update after a successful get is answered through the wrapper too
    ensures fetched.Success? && updated.Failure? ==>
      IsErrorResponse(x.response) && HasErrorText(x.response, "Error updating entry")
      && x.response == ErrorResponse("Error updating entry", updated.error)
    ensures fetched.Success? && updated.Success? ==>
      IsSuccessWith(x.response, "Entry updated successfully")
      && x.response.content[0].text == Formatted("Entry updated successfully", map["updatedEntry" := updated.value])
  {
    UpdateEntityTool(Entry, args, fetched, updated)
  }

  function UpdateAssetTool(args: UpdateArgs, fetched: Remote<Entity>, updated: Remote<Value>): (x: Sent<Entity>)
    ensures fetched.Success? ==> x.payload == Some(UpdatePayload(fetched.value, args))
    ensures fetched.Failure? ==> x.payload.None? && HasErrorText(x.response, "Error updating asset")
    ensures fetched.Failure? ==> x.response == ErrorResponse("Error updating asset", fetched.error)
    // a failed update after a successful get is answered through the wrapper too
    ensures fetched.Success? && updated.Failure? ==>
      IsErrorResponse(x.response) && HasErrorText(x.response, "Error updating asset")
      && x.response == ErrorResponse("Error updating asset", updated.error)
    ensures fetched.Success? && updated.Success? ==>
      IsSuccessWith(x.response, "Asset updated successfully")
      && x.response.content[0].text == Formatted("Asset updated successfully", map["updatedAsset" := updated.value])
  {
    UpdateEntityTool(Asset, args, fetched, updated)
  }

  /** An AI action as fetched: the five properties the handler may replace and
      every other property. A property the record lacks is `Undefined`. */
  datatype AiAction = AiAction(
    name: Value,
    description: Value,
    instruction: Value,
    configuration: Value,
    testCases: Value,
    rest: map<string, Value>)

  /** The optional arguments of updateAiAction; instruction and configuration
      are objects, testCases an array. */
  datatype AiActionArgs = AiActionArgs(
    aiActionId: string,
    name: Option<string>,
    description: Option<string>,
    instruction: Option<map<string, Value>>,
    configuration: Option<map<string, Value>>,
    testCases: Option<seq<Value>>)

  /** `...(arg && { key: arg })`: the argument replaces the property only when
      it is given and truthy. */
  function Override(arg: Option<Value>, existing: Value): (v: Value)
    ensures arg.Some? && Truthy(arg.value) ==> v == arg.value
    ensures arg.None? || !Truthy(arg.value) ==> v == existing
  {
    if arg.Some? && Truthy(arg.value) then arg.value else existing
  }

  function MapOption<A, B>(x: Option<A>, f: A -> B): Option<B> {
    if x.Some? then Some(f(x.value)) else None
  }

  function AiActionPayload(existing: AiAction, args: AiActionArgs): (p: AiAction)
    ensures p.name == (if args.name.Some? && args.name.value != "" then Str(args.name.value) else existing.name)
    ensures p.description ==
      (if args.description.Some? && args.description.value != "" then Str(args.description.value) else existing.description)
    ensures p.instruction == (if args.instruction.Some? then Obj(args.instruction.value) else existing.instruction)
    ensures p.configuration == (if args.configuration.Some? then Obj(args.configuration.value) else existing.configuration)
    ensures p.testCases == (if args.testCases.Some? then Arr(args.testCases.value) else existing.testCases)
    ensures p.rest == existing.rest
  {
    AiAction(
      Override(MapOption(args.name, (s: string) => Str(s)), existing.name),
      Override(MapOption(args.description, (s: string) => Str(s)), existing.description),
      Override(MapOption(args.instruction, (m: map<string, Value>) => Obj(m)), existing.instruction),
      Override(MapOption(args.configuration, (m: map<string, Value>) => Obj(m)), existing.configuration),
      Override(MapOption(args.testCases, (s: seq<Value>) => Arr(s)), existing.testCases),
      existing.rest)
  }

  /** With no optional argument the fetched AI action is sent back as is. */
  lemma NoArgumentsResendsAiAction(existing: AiAction, aiActionId: string)
    ensures AiActionPayload(existing, AiActionArgs(aiActionId, None, None, None, None, None)) == existing
  {
  }

  /** A non-empty name or description replaces the existing one; an empty
      string leaves it as it was. */
  lemma EmptyStringsDoNotClear(existing: AiAction, args: AiActionArgs)
    ensures var p := AiActionPayload(existing, args);
            && (p.name == if args.name.Some? && args.name.value != "" then Str(args.name.value) else existing.name)
            && (p.description == if args.description.Some? && args.description.value != ""
                                 then Str(args.description.value) else existing.description)
            && p.rest == existing.rest
  {
  }

  /** Objects and arrays are always truthy: a given instruction, configuration
      or test-case list always replaces the existing one, even an empty list. */
  lemma GivenObjectsAlwaysReplace(existing: AiAction, args: AiActionArgs)
    ensures var p := AiActionPayload(existing, args);
            && (args.instruction.Some? ==> p.instruction == Obj(args.instruction.value))
            && (args.configuration.Some? ==> p.configuration == Obj(args.configuration.value))
            && (args.testCases.Some? ==> p.testCases == Arr(args.testCases.value))
            && (args.instruction.None? ==> p.instruction == existing.instruction)
            && (args.configuration.None? ==> p.configuration == existing.configuration)
            && (args.testCases.None? ==> p.testCases == existing.testCases)
  {
  }

  const AiActionUpdatedMessage := "AI action updated successfully"
  const AiActionErrorPrefix := "Error updating AI action"

  /** updateAiActionTool given the replies to `get` and `update`. */
  function UpdateAiActionTool(args: AiActionArgs, fetched: Remote<AiAction>, updated: Remote<Value>): (x: Sent<AiAction>)
    ensures fetched.Failure? ==>
      x.payload.None? && IsErrorResponse(x.response) && HasErrorText(x.response, AiActionErrorPrefix)
    ensures fetched.Success? ==> x.payload == Some(AiActionPayload(fetched.value, args))
    ensures fetched.Success? && updated.Success? ==>
      x.response == CreateSuccessResponse(AiActionUpdatedMessage, Some(map["updatedAiAction" := updated.value]))
    ensures fetched.Success? && updated.Failure? ==>
      IsErrorResponse(x.response) && HasErrorText(x.response, AiActionErrorPrefix)
    ensures fetched.Failure? ==> x.response == ErrorResponse(AiActionErrorPrefix, fetched.error)
    ensures fetched.Success? && updated.Failure? ==> x.response == ErrorResponse(AiActionErrorPrefix, updated.error)
  {
    match fetched
    case Failure(e) => Sent(None, Reply(Threw(e), AiActionErrorPrefix))
    case Success(existing) =>
      var c := match updated
               case Failure(e) => Threw(e)
               case Success(v) => Returned(CreateSuccessResponse(AiActionUpdatedMessage, Some(map["updatedAiAction" := v])));
      Sent(Some(AiActionPayload(existing, args)), Reply(c, AiActionErrorPrefix))
  }
}
