/** The content-type update handler: the given field list replaces the existing
    one, each given field inheriting the metadata it leaves out from the
    existing field with the same id. */
module UpdateContentType {
  import opened Values
  import opened Response

  /** The `items` of an Array field. */
  datatype FieldItems = FieldItems(itemType: string, linkType: Option<string>, validations: Option<seq<Value>>)

  /** A field definition (src/types/fieldSchema.ts); `fieldType` is its `type`. */
  datatype Field = Field(
    id: string,
    name: string,
    fieldType: string,
    required: Option<bool>,
    localized: Option<bool>,
    disabled: Option<bool>,
    omitted: Option<bool>,
    validations: Option<seq<Value>>,
    settings: Option<map<string, Value>>,
    linkType: Option<string>,
    items: Option<FieldItems>)

  /** A content type as fetched; `rest` holds every other property (`sys`, ...). */
  datatype ContentType = ContentType(
    name: string,
    description: string,
    displayField: string,
    fields: seq<Field>,
    rest: map<string, Value>)

  datatype UpdateArgs = UpdateArgs(
    contentTypeId: string,
    name: Option<string>,
    displayField: Option<string>,
    description: Option<string>,
    fields: Option<seq<Field>>)

  const UpdatedMessage := "Content type updated successfully"
  const UpdateErrorPrefix := "Error updating content type"

  predicate HasId(fields: seq<Field>, id: string) {
    exists i | 0 <= i < |fields| :: fields[i].id == id
  }

  /** Index i holds the last field with this id. */
  predicate IsLastWithId(fields: seq<Field>, i: int, id: string) {
    0 <= i < |fields| && fields[i].id == id && forall j | i < j < |fields| :: fields[j].id != id
  }

  /** The existing fields by id, as the `reduce` builds them. */
  function LastById(fields: seq<Field>): (m: map<string, Field>)
    ensures forall id :: id in m <==> HasId(fields, id)
    decreases |fields|
  {
    if fields == [] then map[]
    else
      var init := fields[..|fields| - 1];
      var last := fields[|fields| - 1];
      assert forall i | 0 <= i < |init| :: init[i] == fields[i];
      LastById(init)[last.id := last]
  }

  /** An id that is not the last field's is found among the earlier fields. */
  lemma HasIdBeforeLast(fields: seq<Field>, id: string)
    requires HasId(fields, id) && fields[|fields| - 1].id != id
    ensures HasId(fields[..|fields| - 1], id)
  {
    var k :| 0 <= k < |fields| && fields[k].id == id;
    assert fields[..|fields| - 1][k] == fields[k];
  }

  /** The last field with an id among the earlier fields stays the last one
      when a field with another id is appended. */
  lemma LastWithIdExtends(fields: seq<Field>, i: int, id: string)
    requires |fields| > 0 && fields[|fields| - 1].id != id
    requires IsLastWithId(fields[..|fields| - 1], i, id)
    ensures IsLastWithId(fields, i, id)
  {
    var init := fields[..|fields| - 1];
    forall j | i < j < |fields|
      ensures fields[j].id != id
    {
      if j < |fields| - 1 {
        assert init[j] == fields[j];
      }
    }
  }

  /** When two existing fields share an id, the later one wins. */
  lemma {:induction false} LastByIdIsLast(fields: seq<Field>, id: string)
    requires HasId(fields, id)
    ensures exists i :: IsLastWithId(fields, i, id) && fields[i] == LastById(fields)[id]
    decreases |fields|
  {
    var n := |fields| - 1;
    var init := fields[..n];
    assert LastById(fields) == LastById(init)[fields[n].id := fields[n]];
    if fields[n].id == id {
      assert IsLastWithId(fields, n, id);
    } else {
      HasIdBeforeLast(fields, id);
      LastByIdIsLast(init, id);
      var i :| IsLastWithId(init, i, id) && init[i] == LastById(init)[id];
      LastWithIdExtends(fields, i, id);
      assert fields[i] == init[i];
      assert LastById(fields)[id] == fields[i];
    }
  }

  /** The `reduce` over the fetched fields. */
  method ExistingFieldsById(fields: seq<Field>) returns (m: map<string, Field>)
    ensures m == LastById(fields)
  {
    m := map[];
    for i := 0 to |fields|
      invariant m == LastById(fields[..i])
    {
      assert fields[..i + 1][..i] == fields[..i];
      m := m[fields[i].id := fields[i]];
    }
    assert fields[..|fields|] == fields;
  }

  /** `!s` for an optional string: absent or empty. */
  predicate Blank(s: Option<string>) {
    s.None? || s.value == ""
  }

  /** The metadata rules applied to one given field. */
  function Reconcile(f: Field, byId: map<string, Field>): (g: Field)
    // nothing but the four pieces of metadata changes
    ensures g.(required := f.required, validations := f.validations, linkType := f.linkType, items := f.items) == f
    // every reconciled field carries a boolean `required`, and a given one is kept
    ensures g.required.Some? && (f.required.Some? ==> g.required == f.required)
    // a new field's `required` is false unless given as true
    ensures f.id !in byId ==> g == f.(required := Some(f.required.Some? && f.required.value))
    ensures f.id in byId ==>
      var e := byId[f.id];
      && (f.required.None? ==> g.required == Some(e.required.Some? && e.required.value))
      && g.validations == (if f.validations.Some? then f.validations else e.validations)
      && g.linkType == (if f.fieldType == "Link" && Blank(f.linkType) && !Blank(e.linkType) then e.linkType else f.linkType)
      && g.items == (if f.fieldType == "Array" && f.items.None? && e.items.Some? then e.items else f.items)
  {
    if f.id in byId then
      var e := byId[f.id];
      var validations := if f.validations.Some? then f.validations else e.validations;
      var required := if f.required.Some? then f.required else Some(e.required.Some? && e.required.value);
      var linkType := if f.fieldType == "Link" && Blank(f.linkType) && !Blank(e.linkType) then e.linkType else f.linkType;
      var items := if f.fieldType == "Array" && f.items.None? && e.items.Some? then e.items else f.items;
      f.(validations := validations, required := required, linkType := linkType, items := items)
    else
      f.(required := Some(f.required.Some? && f.required.value))
  }

  /** Reconciling an already reconciled field against the same existing fields
      changes nothing. */
  lemma ReconcileIdempotent(f: Field, byId: map<string, Field>)
    ensures Reconcile(Reconcile(f, byId), byId) == Reconcile(f, byId)
  {
  }

  /** A field that already states all four pieces of metadata is sent as given. */
  lemma ExplicitMetadataWins(f: Field, byId: map<string, Field>)
    requires f.required.Some? && f.validations.Some? && !Blank(f.linkType) && f.items.Some?
    ensures Reconcile(f, byId) == f
  {
  }

  /** The `forEach` that updates each given field object in place. */
  method PreserveMetadata(fields: array<Field>, byId: map<string, Field>)
    modifies fields
    ensures forall i | 0 <= i < fields.Length :: fields[i] == Reconcile(old(fields[i]), byId)
  {
    for i := 0 to fields.Length
      invariant forall k | 0 <= k < i :: fields[k] == Reconcile(old(fields[k]), byId)
      invariant forall k | i <= k < fields.Length :: fields[k] == old(fields[k])
    {
      fields[i] := Reconcile(fields[i], byId);
    }
  }

  function ReconciledFields(given: seq<Field>, byId: map<string, Field>): (r: seq<Field>)
    ensures |r| == |given| && forall i | 0 <= i < |given| :: r[i] == Reconcile(given[i], byId)
  {
    seq(|given|, i requires 0 <= i < |given| => Reconcile(given[i], byId))
  }

  /** The content type sent to `update`. */
  function Payload(args: UpdateArgs, current: ContentType): (p: ContentType)
    ensures p.rest == current.rest
    ensures p.name == (if args.name.Some? && args.name.value != "" then args.name.value else current.name)
    ensures args.fields.None? ==> p.fields == current.fields
    ensures args.fields.Some? ==>
      |p.fields| == |args.fields.value|
      && forall i | 0 <= i < |p.fields| :: p.fields[i] == Reconcile(args.fields.value[i], LastById(current.fields))
  {
    ContentType(
      StringOr(args.name, current.name),
      StringOr(args.description, current.description),
      StringOr(args.displayField, current.displayField),
      if args.fields.Some? then ReconciledFields(args.fields.value, LastById(current.fields)) else current.fields,
      current.rest)
  }

  /** With no optional argument the fetched content type is sent back as is. */
  lemma NoArgumentsResendsCurrent(contentTypeId: string, current: ContentType)
    ensures Payload(UpdateArgs(contentTypeId, None, None, None, None), current) == current
  {
  }

  /** Given fields replace the existing list: the sent fields are the given
      ones, in order, under their own ids, each with a boolean `required`; an
      existing field whose id is not given is dropped, and an empty list clears
      all fields. Every other property comes from the fetched content type. */
  lemma GivenFieldsReplaceExisting(args: UpdateArgs, current: ContentType)
    requires args.fields.Some?
    ensures var sent := Payload(args, current).fields;
            var given := args.fields.value;
            && |sent| == |given|
            && (forall i | 0 <= i < |given| :: sent[i].id == given[i].id && sent[i].required.Some?)
            && (forall id :: HasId(sent, id) <==> HasId(given, id))
            && Payload(args, current).rest == current.rest
  {
    var sent := Payload(args, current).fields;
    var given := args.fields.value;
    forall id
      ensures HasId(sent, id) <==> HasId(given, id)
    {
      if HasId(sent, id) {
        var i :| 0 <= i < |sent| && sent[i].id == id;
        assert given[i].id == id;
      }
      if HasId(given, id) {
        var i :| 0 <= i < |given| && given[i].id == id;
        assert sent[i].id == id;
      }
    }
  }

  /** `name`, `description` and `displayField` take the argument only when it
      is a non-empty string: an empty string does not clear the existing value. */
  lemma TextPropertiesFallBack(args: UpdateArgs, current: ContentType)
    ensures var p := Payload(args, current);
            && (p.name == if args.name.Some? && args.name.value != "" then args.name.value else current.name)
            && (p.description == if args.description.Some? && args.description.value != "" then args.description.value else current.description)
            && (p.displayField == if args.displayField.Some? && args.displayField.value != "" then args.displayField.value else current.displayField)
  {
  }

  /** A given field inherits from the last existing field that has its id. */
  lemma InheritsFromLastDuplicate(args: UpdateArgs, current: ContentType, k: nat)
    requires args.fields.Some? && k < |args.fields.value|
    requires HasId(current.fields, args.fields.value[k].id)
    ensures exists i | 0 <= i < |current.fields| ::
      && current.fields[i].id == args.fields.value[k].id
      && (forall j | i < j < |current.fields| :: current.fields[j].id != current.fields[i].id)
      && Payload(args, current).fields[k] == Reconcile(args.fields.value[k], map[current.fields[i].id := current.fields[i]])
  {
    var f := args.fields.value[k];
    var m := LastById(current.fields);
    LastByIdIsLast(current.fields, f.id);
    var i :| IsLastWithId(current.fields, i, f.id) && current.fields[i] == m[f.id];
    assert Reconcile(f, m) == Reconcile(f, map[f.id := current.fields[i]]);
  }

  /** updateContentTypeTool: fetch, reconcile the given fields, send, reply. */
  method UpdateContentTypeTool(args: UpdateArgs, current: Remote<ContentType>, updated: Remote<Value>)
    returns (sent: Option<ContentType>, response: ToolResponse)
    ensures current.Failure? ==>
      sent.None? && IsErrorResponse(response) && HasErrorText(response, UpdateErrorPrefix)
      && response == Reply(Threw(current.error), UpdateErrorPrefix)
    ensures current.Success? ==> sent == Some(Payload(args, current.value))
    ensures current.Success? && updated.Success? ==>
      response == CreateSuccessResponse(UpdatedMessage, Some(map["contentType" := updated.value]))
    ensures current.Success? && updated.Failure? ==>
      IsErrorResponse(response) && response == Reply(Threw(updated.error), UpdateErrorPrefix)
  {
    if current.Failure? {
      return None, Reply(Threw(current.error), UpdateErrorPrefix);
    }
    var ct := current.value;
    var fields := ct.fields;
    if args.fields.Some? {
      var given := args.fields.value;
      var byId := ExistingFieldsById(ct.fields);
      var a := new Field[|given|](i requires 0 <= i < |given| => given[i]);
      PreserveMetadata(a, byId);
      fields := a[..];
      assert fields == ReconciledFields(given, byId);
    }
    sent := Some(ContentType(
      StringOr(args.name, ct.name),
      StringOr(args.description, ct.description),
      StringOr(args.displayField, ct.displayField),
      fields,
      ct.rest));
    if updated.Failure? {
      response := Reply(Threw(updated.error), UpdateErrorPrefix);
    } else {
      response := CreateSuccessResponse(UpdatedMessage, Some(map["contentType" := updated.value]));
    }
  }
}
