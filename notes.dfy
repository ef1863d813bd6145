/**
 * The note adapter (`note_c` collection): storage/domain mapping with the
 * author default, the per-entity listing, create and update payloads with
 * trimmed content and a refreshed modification time, and the 24-hour edit window.
 */
module Notes {
  import opened Js
  import opened Adapter
  import Text

  /** A note in domain shape. */
  datatype Note = Note(
    id: Value,
    entityType: Value,
    entityId: Value,
    category: Value,
    content: Value,
    createdAt: Value,
    updatedAt: Value,
    createdBy: Value)

  /** Storage shape to domain shape: the author is the owner's name, or
      "Unknown" when the owner or its name is missing or empty. */
  function FromRow(row: Row): (n: Note)
    ensures Truthy(n.createdBy)
    ensures Truthy(Prop(Get(row, "Owner"), "Name")) ==> n.createdBy == Prop(Get(row, "Owner"), "Name")
    ensures !Truthy(Prop(Get(row, "Owner"), "Name")) ==> n.createdBy == Str("Unknown")
  {
    Note(
      id := Get(row, "Id"),
      entityType := Get(row, "entityType_c"),
      entityId := Get(row, "entityId_c"),
      category := Get(row, "category_c"),
      content := Get(row, "content_c"),
      createdAt := Get(row, "createdAt_c"),
      updatedAt := Get(row, "updatedAt_c"),
      createdBy := Or(Prop(Get(row, "Owner"), "Name"), Str("Unknown")))
  }

  /** The row decoder handed to the generic read and reconciliation paths. */
  function Decode(row: Row): Outcome<Note> {
    Ok(FromRow(row))
  }

  /** `getAll` */
  function GetAll(resp: FetchResponse): (notes: seq<Note>)
    ensures !resp.success || resp.data.None? ==> notes == []
    ensures resp.success && resp.data.Some? ==>
      |notes| == |resp.data.value| && forall i :: 0 <= i < |notes| ==> notes[i] == FromRow(resp.data.value[i])
  {
    ListAll(resp, Decode)
  }

  /** `getById`: null when the response or its data is missing. */
  function GetById(resp: Option<ByIdResponse>): (n: Option<Note>)
    ensures n.Some? <==> resp.Some? && resp.value.data.Some?
    ensures n.Some? ==> n.value == FromRow(resp.value.data.value)
  {
    FindOne(resp, Decode)
  }

  /** The `where` clause of `getByEntity`: the entity type as given, the entity id parsed. */
  function EntityQuery(entityType: Value, entityId: Value, host: Host): seq<Condition> {
    [EqualTo("entityType_c", entityType), EqualTo("entityId_c", host.parseInt(entityId))]
  }

  /** `getByEntity`: the notes of a successful response, in the order the store
      sent them; an empty list when the call failed or sent no data. */
  function GetByEntity(resp: FetchResponse): (notes: seq<Note>)
    ensures !resp.success || resp.data.None? ==> notes == []
    ensures resp.success && resp.data.Some? ==>
      |notes| == |resp.data.value| && forall i :: 0 <= i < |notes| ==> notes[i] == FromRow(resp.data.value[i])
  {
    ListAll(resp, Decode)
  }

  /** Against a store that honours the query, every note listed for an entity
      belongs to that entity, and every note of that entity is listed. */
  lemma GetByEntityBelongs(table: seq<Row>, message: Value, entityType: Value, entityId: Value, host: Host)
    ensures var rows := Select(table, EntityQuery(entityType, entityId, host));
      var notes := GetByEntity(FetchResponse(true, message, Some(rows)));
      && |notes| == |rows|
      && (forall i :: 0 <= i < |notes| ==>
            notes[i].entityType == entityType && notes[i].entityId == host.parseInt(entityId))
      && (forall row ::
            (row in table && Get(row, "entityType_c") == entityType && Get(row, "entityId_c") == host.parseInt(entityId))
            ==> FromRow(row) in notes)
  {
    var query := EntityQuery(entityType, entityId, host);
    var rows := Select(table, query);
    var notes := GetByEntity(FetchResponse(true, message, Some(rows)));
    forall i | 0 <= i < |notes|
      ensures notes[i].entityType == entityType && notes[i].entityId == host.parseInt(entityId)
    {
      assert rows[i] in rows;
      assert Satisfies(rows[i], query);
      assert query[0] == EqualTo("entityType_c", entityType);
      assert query[1] == EqualTo("entityId_c", host.parseInt(entityId));
    }
    forall row | row in table && Get(row, "entityType_c") == entityType
        && Get(row, "entityId_c") == host.parseInt(entityId)
      ensures FromRow(row) in notes
    {
      assert Satisfies(row, query);
      var i :| 0 <= i < |rows| && rows[i] == row;
      assert notes[i] == FromRow(row);
    }
  }

  // ---------------------------------------------------------------------------
  // create.
  // ---------------------------------------------------------------------------

  /** The record `create` sends; building it throws when the content is neither
      text nor nullish, since it has no `trim`. */
  function CreatePayload(input: Fields, clock: Clock, host: Host): (r: Outcome<Payload>)
    ensures r.Threw? <==> TrimOrThrow(Get(input, "content")).None?
  {
    match TrimOrThrow(Get(input, "content"))
    case None => Threw(TypeError)
    case Some(content) =>
      Ok(map[
        "Name" := Str("Note " + ToString(Num(clock.millis))),
        "entityType_c" := Get(input, "entityType"),
        "entityId_c" := host.parseInt(Get(input, "entityId")),
        "category_c" := Get(input, "category"),
        "content_c" := content,
        "createdAt_c" := Str(clock.iso),
        "updatedAt_c" := Str(clock.iso)
      ])
  }

  /** A created note is stamped with the call time as both its creation and its
      modification time, and its text content is stored trimmed: trimming it
      again changes nothing. */
  lemma CreateStampsAndTrims(input: Fields, clock: Clock, host: Host)
    requires CreatePayload(input, clock, host).Ok?
    ensures var p := CreatePayload(input, clock, host).value;
      && "createdAt_c" in p && "updatedAt_c" in p && "content_c" in p
      && p["createdAt_c"] == Str(clock.iso) && p["updatedAt_c"] == Str(clock.iso)
      && (Get(input, "content").Str? ==>
            p["content_c"] == Str(Text.Trim(Get(input, "content").s))
            && Text.Trim(p["content_c"].s) == p["content_c"].s)
      && (!Get(input, "content").Str? ==> p["content_c"] == Undefined)
  {
    if Get(input, "content").Str? {
      Text.TrimIdempotent(Get(input, "content").s);
    }
  }

  /** `create`: nothing is sent when building the payload throws; otherwise the
      payload is sent and the response reconciled. */
  method Create(input: Fields, clock: Clock, host: Host, resp: MutationResponse)
    returns (sent: Option<Payload>, r: Outcome<Option<Note>>)
    ensures CreatePayload(input, clock, host).Threw? ==> sent == None && r == Threw(TypeError)
    ensures CreatePayload(input, clock, host).Ok? ==>
      sent == Some(CreatePayload(input, clock, host).value) && r == Settle(Verdict(resp, ErrorMessage), Decode)
  {
    var payload := CreatePayload(input, clock, host);
    if payload.Threw? {
      return None, Threw(payload.fault);
    }
    sent := Some(payload.value);
    var v := Reconcile(resp, ErrorMessage);
    r := Settle(v, Decode);
  }

  // ---------------------------------------------------------------------------
  // update.
  // ---------------------------------------------------------------------------

  const UpdateRules: seq<Rule> := [
    Rule("entityType", "entityType_c", AsIs),
    Rule("entityId", "entityId_c", ParsedInt),
    Rule("category", "category_c", AsIs),
    Rule("content", "content_c", Trimmed)
  ]

  /** The fixed part of every update payload: the id and a fresh modification time. */
  function UpdateBase(id: Value, clock: Clock, host: Host): Payload {
    map["Id" := host.parseInt(id), "updatedAt_c" := Str(clock.iso)]
  }

  lemma UpdateRulesAt()
    ensures |UpdateRules| == 4
    ensures UpdateRules[0] == Rule("entityType", "entityType_c", AsIs)
    ensures UpdateRules[1] == Rule("entityId", "entityId_c", ParsedInt)
    ensures UpdateRules[2] == Rule("category", "category_c", AsIs)
    ensures UpdateRules[3] == Rule("content", "content_c", Trimmed)
  {
  }

  lemma UpdateRulesDistinct(id: Value, clock: Clock, host: Host)
    ensures Distinct(UpdateBase(id, clock, host), UpdateRules)
  {
  }

  /** The update table can be encoded exactly when the content can be trimmed. */
  lemma UpdateRulesEncodable(input: Fields, host: Host)
    ensures Encodable(input, UpdateRules, host) <==> TrimOrThrow(Get(input, "content")).Some?
  {
    UpdateRulesAt();
    assert UpdateRules[3] in UpdateRules;
    if TrimOrThrow(Get(input, "content")).Some? {
      forall r | r in UpdateRules && Defined(input, r.input)
        ensures Encode(r.encoding, Get(input, r.input), host).Some?
      {
        var i :| 0 <= i < |UpdateRules| && UpdateRules[i] == r;
      }
    }
  }

  /** The record `update` sends, or the fault thrown while building it: `Id`, the
      call time as modification time, and exactly the defined fields, the
      content trimmed. */
  method UpdatePayload(id: Value, input: Fields, clock: Clock, host: Host) returns (r: Outcome<Payload>)
    ensures r.Threw? <==> TrimOrThrow(Get(input, "content")).None?
    ensures r.Threw? ==> r.fault == TypeError
    ensures r.Ok? ==> r.value == Patch(UpdateBase(id, clock, host), input, UpdateRules, host)
  {
    ghost var base, rules := UpdateBase(id, clock, host), UpdateRules;
    UpdateRulesAt();
    var p := map["Id" := host.parseInt(id), "updatedAt_c" := Str(clock.iso)];
    p := AssignIf(p, input, "entityType", "entityType_c", Get(input, "entityType"), base, rules, 0, host);
    p := AssignIf(p, input, "entityId", "entityId_c", host.parseInt(Get(input, "entityId")), base, rules, 1, host);
    p := AssignIf(p, input, "category", "category_c", Get(input, "category"), base, rules, 2, host);
    var content := TrimOrThrow(Get(input, "content"));
    if content.None? {
      return Threw(TypeError);
    }
    p := AssignIf(p, input, "content", "content_c", content.value, base, rules, 3, host);
    return Ok(p);
  }

  /** `update`: nothing is sent when building the payload throws; otherwise the
      payload is sent and the response reconciled. */
  method Update(id: Value, input: Fields, clock: Clock, host: Host, resp: MutationResponse)
    returns (sent: Option<Payload>, r: Outcome<Option<Note>>)
    ensures TrimOrThrow(Get(input, "content")).None? ==> sent == None && r == Threw(TypeError)
    ensures TrimOrThrow(Get(input, "content")).Some? ==>
      sent == Some(Patch(UpdateBase(id, clock, host), input, UpdateRules, host))
      && r == Settle(Verdict(resp, ErrorMessage), Decode)
  {
    var payload := UpdatePayload(id, input, clock, host);
    if payload.Threw? {
      return None, Threw(payload.fault);
    }
    sent := Some(payload.value);
    var v := Reconcile(resp, ErrorMessage);
    r := Settle(v, Decode);
  }

  /** An update sends the fixed entries and exactly the fields the caller
      defined, each encoded; no other column is written. */
  lemma UpdateSendsOnly(id: Value, input: Fields, clock: Clock, host: Host)
    requires TrimOrThrow(Get(input, "content")).Some?
    ensures SendsOnly(Patch(UpdateBase(id, clock, host), input, UpdateRules, host), UpdateBase(id, clock, host), input, UpdateRules, host)
  {
    UpdateRulesDistinct(id, clock, host);
    UpdateRulesEncodable(input, host);
    PatchSendsOnly(UpdateBase(id, clock, host), input, UpdateRules, host);
  }

  /** Every update carries the id and the call time as modification time. */
  lemma UpdateStamps(id: Value, input: Fields, clock: Clock, host: Host)
    requires TrimOrThrow(Get(input, "content")).Some?
    ensures var p := Patch(UpdateBase(id, clock, host), input, UpdateRules, host);
      && "Id" in p && p["Id"] == host.parseInt(id)
      && "updatedAt_c" in p && p["updatedAt_c"] == Str(clock.iso)
  {
    UpdateSendsOnly(id, input, clock, host);
  }

  /** Text content is sent trimmed. */
  lemma UpdateTrimsContent(id: Value, input: Fields, clock: Clock, host: Host)
    requires Get(input, "content").Str?
    ensures var p := Patch(UpdateBase(id, clock, host), input, UpdateRules, host);
      "content_c" in p && p["content_c"] == Str(Text.Trim(Get(input, "content").s))
  {
    assert UpdateRules[3] == Rule("content", "content_c", Trimmed);
    assert TrimOrThrow(Get(input, "content")).Some?;
    UpdateRulesDistinct(id, clock, host);
    UpdateRulesEncodable(input, host);
    PatchSetsColumn(UpdateBase(id, clock, host), input, UpdateRules, host, 3, "content", "content_c", Trimmed);
  }

  // ---------------------------------------------------------------------------
  // canEdit: the 24-hour edit window.
  // ---------------------------------------------------------------------------

  /** The edit window in milliseconds. */
  const WindowMillis := 24 * 60 * 60 * 1000

  /** `canEdit`: the note was created at most 24 hours before `clock`; an invalid
      creation time never qualifies. Stated in hours, as the source computes it. */
  function CanEdit(note: Note, clock: Clock, host: Host): (ok: bool)
    ensures ok <==>
      && DateOf(note.createdAt, host).Some?
      && ((clock.millis - DateOf(note.createdAt, host).value) as real) / 3_600_000.0 <= 24.0
  {
    match DateOf(note.createdAt, host)
    case None => false
    case Some(t) =>
      HoursWithin(clock.millis - t);
      clock.millis - t <= WindowMillis
  }

  /** A difference in milliseconds is within 24 hours exactly when it is at most
      86 400 000 milliseconds. */
  lemma HoursWithin(d: int)
    ensures (d as real) / 3_600_000.0 <= 24.0 <==> d <= WindowMillis
  {
    assert WindowMillis == 86_400_000;
    if d <= WindowMillis {
      assert (d as real) <= 86_400_000.0;
    } else {
      assert (d as real) >= 86_400_001.0;
    }
  }

  /** The window is inclusive: a note exactly 24 hours old can still be edited,
      one a millisecond older cannot, and one dated in the future can. */
  lemma EditWindowBoundary(note: Note, clock: Clock, host: Host, t: int)
    requires DateOf(note.createdAt, host) == Some(t)
    ensures clock.millis == t + WindowMillis ==> CanEdit(note, clock, host)
    ensures clock.millis == t + WindowMillis + 1 ==> !CanEdit(note, clock, host)
    ensures clock.millis <= t ==> CanEdit(note, clock, host)
  {
  }

  /** Editability only ever ends: once a note cannot be edited, it cannot be
      edited at any later time. */
  lemma EditWindowCloses(note: Note, earlier: Clock, later: Clock, host: Host)
    requires earlier.millis <= later.millis && !CanEdit(note, earlier, host)
    ensures !CanEdit(note, later, host)
  {
  }
}
