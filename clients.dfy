/**
 * The client adapter (`client_c` collection): a one-to-one renaming of seven
 * storage columns, create defaults and the partial update.
 */
module Clients {
  import opened Js
  import opened Adapter

  /** A client company in domain shape. */
  datatype Client = Client(
    id: Value,
    companyName: Value,
    contactPerson: Value,
    email: Value,
    phone: Value,
    address: Value,
    relationshipStatus: Value,
    createdAt: Value)

  /** Storage shape to domain shape: `Id` and seven `*_c` columns, renamed. */
  function FromRow(row: Row): Client {
    Client(
      id := Get(row, "Id"),
      companyName := Get(row, "companyName_c"),
      contactPerson := Get(row, "contactPerson_c"),
      email := Get(row, "email_c"),
      phone := Get(row, "phone_c"),
      address := Get(row, "address_c"),
      relationshipStatus := Get(row, "relationshipStatus_c"),
      createdAt := Get(row, "createdAt_c"))
  }

  /** The storage columns a client is read from. */
  const Columns: set<string> := {
    "Id", "companyName_c", "contactPerson_c", "email_c", "phone_c", "address_c",
    "relationshipStatus_c", "createdAt_c"}

  /** Domain shape to storage shape: the inverse renaming. */
  function ToRow(c: Client): (row: Row)
    ensures row.Keys == Columns
  {
    map[
      "Id" := c.id,
      "companyName_c" := c.companyName,
      "contactPerson_c" := c.contactPerson,
      "email_c" := c.email,
      "phone_c" := c.phone,
      "address_c" := c.address,
      "relationshipStatus_c" := c.relationshipStatus,
      "createdAt_c" := c.createdAt
    ]
  }

  /** The mapping loses nothing: a client written in storage shape reads back
      unchanged. */
  lemma ClientRoundTrip(c: Client)
    ensures FromRow(ToRow(c)) == c
  {
    var row := ToRow(c);
    assert row["Id"] == c.id && row["companyName_c"] == c.companyName && row["contactPerson_c"] == c.contactPerson;
    assert row["email_c"] == c.email && row["phone_c"] == c.phone && row["address_c"] == c.address;
    assert row["relationshipStatus_c"] == c.relationshipStatus && row["createdAt_c"] == c.createdAt;
  }

  /** The mapping is one-to-one on the mapped columns: two rows read as the same
      client exactly when they agree on every one of them. */
  lemma SameClient(a: Row, b: Row)
    ensures FromRow(a) == FromRow(b) <==> forall k :: k in Columns ==> Get(a, k) == Get(b, k)
  {
    if FromRow(a) == FromRow(b) {
      forall k | k in Columns
        ensures Get(a, k) == Get(b, k)
      {
      }
    }
  }

  /** The row decoder handed to the generic read and reconciliation paths. */
  function Decode(row: Row): Outcome<Client> {
    Ok(FromRow(row))
  }

  /** `getAll` */
  function GetAll(resp: FetchResponse): (clients: seq<Client>)
    ensures !resp.success || resp.data.None? ==> clients == []
    ensures resp.success && resp.data.Some? ==>
      |clients| == |resp.data.value| && forall i :: 0 <= i < |clients| ==> clients[i] == FromRow(resp.data.value[i])
  {
    ListAll(resp, Decode)
  }

  /** `getById`: null when the response or its data is missing. */
  function GetById(resp: Option<ByIdResponse>): (c: Option<Client>)
    ensures c.Some? <==> resp.Some? && resp.value.data.Some?
    ensures c.Some? ==> c.value == FromRow(resp.value.data.value)
  {
    FindOne(resp, Decode)
  }

  /** The record `create` sends. */
  function CreatePayload(input: Fields, clock: Clock): Payload {
    map[
      "Name" := Or(Get(input, "companyName"), Str("Client " + ToString(Num(clock.millis)))),
      "companyName_c" := Get(input, "companyName"),
      "contactPerson_c" := Get(input, "contactPerson"),
      "email_c" := Get(input, "email"),
      "phone_c" := Get(input, "phone"),
      "address_c" := Get(input, "address"),
      "relationshipStatus_c" := Or(Get(input, "relationshipStatus"), Str("prospect")),
      "createdAt_c" := Str(clock.iso)
    ]
  }

  /** A created client is named after its company, or gets a generated name when
      the company name is falsy; either way the name is never empty. */
  lemma CreateNamed(input: Fields, clock: Clock)
    ensures var p := CreatePayload(input, clock);
      && "Name" in p && Truthy(p["Name"])
      && (Truthy(Get(input, "companyName")) ==> p["Name"] == Get(input, "companyName"))
  {
  }

  /** Create, then read back: the stored record maps to the caller's fields, with
      the relationship defaulted to "prospect" and the creation time set to the
      call time. */
  lemma CreateThenRead(input: Fields, clock: Clock, id: Value)
    ensures FromRow(CreatePayload(input, clock)["Id" := id]) == Client(
      id := id,
      companyName := Get(input, "companyName"),
      contactPerson := Get(input, "contactPerson"),
      email := Get(input, "email"),
      phone := Get(input, "phone"),
      address := Get(input, "address"),
      relationshipStatus := Or(Get(input, "relationshipStatus"), Str("prospect")),
      createdAt := Str(clock.iso))
  {
    var row := CreatePayload(input, clock)["Id" := id];
    assert row["Id"] == id && row["companyName_c"] == Get(input, "companyName");
    assert row["contactPerson_c"] == Get(input, "contactPerson") && row["email_c"] == Get(input, "email");
    assert row["phone_c"] == Get(input, "phone") && row["address_c"] == Get(input, "address");
    assert row["relationshipStatus_c"] == Or(Get(input, "relationshipStatus"), Str("prospect"));
    assert row["createdAt_c"] == Str(clock.iso);
  }

  /** `create`: sends the create payload, then reconciles the response. */
  method Create(input: Fields, clock: Clock, resp: MutationResponse) returns (sent: Payload, r: Outcome<Option<Client>>)
    ensures sent == CreatePayload(input, clock)
    ensures r == Settle(Verdict(resp, ErrorMessage), Decode)
  {
    sent := CreatePayload(input, clock);
    var v := Reconcile(resp, ErrorMessage);
    r := Settle(v, Decode);
  }

  /** The six updatable fields; the creation time and the name are not among them. */
  const UpdateRules: seq<Rule> := [
    Rule("companyName", "companyName_c", AsIs),
    Rule("contactPerson", "contactPerson_c", AsIs),
    Rule("email", "email_c", AsIs),
    Rule("phone", "phone_c", AsIs),
    Rule("address", "address_c", AsIs),
    Rule("relationshipStatus", "relationshipStatus_c", AsIs)
  ]

  function UpdateBase(id: Value, host: Host): Payload {
    map["Id" := host.parseInt(id)]
  }

  lemma UpdateRulesAt()
    ensures |UpdateRules| == 6
    ensures UpdateRules[0] == Rule("companyName", "companyName_c", AsIs)
    ensures UpdateRules[1] == Rule("contactPerson", "contactPerson_c", AsIs)
    ensures UpdateRules[2] == Rule("email", "email_c", AsIs)
    ensures UpdateRules[3] == Rule("phone", "phone_c", AsIs)
    ensures UpdateRules[4] == Rule("address", "address_c", AsIs)
    ensures UpdateRules[5] == Rule("relationshipStatus", "relationshipStatus_c", AsIs)
  {
  }

  lemma UpdateRulesDistinct(id: Value, host: Host)
    ensures Distinct(UpdateBase(id, host), UpdateRules)
  {
  }

  lemma UpdateRulesEncodable(input: Fields, host: Host)
    ensures Encodable(input, UpdateRules, host)
  {
    assert forall i :: 0 <= i < |UpdateRules| ==> UpdateRules[i].encoding != Trimmed;
    UntrimmedEncodable(input, UpdateRules, host);
  }

  /** The record `update` sends: `Id` plus exactly the defined fields among the six. */
  method UpdatePayload(id: Value, input: Fields, host: Host) returns (p: Payload)
    ensures p == Patch(UpdateBase(id, host), input, UpdateRules, host)
  {
    ghost var base, rules := UpdateBase(id, host), UpdateRules;
    UpdateRulesAt();
    p := map["Id" := host.parseInt(id)];
    p := AssignIf(p, input, "companyName", "companyName_c", Get(input, "companyName"), base, rules, 0, host);
    p := AssignIf(p, input, "contactPerson", "contactPerson_c", Get(input, "contactPerson"), base, rules, 1, host);
    p := AssignIf(p, input, "email", "email_c", Get(input, "email"), base, rules, 2, host);
    p := AssignIf(p, input, "phone", "phone_c", Get(input, "phone"), base, rules, 3, host);
    p := AssignIf(p, input, "address", "address_c", Get(input, "address"), base, rules, 4, host);
    p := AssignIf(p, input, "relationshipStatus", "relationshipStatus_c", Get(input, "relationshipStatus"), base, rules, 5, host);
  }

  /** `update`: sends the partial-update payload, then reconciles the response. */
  method Update(id: Value, input: Fields, host: Host, resp: MutationResponse)
    returns (sent: Payload, r: Outcome<Option<Client>>)
    ensures sent == Patch(UpdateBase(id, host), input, UpdateRules, host)
    ensures r == Settle(Verdict(resp, ErrorMessage), Decode)
  {
    sent := UpdatePayload(id, input, host);
    var v := Reconcile(resp, ErrorMessage);
    r := Settle(v, Decode);
  }

  /** An update sends `Id` and exactly the fields the caller defined; no other column is written. */
  lemma UpdateSendsOnly(id: Value, input: Fields, host: Host)
    ensures SendsOnly(Patch(UpdateBase(id, host), input, UpdateRules, host), UpdateBase(id, host), input, UpdateRules, host)
  {
    UpdateRulesDistinct(id, host);
    UpdateRulesEncodable(input, host);
    PatchSendsOnly(UpdateBase(id, host), input, UpdateRules, host);
  }

  /** An update never touches the creation time or the name. */
  lemma UpdateKeepsCreation(id: Value, input: Fields, host: Host)
    ensures var p := Patch(UpdateBase(id, host), input, UpdateRules, host);
      "createdAt_c" !in p && "Name" !in p
  {
    UpdateRulesAt();
    PatchOmits(UpdateBase(id, host), input, UpdateRules, host, "createdAt_c");
    PatchOmits(UpdateBase(id, host), input, UpdateRules, host, "Name");
  }
}
