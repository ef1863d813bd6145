/**
 * The job adapter (`job_c` collection): storage/domain mapping with the
 * applicant-count default, the nullable integer columns, create defaults and
 * the partial update.
 */
module Jobs {
  import opened Js
  import opened Adapter

  /** A job in domain shape. */
  datatype Job = Job(
    id: Value,
    title: Value,
    company: Value,
    clientId: Value,
    location: Value,
    jobType: Value,
    salaryMin: Value,
    salaryMax: Value,
    experienceLevel: Value,
    requiredSkills: Value,
    description: Value,
    status: Value,
    createdAt: Value,
    applicants: Value)

  /** Storage shape to domain shape; a falsy applicant count reads as 0. */
  function FromRow(row: Row): (j: Job)
    ensures Truthy(Get(row, "applicants_c")) ==> j.applicants == Get(row, "applicants_c")
    ensures !Truthy(Get(row, "applicants_c")) ==> j.applicants == Num(0)
  {
    Job(
      id := Get(row, "Id"),
      title := Get(row, "title_c"),
      company := Get(row, "company_c"),
      clientId := Get(row, "clientId_c"),
      location := Get(row, "location_c"),
      jobType := Get(row, "jobType_c"),
      salaryMin := Get(row, "salaryMin_c"),
      salaryMax := Get(row, "salaryMax_c"),
      experienceLevel := Get(row, "experienceLevel_c"),
      requiredSkills := Get(row, "requiredSkills_c"),
      description := Get(row, "description_c"),
      status := Get(row, "status_c"),
      createdAt := Get(row, "createdAt_c"),
      applicants := Or(Get(row, "applicants_c"), Num(0)))
  }

  /** The row decoder handed to the generic read and reconciliation paths. */
  function Decode(row: Row): Outcome<Job> {
    Ok(FromRow(row))
  }

  /** `getAll`: every row of a successful response, in order; an empty list otherwise. */
  function GetAll(resp: FetchResponse): (jobs: seq<Job>)
    ensures !resp.success || resp.data.None? ==> jobs == []
    ensures resp.success && resp.data.Some? ==>
      |jobs| == |resp.data.value| && forall i :: 0 <= i < |jobs| ==> jobs[i] == FromRow(resp.data.value[i])
  {
    ListAll(resp, Decode)
  }

  /** `getById`: null when the response or its data is missing. */
  function GetById(resp: Option<ByIdResponse>): (j: Option<Job>)
    ensures j.Some? <==> resp.Some? && resp.value.data.Some?
    ensures j.Some? ==> j.value == FromRow(resp.value.data.value)
  {
    FindOne(resp, Decode)
  }

  /** The record `create` sends. */
  function CreatePayload(input: Fields, clock: Clock, host: Host): Payload {
    map[
      "Name" := Or(Get(input, "title"), Str("Job " + ToString(Num(clock.millis)))),
      "title_c" := Get(input, "title"),
      "company_c" := Get(input, "company"),
      "clientId_c" := IntOrNull(Get(input, "clientId"), host),
      "location_c" := Get(input, "location"),
      "jobType_c" := Get(input, "jobType"),
      "salaryMin_c" := IntOrNull(Get(input, "salaryMin"), host),
      "salaryMax_c" := IntOrNull(Get(input, "salaryMax"), host),
      "experienceLevel_c" := Get(input, "experienceLevel"),
      "requiredSkills_c" := Get(input, "requiredSkills"),
      "description_c" := Get(input, "description"),
      "status_c" := Or(Get(input, "status"), Str("active")),
      "createdAt_c" := Str(clock.iso),
      "applicants_c" := Num(0)
    ]
  }

  /** A created job is named after its title, or gets a generated name when the
      title is falsy; either way the name is never empty. */
  lemma CreateNamed(input: Fields, clock: Clock, host: Host)
    ensures var p := CreatePayload(input, clock, host);
      && "Name" in p && Truthy(p["Name"])
      && (Truthy(Get(input, "title")) ==> p["Name"] == Get(input, "title"))
  {
  }

  /** The identifying columns of a created record; with the next two lemmas,
      splits the read-back proof into parts the solver handles. */
  lemma CreatedRowHead(input: Fields, clock: Clock, host: Host, id: Value)
    ensures var row := CreatePayload(input, clock, host)["Id" := id];
      && "Id" in row && "title_c" in row && "company_c" in row && "clientId_c" in row && "location_c" in row
      && row["Id"] == id
      && row["title_c"] == Get(input, "title")
      && row["company_c"] == Get(input, "company")
      && row["clientId_c"] == IntOrNull(Get(input, "clientId"), host)
      && row["location_c"] == Get(input, "location")
  {
  }

  /** The terms of a created record. */
  lemma CreatedRowTerms(input: Fields, clock: Clock, host: Host, id: Value)
    ensures var row := CreatePayload(input, clock, host)["Id" := id];
      && "jobType_c" in row && "salaryMin_c" in row && "salaryMax_c" in row
      && "experienceLevel_c" in row && "requiredSkills_c" in row
      && row["jobType_c"] == Get(input, "jobType")
      && row["salaryMin_c"] == IntOrNull(Get(input, "salaryMin"), host)
      && row["salaryMax_c"] == IntOrNull(Get(input, "salaryMax"), host)
      && row["experienceLevel_c"] == Get(input, "experienceLevel")
      && row["requiredSkills_c"] == Get(input, "requiredSkills")
  {
  }

  /** The description and the defaulted columns of a created record. */
  lemma CreatedRowDefaults(input: Fields, clock: Clock, host: Host, id: Value)
    ensures var row := CreatePayload(input, clock, host)["Id" := id];
      && "description_c" in row && "status_c" in row && "createdAt_c" in row && "applicants_c" in row
      && row["description_c"] == Get(input, "description")
      && row["status_c"] == Or(Get(input, "status"), Str("active"))
      && row["createdAt_c"] == Str(clock.iso)
      && row["applicants_c"] == Num(0)
  {
  }

  /** Create, then read back: the stored record maps to the caller's fields, with
      the three nullable integers coerced, the status defaulted to "active", the
      creation time set to the call time and no applicants yet. */
  lemma CreateThenRead(input: Fields, clock: Clock, host: Host, id: Value)
    ensures FromRow(CreatePayload(input, clock, host)["Id" := id]) == Job(
      id := id,
      title := Get(input, "title"),
      company := Get(input, "company"),
      clientId := IntOrNull(Get(input, "clientId"), host),
      location := Get(input, "location"),
      jobType := Get(input, "jobType"),
      salaryMin := IntOrNull(Get(input, "salaryMin"), host),
      salaryMax := IntOrNull(Get(input, "salaryMax"), host),
      experienceLevel := Get(input, "experienceLevel"),
      requiredSkills := Get(input, "requiredSkills"),
      description := Get(input, "description"),
      status := Or(Get(input, "status"), Str("active")),
      createdAt := Str(clock.iso),
      applicants := Num(0))
  {
    CreatedRowHead(input, clock, host, id);
    CreatedRowTerms(input, clock, host, id);
    CreatedRowDefaults(input, clock, host, id);
  }

  /** A created record keeps a truthy status and replaces a falsy one with
      "active"; it starts with no applicants and is stamped with the call time. */
  lemma CreateDefaults(input: Fields, clock: Clock, host: Host)
    ensures var p := CreatePayload(input, clock, host);
      && "status_c" in p && "createdAt_c" in p && "applicants_c" in p
      && (Truthy(Get(input, "status")) ==> p["status_c"] == Get(input, "status"))
      && (!Truthy(Get(input, "status")) ==> p["status_c"] == Str("active"))
      && p["createdAt_c"] == Str(clock.iso)
      && p["applicants_c"] == Num(0)
  {
  }

  /** A created record stores a falsy client reference or salary bound as null
      and a truthy one as its parsed integer. */
  lemma CreateCoerces(input: Fields, clock: Clock, host: Host)
    ensures var p := CreatePayload(input, clock, host);
      && "clientId_c" in p && "salaryMin_c" in p && "salaryMax_c" in p
      && (!Truthy(Get(input, "clientId")) ==> p["clientId_c"] == Null)
      && (Truthy(Get(input, "clientId")) ==> p["clientId_c"] == host.parseInt(Get(input, "clientId")))
      && (!Truthy(Get(input, "salaryMin")) ==> p["salaryMin_c"] == Null)
      && (Truthy(Get(input, "salaryMin")) ==> p["salaryMin_c"] == host.parseInt(Get(input, "salaryMin")))
      && (!Truthy(Get(input, "salaryMax")) ==> p["salaryMax_c"] == Null)
      && (Truthy(Get(input, "salaryMax")) ==> p["salaryMax_c"] == host.parseInt(Get(input, "salaryMax")))
  {
  }

  /** `create`: sends the create payload, then reconciles the response. */
  method Create(input: Fields, clock: Clock, host: Host, resp: MutationResponse)
    returns (sent: Payload, r: Outcome<Option<Job>>)
    ensures sent == CreatePayload(input, clock, host)
    ensures r == Settle(Verdict(resp, ErrorMessage), Decode)
  {
    sent := CreatePayload(input, clock, host);
    var v := Reconcile(resp, ErrorMessage);
    r := Settle(v, Decode);
  }

  /** The updatable fields, their columns and encodings; the name is not among them. */
  const UpdateRules: seq<Rule> := [
    Rule("title", "title_c", AsIs),
    Rule("company", "company_c", AsIs),
    Rule("clientId", "clientId_c", NullableInt),
    Rule("location", "location_c", AsIs),
    Rule("jobType", "jobType_c", AsIs),
    Rule("salaryMin", "salaryMin_c", NullableInt),
    Rule("salaryMax", "salaryMax_c", NullableInt),
    Rule("experienceLevel", "experienceLevel_c", AsIs),
    Rule("requiredSkills", "requiredSkills_c", AsIs),
    Rule("description", "description_c", AsIs),
    Rule("status", "status_c", AsIs),
    Rule("applicants", "applicants_c", AsIs)
  ]

  function UpdateBase(id: Value, host: Host): Payload {
    map["Id" := host.parseInt(id)]
  }

  lemma UpdateRulesAt()
    ensures |UpdateRules| == 12
    ensures UpdateRules[0] == Rule("title", "title_c", AsIs)
    ensures UpdateRules[1] == Rule("company", "company_c", AsIs)
    ensures UpdateRules[2] == Rule("clientId", "clientId_c", NullableInt)
    ensures UpdateRules[3] == Rule("location", "location_c", AsIs)
    ensures UpdateRules[4] == Rule("jobType", "jobType_c", AsIs)
    ensures UpdateRules[5] == Rule("salaryMin", "salaryMin_c", NullableInt)
    ensures UpdateRules[6] == Rule("salaryMax", "salaryMax_c", NullableInt)
    ensures UpdateRules[7] == Rule("experienceLevel", "experienceLevel_c", AsIs)
    ensures UpdateRules[8] == Rule("requiredSkills", "requiredSkills_c", AsIs)
    ensures UpdateRules[9] == Rule("description", "description_c", AsIs)
    ensures UpdateRules[10] == Rule("status", "status_c", AsIs)
    ensures UpdateRules[11] == Rule("applicants", "applicants_c", AsIs)
  {
  }

  lemma UpdateRulesDistinct(id: Value, host: Host)
    ensures Distinct(UpdateBase(id, host), UpdateRules)
  {
  }

  lemma UpdateRulesEncodable(input: Fields, host: Host)
    ensures Encodable(input, UpdateRules, host)
  {
    assert forall i :: 0 <= i < |UpdateRules| ==> UpdateRules[i].encoding != Trimmed;
    UntrimmedEncodable(input, UpdateRules, host);
  }

  /** The record `update` sends: `Id` plus exactly the defined fields among the twelve. */
  method UpdatePayload(id: Value, input: Fields, host: Host) returns (p: Payload)
    ensures p == Patch(UpdateBase(id, host), input, UpdateRules, host)
  {
    ghost var base, rules := UpdateBase(id, host), UpdateRules;
    UpdateRulesAt();
    p := map["Id" := host.parseInt(id)];
    p := AssignPosting(p, input, base, host);
    p := AssignIf(p, input, "salaryMax", "salaryMax_c", IntOrNull(Get(input, "salaryMax"), host), base, rules, 6, host);
    p := AssignIf(p, input, "experienceLevel", "experienceLevel_c", Get(input, "experienceLevel"), base, rules, 7, host);
    p := AssignIf(p, input, "requiredSkills", "requiredSkills_c", Get(input, "requiredSkills"), base, rules, 8, host);
    p := AssignIf(p, input, "description", "description_c", Get(input, "description"), base, rules, 9, host);
    p := AssignIf(p, input, "status", "status_c", Get(input, "status"), base, rules, 10, host);
    p := AssignIf(p, input, "applicants", "applicants_c", Get(input, "applicants"), base, rules, 11, host);
  }

  /** The first six statements of the update builder: the posting itself. */
  method AssignPosting(p0: Payload, input: Fields, ghost base: Payload, host: Host) returns (p: Payload)
    requires p0 == base
    ensures p == PatchUpTo(base, input, UpdateRules, 6, host)
  {
    ghost var rules := UpdateRules;
    UpdateRulesAt();
    p := AssignIf(p0, input, "title", "title_c", Get(input, "title"), base, rules, 0, host);
    p := AssignIf(p, input, "company", "company_c", Get(input, "company"), base, rules, 1, host);
    p := AssignIf(p, input, "clientId", "clientId_c", IntOrNull(Get(input, "clientId"), host), base, rules, 2, host);
    p := AssignIf(p, input, "location", "location_c", Get(input, "location"), base, rules, 3, host);
    p := AssignIf(p, input, "jobType", "jobType_c", Get(input, "jobType"), base, rules, 4, host);
    p := AssignIf(p, input, "salaryMin", "salaryMin_c", IntOrNull(Get(input, "salaryMin"), host), base, rules, 5, host);
  }

  /** `update`: sends the partial-update payload, then reconciles the response. */
  method Update(id: Value, input: Fields, host: Host, resp: MutationResponse)
    returns (sent: Payload, r: Outcome<Option<Job>>)
    ensures sent == Patch(UpdateBase(id, host), input, UpdateRules, host)
    ensures r == Settle(Verdict(resp, ErrorMessage), Decode)
  {
    sent := UpdatePayload(id, input, host);
    var v := Reconcile(resp, ErrorMessage);
    r := Settle(v, Decode);
  }

  /** An update sends `Id` and exactly the fields the caller defined; no other column is written. */
  lemma UpdateSendsOnly(id: Value, input: Fields, host: Host)
    ensures SendsOnly(Patch(UpdateBase(id, host), input, UpdateRules, host), UpdateBase(id, host), input, UpdateRules, host)
  {
    UpdateRulesDistinct(id, host);
    UpdateRulesEncodable(input, host);
    PatchSendsOnly(UpdateBase(id, host), input, UpdateRules, host);
  }

  /** No rule of the update table writes the name. */
  lemma UpdateRulesSkipName()
    ensures forall i :: 0 <= i < |UpdateRules| ==> UpdateRules[i].column != "Name"
  {
    UpdateRulesAt();
  }

  /** An update never renames a job: `Name` is not sent, whatever the input holds. */
  lemma NameNeverSent(id: Value, input: Fields, host: Host)
    ensures "Name" !in Patch(UpdateBase(id, host), input, UpdateRules, host)
  {
    UpdateRulesSkipName();
    PatchOmits(UpdateBase(id, host), input, UpdateRules, host, "Name");
  }

  /** An update coerces a client reference or a salary the way create does
      (compare `CreateCoerces`): a falsy value is sent as
      null, anything else as its parsed integer. */
  lemma UpdateCoercesClientId(id: Value, input: Fields, host: Host)
    requires Defined(input, "clientId")
    ensures var p := Patch(UpdateBase(id, host), input, UpdateRules, host);
      "clientId_c" in p && p["clientId_c"] == IntOrNull(Get(input, "clientId"), host)
  {
    assert UpdateRules[2] == Rule("clientId", "clientId_c", NullableInt);
    UpdateRulesDistinct(id, host);
    UpdateRulesEncodable(input, host);
    PatchSetsColumn(UpdateBase(id, host), input, UpdateRules, host, 2, "clientId", "clientId_c", NullableInt);
  }

  lemma UpdateCoercesSalaryMin(id: Value, input: Fields, host: Host)
    requires Defined(input, "salaryMin")
    ensures var p := Patch(UpdateBase(id, host), input, UpdateRules, host);
      "salaryMin_c" in p && p["salaryMin_c"] == IntOrNull(Get(input, "salaryMin"), host)
  {
    assert UpdateRules[5] == Rule("salaryMin", "salaryMin_c", NullableInt);
    UpdateRulesDistinct(id, host);
    UpdateRulesEncodable(input, host);
    PatchSetsColumn(UpdateBase(id, host), input, UpdateRules, host, 5, "salaryMin", "salaryMin_c", NullableInt);
  }

  lemma UpdateCoercesSalaryMax(id: Value, input: Fields, host: Host)
    requires Defined(input, "salaryMax")
    ensures var p := Patch(UpdateBase(id, host), input, UpdateRules, host);
      "salaryMax_c" in p && p["salaryMax_c"] == IntOrNull(Get(input, "salaryMax"), host)
  {
    assert UpdateRules[6] == Rule("salaryMax", "salaryMax_c", NullableInt);
    UpdateRulesDistinct(id, host);
    UpdateRulesEncodable(input, host);
    PatchSetsColumn(UpdateBase(id, host), input, UpdateRules, host, 6, "salaryMax", "salaryMax_c", NullableInt);
  }
}
