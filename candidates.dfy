/**
 * The candidate adapter (`candidate_c` collection): storage/domain mapping
 * with the comma-joined skills column, create defaults and the partial update.
 */
module Candidates {
  import opened Js
  import opened Adapter
  import Text

  /** A candidate in domain shape. */
  datatype Candidate = Candidate(
    id: Value,
    name: Value,
    email: Value,
    phone: Value,
    location: Value,
    currentJobTitle: Value,
    position: Value,
    status: Value,
    appliedAt: Value,
    experienceLevel: Value,
    skills: seq<string>,
    resumeSummary: Value,
    availability: Value)

  /** Reading the skills column: empty or missing is no skills, text is split
      on commas, and anything else makes `split` throw. */
  function DecodeSkills(v: Value): (r: Outcome<seq<string>>)
    ensures !Truthy(v) ==> r == Ok([])
    ensures r.Threw? <==> Truthy(v) && !v.Str?
    ensures r.Ok? && Truthy(v) ==> Text.Join(r.value, ',') == v.s && Text.FreeOf(r.value, ',')
  {
    if !Truthy(v) then Ok([])
    else if v.Str? then
      Text.JoinSplit(v.s, ',');
      Ok(Text.Split(v.s, ','))
    else Threw(TypeError)
  }

  /** The skills list survives the store's comma-joined column when no skill
      holds a comma; the one list that does not is [""], which reads back as []. */
  lemma {:induction false} SkillsRoundTrip(xs: seq<string>)
    requires Text.FreeOf(xs, ',') && xs != [""]
    ensures DecodeSkills(JoinIfArray(Arr(Text.Texts(xs)))) == Ok(xs)
  {
    Text.JoinValuesOfTexts(xs, ',');
    var stored := Text.Join(xs, ',');
    if xs != [] {
      if |xs| == 1 {
        assert stored == xs[0] != "";
      } else {
        assert stored[|xs[0]|] == ',';
      }
      Text.SplitJoin(xs, ',');
    }
  }

  /** The exception to the round trip: a list holding one empty skill is lost. */
  lemma LoneEmptySkillIsLost()
    ensures DecodeSkills(JoinIfArray(Arr([Str("")]))) == Ok([])
  {
    assert JoinValues([Str("")], ",") == "";
  }

  /** Storage shape to domain shape; throws only when the skills column holds a
      truthy value that is not text. */
  function FromRow(row: Row): (r: Outcome<Candidate>)
    ensures r.Threw? <==> DecodeSkills(Get(row, "skills_c")).Threw?
    ensures r.Ok? ==> DecodeSkills(Get(row, "skills_c")) == Ok(r.value.skills)
  {
    match DecodeSkills(Get(row, "skills_c"))
    case Threw(f) => Threw(f)
    case Ok(skills) =>
      Ok(Candidate(
        id := Get(row, "Id"),
        name := Get(row, "Name"),
        email := Get(row, "email_c"),
        phone := Get(row, "phone_c"),
        location := Get(row, "location_c"),
        currentJobTitle := Get(row, "currentJobTitle_c"),
        position := Get(row, "position_c"),
        status := Get(row, "status_c"),
        appliedAt := Get(row, "appliedAt_c"),
        experienceLevel := Get(row, "experienceLevel_c"),
        skills := skills,
        resumeSummary := Get(row, "resumeSummary_c"),
        availability := Get(row, "availability_c")))
  }

  /** `getAll` */
  function GetAll(resp: FetchResponse): seq<Candidate> {
    ListAll(resp, FromRow)
  }

  /** `getById` */
  function GetById(resp: Option<ByIdResponse>): Option<Candidate> {
    FindOne(resp, FromRow)
  }

  /** The record `create` sends. */
  function CreatePayload(input: Fields, clock: Clock): Payload {
    map[
      "Name" := Get(input, "name"),
      "email_c" := Get(input, "email"),
      "phone_c" := Get(input, "phone"),
      "location_c" := Get(input, "location"),
      "currentJobTitle_c" := Get(input, "currentJobTitle"),
      "position_c" := Get(input, "position"),
      "status_c" := Or(Get(input, "status"), Str("new")),
      "appliedAt_c" := Str(clock.iso),
      "experienceLevel_c" := Or(Get(input, "experienceLevel"), Str("entry")),
      "skills_c" := JoinIfArray(Get(input, "skills")),
      "resumeSummary_c" := Get(input, "resumeSummary"),
      "availability_c" := Or(Get(input, "availability"), Str("available"))
    ]
  }

  /** Create, then read back: the record stored from the create payload (with the
      `Id` the store assigns) maps to the caller's fields, with status, experience
      level and availability defaulted when falsy, the application time set to the
      call time, and the skills list intact. */
  lemma CreateThenRead(input: Fields, clock: Clock, id: Value, xs: seq<string>)
    requires Get(input, "skills") == Arr(Text.Texts(xs)) && Text.FreeOf(xs, ',') && xs != [""]
    ensures FromRow(CreatePayload(input, clock)["Id" := id]) == Ok(Candidate(
      id := id,
      name := Get(input, "name"),
      email := Get(input, "email"),
      phone := Get(input, "phone"),
      location := Get(input, "location"),
      currentJobTitle := Get(input, "currentJobTitle"),
      position := Get(input, "position"),
      status := Or(Get(input, "status"), Str("new")),
      appliedAt := Str(clock.iso),
      experienceLevel := Or(Get(input, "experienceLevel"), Str("entry")),
      skills := xs,
      resumeSummary := Get(input, "resumeSummary"),
      availability := Or(Get(input, "availability"), Str("available"))))
  {
    var row := CreatePayload(input, clock)["Id" := id];
    CreatedRowCopies(input, clock, id);
    CreatedRowProfile(input, clock, id);
    CreatedRowDefaults(input, clock, id);
    SkillsRoundTrip(xs);
    assert DecodeSkills(Get(row, "skills_c")) == Ok(xs);
  }

  /** The identifying columns of a created record, stored as given; with the
      next two lemmas, splits the read-back proof into parts the solver handles. */
  lemma CreatedRowCopies(input: Fields, clock: Clock, id: Value)
    ensures var row := CreatePayload(input, clock)["Id" := id];
      && "Id" in row && "Name" in row && "email_c" in row && "phone_c" in row
      && row["Id"] == id
      && row["Name"] == Get(input, "name")
      && row["email_c"] == Get(input, "email")
      && row["phone_c"] == Get(input, "phone")
  {
  }

  /** The descriptive columns of a created record, stored as given. */
  lemma CreatedRowProfile(input: Fields, clock: Clock, id: Value)
    ensures var row := CreatePayload(input, clock)["Id" := id];
      && "location_c" in row && "currentJobTitle_c" in row && "position_c" in row && "resumeSummary_c" in row
      && row["location_c"] == Get(input, "location")
      && row["currentJobTitle_c"] == Get(input, "currentJobTitle")
      && row["position_c"] == Get(input, "position")
      && row["resumeSummary_c"] == Get(input, "resumeSummary")
  {
  }

  /** The defaulted and derived columns of a created record. */
  lemma CreatedRowDefaults(input: Fields, clock: Clock, id: Value)
    ensures var row := CreatePayload(input, clock)["Id" := id];
      && "status_c" in row && "appliedAt_c" in row && "experienceLevel_c" in row
      && "skills_c" in row && "availability_c" in row
      && row["status_c"] == Or(Get(input, "status"), Str("new"))
      && row["appliedAt_c"] == Str(clock.iso)
      && row["experienceLevel_c"] == Or(Get(input, "experienceLevel"), Str("entry"))
      && row["skills_c"] == JoinIfArray(Get(input, "skills"))
      && row["availability_c"] == Or(Get(input, "availability"), Str("available"))
  {
  }

  /** A created record keeps a truthy status, experience level or availability
      and replaces a falsy one with "new", "entry" or "available"; it is stamped
      with the call time; an array of skills is stored as its comma-joined text
      and anything else as given. */
  lemma CreateDefaults(input: Fields, clock: Clock)
    ensures var p := CreatePayload(input, clock);
      && "status_c" in p && "experienceLevel_c" in p && "availability_c" in p
      && "appliedAt_c" in p && "skills_c" in p
      && (Truthy(Get(input, "status")) ==> p["status_c"] == Get(input, "status"))
      && (!Truthy(Get(input, "status")) ==> p["status_c"] == Str("new"))
      && (Truthy(Get(input, "experienceLevel")) ==> p["experienceLevel_c"] == Get(input, "experienceLevel"))
      && (!Truthy(Get(input, "experienceLevel")) ==> p["experienceLevel_c"] == Str("entry"))
      && (Truthy(Get(input, "availability")) ==> p["availability_c"] == Get(input, "availability"))
      && (!Truthy(Get(input, "availability")) ==> p["availability_c"] == Str("available"))
      && p["appliedAt_c"] == Str(clock.iso)
      && (Get(input, "skills").Arr? ==> p["skills_c"] == Str(JoinValues(Get(input, "skills").elems, ",")))
      && (!Get(input, "skills").Arr? ==> p["skills_c"] == Get(input, "skills"))
  {
  }

  /** `create`: sends the create payload, then reconciles the response. */
  method Create(input: Fields, clock: Clock, resp: MutationResponse) returns (sent: Payload, r: Outcome<Option<Candidate>>)
    ensures sent == CreatePayload(input, clock)
    ensures r == Settle(Verdict(resp, ErrorMessage), FromRow)
  {
    sent := CreatePayload(input, clock);
    var v := Reconcile(resp, ErrorMessage);
    r := Settle(v, FromRow);
  }

  /** The updatable fields, their columns and encodings. */
  const UpdateRules: seq<Rule> := [
    Rule("name", "Name", AsIs),
    Rule("email", "email_c", AsIs),
    Rule("phone", "phone_c", AsIs),
    Rule("location", "location_c", AsIs),
    Rule("currentJobTitle", "currentJobTitle_c", AsIs),
    Rule("position", "position_c", AsIs),
    Rule("status", "status_c", AsIs),
    Rule("appliedAt", "appliedAt_c", AsIs),
    Rule("experienceLevel", "experienceLevel_c", AsIs),
    Rule("skills", "skills_c", JoinedList),
    Rule("resumeSummary", "resumeSummary_c", AsIs),
    Rule("availability", "availability_c", AsIs)
  ]

  /** The fixed part of every update payload. */
  function UpdateBase(id: Value, host: Host): Payload {
    map["Id" := host.parseInt(id)]
  }

  /** The entries of the update table, in order. */
  lemma UpdateRulesAt()
    ensures |UpdateRules| == 12
    ensures UpdateRules[0] == Rule("name", "Name", AsIs)
    ensures UpdateRules[1] == Rule("email", "email_c", AsIs)
    ensures UpdateRules[2] == Rule("phone", "phone_c", AsIs)
    ensures UpdateRules[3] == Rule("location", "location_c", AsIs)
    ensures UpdateRules[4] == Rule("currentJobTitle", "currentJobTitle_c", AsIs)
    ensures UpdateRules[5] == Rule("position", "position_c", AsIs)
    ensures UpdateRules[6] == Rule("status", "status_c", AsIs)
    ensures UpdateRules[7] == Rule("appliedAt", "appliedAt_c", AsIs)
    ensures UpdateRules[8] == Rule("experienceLevel", "experienceLevel_c", AsIs)
    ensures UpdateRules[9] == Rule("skills", "skills_c", JoinedList)
    ensures UpdateRules[10] == Rule("resumeSummary", "resumeSummary_c", AsIs)
    ensures UpdateRules[11] == Rule("availability", "availability_c", AsIs)
  {
  }

  /** The update table names each column once and never `Id`. */
  lemma UpdateRulesDistinct(id: Value, host: Host)
    ensures Distinct(UpdateBase(id, host), UpdateRules)
  {
  }

  /** Every field of the update table can be encoded (none is trimmed). */
  lemma UpdateRulesEncodable(input: Fields, host: Host)
    ensures Encodable(input, UpdateRules, host)
  {
    assert forall i :: 0 <= i < |UpdateRules| ==> UpdateRules[i].encoding != Trimmed;
    UntrimmedEncodable(input, UpdateRules, host);
  }

  /** The record `update` sends: `Id` plus exactly the defined fields, renamed. */
  method UpdatePayload(id: Value, input: Fields, host: Host) returns (p: Payload)
    ensures p == Patch(UpdateBase(id, host), input, UpdateRules, host)
  {
    ghost var base, rules := UpdateBase(id, host), UpdateRules;
    UpdateRulesAt();
    p := map["Id" := host.parseInt(id)];
    p := AssignContact(p, input, base, host);
    p := AssignIf(p, input, "status", "status_c", Get(input, "status"), base, rules, 6, host);
    p := AssignIf(p, input, "appliedAt", "appliedAt_c", Get(input, "appliedAt"), base, rules, 7, host);
    p := AssignIf(p, input, "experienceLevel", "experienceLevel_c", Get(input, "experienceLevel"), base, rules, 8, host);
    p := AssignIf(p, input, "skills", "skills_c", JoinIfArray(Get(input, "skills")), base, rules, 9, host);
    p := AssignIf(p, input, "resumeSummary", "resumeSummary_c", Get(input, "resumeSummary"), base, rules, 10, host);
    p := AssignIf(p, input, "availability", "availability_c", Get(input, "availability"), base, rules, 11, host);
  }

  /** The first six statements of the update builder: name and contact fields. */
  method AssignContact(p0: Payload, input: Fields, ghost base: Payload, ghost host: Host) returns (p: Payload)
    requires p0 == base
    ensures p == PatchUpTo(base, input, UpdateRules, 6, host)
  {
    ghost var rules := UpdateRules;
    UpdateRulesAt();
    p := AssignIf(p0, input, "name", "Name", Get(input, "name"), base, rules, 0, host);
    p := AssignIf(p, input, "email", "email_c", Get(input, "email"), base, rules, 1, host);
    p := AssignIf(p, input, "phone", "phone_c", Get(input, "phone"), base, rules, 2, host);
    p := AssignIf(p, input, "location", "location_c", Get(input, "location"), base, rules, 3, host);
    p := AssignIf(p, input, "currentJobTitle", "currentJobTitle_c", Get(input, "currentJobTitle"), base, rules, 4, host);
    p := AssignIf(p, input, "position", "position_c", Get(input, "position"), base, rules, 5, host);
  }

  /** `update`: sends the partial-update payload, then reconciles the response. */
  method Update(id: Value, input: Fields, host: Host, resp: MutationResponse) returns (sent: Payload, r: Outcome<Option<Candidate>>)
    ensures sent == Patch(UpdateBase(id, host), input, UpdateRules, host)
    ensures r == Settle(Verdict(resp, ErrorMessage), FromRow)
  {
    sent := UpdatePayload(id, input, host);
    var v := Reconcile(resp, ErrorMessage);
    r := Settle(v, FromRow);
  }

  /** An update sends `Id` and exactly the fields the caller defined, each under
      its column (skills comma-joined); no other column is written. */
  lemma UpdateSendsOnly(id: Value, input: Fields, host: Host)
    ensures SendsOnly(Patch(UpdateBase(id, host), input, UpdateRules, host), UpdateBase(id, host), input, UpdateRules, host)
  {
    UpdateRulesDistinct(id, host);
    UpdateRulesEncodable(input, host);
    PatchSendsOnly(UpdateBase(id, host), input, UpdateRules, host);
  }
}
