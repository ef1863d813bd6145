/**
 * The application adapter (`application_c` collection): the interview column
 * codec, the create, status and partial-update payloads, the duplicate check,
 * interview scheduling and the upcoming-interview listing.
 */
module Applications {
  import opened Js
  import opened Adapter

  // ---------------------------------------------------------------------------
  // The interview column: JSON text, or plain notes when it does not parse.
  // ---------------------------------------------------------------------------

  /** The interview column read back: the parsed interview, or the raw column
      kept as notes. */
  datatype Decoded = Decoded(interview: Value, interviewNotes: Value)

  /** Reading the interview column: an empty or missing column is no interview
      and no notes; text that parses is the interview; text that does not parse
      is kept verbatim as notes. */
  function DecodeInterview(v: Value, host: Host): (d: Decoded)
    ensures !Truthy(v) ==> d == Decoded(Null, Str(""))
    ensures d.interviewNotes != Str("") <==> Truthy(v) && host.parse(ToString(v)).None?
    ensures d.interviewNotes != Str("") ==> d == Decoded(Null, v)
    ensures Truthy(v) && host.parse(ToString(v)).Some? ==> d.interview == host.parse(ToString(v)).value
  {
    if !Truthy(v) then Decoded(Null, Str(""))
    else match host.parse(ToString(v))
      case Some(x) => Decoded(x, Str(""))
      case None => Decoded(Null, v)
  }

  /** An interview written as JSON text reads back as the same interview,
      provided the JSON codec round-trips it. */
  lemma InterviewRoundTrip(x: Value, host: Host)
    requires !x.Str? && host.parse(host.stringify(x)) == Some(x) && host.stringify(x) != ""
    ensures Encode(JsonText, x, host).Some?
    ensures DecodeInterview(Encode(JsonText, x, host).value, host) == Decoded(x, Str(""))
  {
  }

  /** Text that is not JSON is written as is and reads back as notes. */
  lemma PlainTextRoundTrip(t: string, host: Host)
    requires t != "" && host.parse(t).None?
    ensures Encode(JsonText, Str(t), host) == Some(Str(t))
    ensures DecodeInterview(Str(t), host) == Decoded(Null, Str(t))
  {
  }

  // ---------------------------------------------------------------------------
  // Storage shape to domain shape.
  // ---------------------------------------------------------------------------

  /** An application in domain shape, with its interview decoded. */
  datatype Application = Application(
    id: Value,
    jobId: Value,
    candidateId: Value,
    appliedAt: Value,
    status: Value,
    notes: Value,
    interview: Value,
    interviewNotes: Value)

  /** Storage shape to domain shape; never throws, since a parse failure is caught. */
  function FromRow(row: Row, host: Host): (a: Application)
    ensures Truthy(Get(row, "notes_c")) ==> a.notes == Get(row, "notes_c")
    ensures !Truthy(Get(row, "notes_c")) ==> a.notes == Str("")
    ensures a.interviewNotes == Str("") || a.interviewNotes == Get(row, "interview_c")
    ensures Decoded(a.interview, a.interviewNotes) == DecodeInterview(Get(row, "interview_c"), host)
  {
    var d := DecodeInterview(Get(row, "interview_c"), host);
    Application(
      id := Get(row, "Id"),
      jobId := Get(row, "jobId_c"),
      candidateId := Get(row, "candidateId_c"),
      appliedAt := Get(row, "appliedAt_c"),
      status := Get(row, "status_c"),
      notes := Or(Get(row, "notes_c"), Str("")),
      interview := d.interview,
      interviewNotes := d.interviewNotes)
  }

  /** The row decoder handed to the generic read and reconciliation paths. */
  function Decode(host: Host): Row -> Outcome<Application> {
    row => Ok(FromRow(row, host))
  }

  /** `getAll`: every row of a successful response, in order; an empty list otherwise. */
  function GetAll(resp: FetchResponse, host: Host): (apps: seq<Application>)
    ensures !resp.success || resp.data.None? ==> apps == []
    ensures resp.success && resp.data.Some? ==>
      |apps| == |resp.data.value| && forall i :: 0 <= i < |apps| ==> apps[i] == FromRow(resp.data.value[i], host)
  {
    var apps := ListAll(resp, Decode(host));
    if resp.success && resp.data.Some? then
      assert forall i :: 0 <= i < |resp.data.value| ==> Decode(host)(resp.data.value[i]).Ok?;
      apps
    else apps
  }

  /** `getById`: null when the response or its data is missing. */
  function GetById(resp: Option<ByIdResponse>, host: Host): (a: Option<Application>)
    ensures a.Some? <==> resp.Some? && resp.value.data.Some?
    ensures a.Some? ==> a.value == FromRow(resp.value.data.value, host)
  {
    FindOne(resp, Decode(host))
  }

  /** What `create` and `updateStatus` return: the application without its interview. */
  datatype Summary = Summary(id: Value, jobId: Value, candidateId: Value, appliedAt: Value, status: Value, notes: Value)

  function SummaryOf(row: Row): (s: Summary)
    ensures Truthy(Get(row, "notes_c")) ==> s.notes == Get(row, "notes_c")
    ensures !Truthy(Get(row, "notes_c")) ==> s.notes == Str("")
  {
    Summary(Get(row, "Id"), Get(row, "jobId_c"), Get(row, "candidateId_c"), Get(row, "appliedAt_c"),
      Get(row, "status_c"), Or(Get(row, "notes_c"), Str("")))
  }

  function Summarize(row: Row): Outcome<Summary> {
    Ok(SummaryOf(row))
  }

  // ---------------------------------------------------------------------------
  // create and updateStatus.
  // ---------------------------------------------------------------------------

  /** The record `create` sends. */
  function CreatePayload(input: Fields, clock: Clock, host: Host): Payload {
    map[
      "Name" := Or(Get(input, "Name"), Str("Application " + ToString(Num(clock.millis)))),
      "jobId_c" := host.parseInt(Get(input, "jobId")),
      "candidateId_c" := host.parseInt(Get(input, "candidateId")),
      "appliedAt_c" := Str(clock.iso),
      "status_c" := Str("applied"),
      "notes_c" := Or(Get(input, "notes"), Str(""))
    ]
  }

  /** Only `Name`, `jobId`, `candidateId` and `notes` of the input reach the
      create payload: in particular a status given by the caller is ignored. */
  lemma CreateIgnoresOtherFields(input: Fields, clock: Clock, host: Host, k: string, v: Value)
    requires k != "Name" && k != "jobId" && k != "candidateId" && k != "notes"
    ensures CreatePayload(input[k := v], clock, host) == CreatePayload(input, clock, host)
  {
    assert Get(input[k := v], "Name") == Get(input, "Name");
    assert Get(input[k := v], "jobId") == Get(input, "jobId");
    assert Get(input[k := v], "candidateId") == Get(input, "candidateId");
    assert Get(input[k := v], "notes") == Get(input, "notes");
  }

  /** A created application is always named: the caller's name, else a generated one. */
  lemma CreateAlwaysNamed(input: Fields, clock: Clock, host: Host)
    ensures "Name" in CreatePayload(input, clock, host) && Truthy(CreatePayload(input, clock, host)["Name"])
  {
  }

  /** Create, then read back: the record stored from the create payload (with
      the `Id` the store assigns) summarises to the parsed ids, the call time,
      status "applied" and the caller's notes or "". */
  lemma CreateThenRead(input: Fields, clock: Clock, host: Host, id: Value)
    ensures SummaryOf(CreatePayload(input, clock, host)["Id" := id]) == Summary(
      id, host.parseInt(Get(input, "jobId")), host.parseInt(Get(input, "candidateId")),
      Str(clock.iso), Str("applied"), Or(Get(input, "notes"), Str("")))
  {
    var row := CreatePayload(input, clock, host)["Id" := id];
    assert "notes_c" in row && row["notes_c"] == Or(Get(input, "notes"), Str(""));
  }

  /** `create`: sends the create payload, then reconciles the response. */
  method Create(input: Fields, clock: Clock, host: Host, resp: MutationResponse)
    returns (sent: Payload, r: Outcome<Option<Summary>>)
    ensures sent == CreatePayload(input, clock, host)
    ensures r == Settle(Verdict(resp, ErrorMessage), Summarize)
  {
    sent := CreatePayload(input, clock, host);
    var v := Reconcile(resp, ErrorMessage);
    r := Settle(v, Summarize);
  }

  /** The record `updateStatus` sends. */
  function StatusPayload(id: Value, status: Value, host: Host): Payload {
    map["Id" := host.parseInt(id), "status_c" := status]
  }

  /** `updateStatus`: sends the status payload, then reconciles the response. */
  method UpdateStatus(id: Value, status: Value, host: Host, resp: MutationResponse)
    returns (sent: Payload, r: Outcome<Option<Summary>>)
    ensures sent == StatusPayload(id, status, host)
    ensures r == Settle(Verdict(resp, ErrorMessage), Summarize)
  {
    sent := StatusPayload(id, status, host);
    var v := Reconcile(resp, ErrorMessage);
    r := Settle(v, Summarize);
  }

  /** A status change is the general partial update with only `status_c` defined. */
  lemma StatusUpdateIsUpdate(id: Value, status: Value, host: Host)
    requires status != Undefined
    ensures StatusPayload(id, status, host) == Patch(UpdateBase(id, host), map["status_c" := status], UpdateRules, host)
  {
    var input := map["status_c" := status];
    var base := UpdateBase(id, host);
    UpdateRulesAt();
    assert PatchUpTo(base, input, UpdateRules, 1, host) == base;
    assert PatchUpTo(base, input, UpdateRules, 2, host) == base;
    assert PatchUpTo(base, input, UpdateRules, 3, host) == base;
    assert PatchUpTo(base, input, UpdateRules, 4, host) == base["status_c" := status];
    assert PatchUpTo(base, input, UpdateRules, 5, host) == base["status_c" := status];
    assert PatchUpTo(base, input, UpdateRules, 6, host) == base["status_c" := status];
  }

  // ---------------------------------------------------------------------------
  // update.
  // ---------------------------------------------------------------------------

  /** The updatable fields: the caller passes storage names here. */
  const UpdateRules: seq<Rule> := [
    Rule("jobId_c", "jobId_c", ParsedInt),
    Rule("candidateId_c", "candidateId_c", ParsedInt),
    Rule("appliedAt_c", "appliedAt_c", AsIs),
    Rule("status_c", "status_c", AsIs),
    Rule("notes_c", "notes_c", AsIs),
    Rule("interview_c", "interview_c", JsonText)
  ]

  function UpdateBase(id: Value, host: Host): Payload {
    map["Id" := host.parseInt(id)]
  }

  lemma UpdateRulesAt()
    ensures |UpdateRules| == 6
    ensures UpdateRules[0] == Rule("jobId_c", "jobId_c", ParsedInt)
    ensures UpdateRules[1] == Rule("candidateId_c", "candidateId_c", ParsedInt)
    ensures UpdateRules[2] == Rule("appliedAt_c", "appliedAt_c", AsIs)
    ensures UpdateRules[3] == Rule("status_c", "status_c", AsIs)
    ensures UpdateRules[4] == Rule("notes_c", "notes_c", AsIs)
    ensures UpdateRules[5] == Rule("interview_c", "interview_c", JsonText)
  {
  }

  lemma UpdateRulesDistinct(id: Value, host: Host)
    ensures Distinct(UpdateBase(id, host), UpdateRules)
  {
  }

  lemma UpdateRulesEncodable(input: Fields, host: Host)
    ensures Encodable(input, UpdateRules, host)
  {
    assert forall i :: 0 <= i < |UpdateRules| ==> UpdateRules[i].encoding != Trimmed;
    UntrimmedEncodable(input, UpdateRules, host);
  }

  /** The record `update` sends: `Id` plus exactly the defined fields; the
      interview is passed through when it is text and JSON-encoded otherwise. */
  method UpdatePayload(id: Value, input: Fields, host: Host) returns (p: Payload)
    ensures p == Patch(UpdateBase(id, host), input, UpdateRules, host)
  {
    ghost var base, rules := UpdateBase(id, host), UpdateRules;
    UpdateRulesAt();
    p := map["Id" := host.parseInt(id)];
    p := AssignIf(p, input, "jobId_c", "jobId_c", host.parseInt(Get(input, "jobId_c")), base, rules, 0, host);
    p := AssignIf(p, input, "candidateId_c", "candidateId_c", host.parseInt(Get(input, "candidateId_c")), base, rules, 1, host);
    p := AssignIf(p, input, "appliedAt_c", "appliedAt_c", Get(input, "appliedAt_c"), base, rules, 2, host);
    p := AssignIf(p, input, "status_c", "status_c", Get(input, "status_c"), base, rules, 3, host);
    p := AssignIf(p, input, "notes_c", "notes_c", Get(input, "notes_c"), base, rules, 4, host);
    var interview := Get(input, "interview_c");
    p := AssignIf(p, input, "interview_c", "interview_c",
      if interview.Str? then interview else Str(host.stringify(interview)), base, rules, 5, host);
  }

  /** `update`: sends the partial-update payload, then reconciles the response. */
  method Update(id: Value, input: Fields, host: Host, resp: MutationResponse)
    returns (sent: Payload, r: Outcome<Option<Application>>)
    ensures sent == Patch(UpdateBase(id, host), input, UpdateRules, host)
    ensures r == Settle(Verdict(resp, ErrorMessage), Decode(host))
  {
    sent := UpdatePayload(id, input, host);
    var v := Reconcile(resp, ErrorMessage);
    r := Settle(v, Decode(host));
  }

  /** An update sends `Id` and exactly the fields the caller defined; no other column is written. */
  lemma UpdateSendsOnly(id: Value, input: Fields, host: Host)
    ensures SendsOnly(Patch(UpdateBase(id, host), input, UpdateRules, host), UpdateBase(id, host), input, UpdateRules, host)
  {
    UpdateRulesDistinct(id, host);
    UpdateRulesEncodable(input, host);
    PatchSendsOnly(UpdateBase(id, host), input, UpdateRules, host);
  }

  /** An interview object given to `update` is read back unchanged from the stored record. */
  lemma UpdatedInterviewReadsBack(stored: Row, id: Value, input: Fields, host: Host)
    requires var x := Get(input, "interview_c");
      x != Undefined && !x.Str? && host.parse(host.stringify(x)) == Some(x) && host.stringify(x) != ""
    ensures var a := FromRow(Apply(stored, Patch(UpdateBase(id, host), input, UpdateRules, host)), host);
      a.interview == Get(input, "interview_c") && a.interviewNotes == Str("")
  {
    var x := Get(input, "interview_c");
    var p := Patch(UpdateBase(id, host), input, UpdateRules, host);
    UpdateSendsOnly(id, input, host);
    PartialUpdateIsolation(stored, p, UpdateBase(id, host), input, UpdateRules, host);
    UpdateRulesAt();
    assert UpdateRules[5] in UpdateRules;
    InterviewRoundTrip(x, host);
  }

  // ---------------------------------------------------------------------------
  // checkApplication: has this candidate already applied to this job?
  // ---------------------------------------------------------------------------

  /** The query `checkApplication` sends: both ids parsed as integers. */
  function CheckQuery(jobId: Value, candidateId: Value, host: Host): seq<Condition> {
    [EqualTo("jobId_c", host.parseInt(jobId)), EqualTo("candidateId_c", host.parseInt(candidateId))]
  }

  /** The ids of the first matching application. */
  datatype Match = Match(id: Value, jobId: Value, candidateId: Value)

  /** `checkApplication`: the first returned row, or null when the call failed or
      found nothing. */
  function CheckApplication(resp: FetchResponse): (m: Option<Match>)
    ensures m.Some? <==> resp.success && resp.data.Some? && |resp.data.value| > 0
    ensures m.Some? ==> m.value == Match(Get(resp.data.value[0], "Id"),
      Get(resp.data.value[0], "jobId_c"), Get(resp.data.value[0], "candidateId_c"))
  {
    if !resp.success || resp.data.None? || |resp.data.value| == 0 then None
    else
      var row := resp.data.value[0];
      Some(Match(Get(row, "Id"), Get(row, "jobId_c"), Get(row, "candidateId_c")))
  }

  /** Against a store that honours the query, `checkApplication` finds a match
      exactly when the table holds an application of that candidate to that
      job, and the match carries the two parsed ids. */
  lemma CheckFindsPair(table: seq<Row>, message: Value, jobId: Value, candidateId: Value, host: Host)
    ensures var m := CheckApplication(FetchResponse(true, message, Some(Select(table, CheckQuery(jobId, candidateId, host)))));
      && (m.Some? <==>
            exists row :: row in table && Get(row, "jobId_c") == host.parseInt(jobId) && Get(row, "candidateId_c") == host.parseInt(candidateId))
      && (m.Some? ==> m.value.jobId == host.parseInt(jobId) && m.value.candidateId == host.parseInt(candidateId))
  {
    var query := CheckQuery(jobId, candidateId, host);
    var rows := Select(table, query);
    if rows != [] {
      assert rows[0] in rows;
      assert Satisfies(rows[0], query);
      assert query[0] == EqualTo("jobId_c", host.parseInt(jobId));
      assert query[1] == EqualTo("candidateId_c", host.parseInt(candidateId));
    }
    if exists row :: row in table
        && Get(row, "jobId_c") == host.parseInt(jobId) && Get(row, "candidateId_c") == host.parseInt(candidateId) {
      var row :| row in table
        && Get(row, "jobId_c") == host.parseInt(jobId) && Get(row, "candidateId_c") == host.parseInt(candidateId);
      assert Satisfies(row, query);
      assert row in rows;
    }
  }

  // ---------------------------------------------------------------------------
  // scheduleInterview.
  // ---------------------------------------------------------------------------

  /** `JSON.stringify(data)`, which is `undefined` for `undefined`. */
  function InterviewJson(data: Value, host: Host): Value {
    if data == Undefined then Undefined else Str(host.stringify(data))
  }

  /** The record `scheduleInterview` sends. */
  function SchedulePayload(id: Value, data: Value, host: Host): Payload {
    map["Id" := host.parseInt(id), "interview_c" := InterviewJson(data, host), "status_c" := Str("interview_scheduled")]
  }

  /** Scheduling, then reading back: the stored record is marked as scheduled
      and holds the interview the caller gave. */
  lemma ScheduleThenRead(stored: Row, id: Value, data: Value, host: Host)
    requires data != Undefined && host.parse(host.stringify(data)) == Some(data) && host.stringify(data) != ""
    ensures var a := FromRow(Apply(stored, SchedulePayload(id, data, host)), host);
      a.status == Str("interview_scheduled") && a.interview == data && a.interviewNotes == Str("")
  {
    var row := Apply(stored, SchedulePayload(id, data, host));
    assert Get(row, "interview_c") == Str(host.stringify(data));
    assert Get(row, "status_c") == Str("interview_scheduled");
  }

  /** The response handling of `scheduleInterview` as written: the first
      result's data is decoded whether or not that record succeeded, so a failed
      record never makes it throw its own error. */
  function ScheduleAsWritten(resp: MutationResponse, host: Host): (r: Outcome<Option<Application>>)
    ensures r.Threw? ==> r.fault == Error(ErrorText(resp.message)) || r.fault == TypeError
    ensures !resp.success ==> r == Threw(Error(ErrorText(resp.message)))
    ensures resp.success && (resp.results.None? || |resp.results.value| == 0) ==> r == Ok(None)
    ensures resp.success && resp.results.Some? && |resp.results.value| > 0 && resp.results.value[0].data.None?
      ==> r == Threw(TypeError)
    ensures resp.success && resp.results.Some? && |resp.results.value| > 0 && resp.results.value[0].data.Some?
      ==> r == Ok(Some(FromRow(resp.results.value[0].data.value, host)))
  {
    if !resp.success then Threw(Error(ErrorText(resp.message)))
    else match resp.results
      case None => Ok(None)
      case Some(rs) =>
        if |rs| == 0 then Ok(None)
        else match rs[0].data
          case None => Threw(TypeError)
          case Some(row) => Ok(Some(FromRow(row, host)))
  }

  /** Two batches on which the code as written and the reconciliation rule of
      every other mutation part ways: a rejected record without data makes it
      throw a TypeError instead of the store's message, and a rejected record
      that echoes its data is reported as scheduled. */
  lemma ScheduleIgnoresRejection(host: Host, row: Row)
    ensures var rejected := MutationResponse(true, Undefined,
        Some([RecordResult(false, None, Undefined, Str("Record not found"))]));
      && ScheduleAsWritten(rejected, host) == Threw(TypeError)
      && Settle(Verdict(rejected, ErrorMessage), Decode(host)) == Threw(Error("Record not found"))
    ensures var echoed := MutationResponse(true, Undefined,
        Some([RecordResult(false, Some(row), Undefined, Str("Invalid interview"))]));
      && ScheduleAsWritten(echoed, host) == Ok(Some(FromRow(row, host)))
      && Settle(Verdict(echoed, ErrorMessage), Decode(host)) == Threw(Error("Invalid interview"))
  {
    var rec := RecordResult(false, None, Undefined, Str("Record not found"));
    assert Failed([rec]) == [rec];
    var rec2 := RecordResult(false, Some(row), Undefined, Str("Invalid interview"));
    assert Failed([rec2]) == [rec2];
  }

  /** `scheduleInterview`, reconciled like every other mutation: a rejected
      record throws its field error or message, and only a successful record is
      decoded. */
  method ScheduleInterview(id: Value, data: Value, host: Host, resp: MutationResponse)
    returns (sent: Payload, r: Outcome<Option<Application>>)
    ensures sent == SchedulePayload(id, data, host)
    ensures r == Settle(Verdict(resp, ErrorMessage), Decode(host))
  {
    sent := SchedulePayload(id, data, host);
    var v := Reconcile(resp, ErrorMessage);
    r := Settle(v, Decode(host));
  }

  // ---------------------------------------------------------------------------
  // getUpcomingInterviews: filter, decode, filter by time, sort.
  // ---------------------------------------------------------------------------

  /** A scheduled interview with its time value. */
  datatype Slot = Slot(row: Row, interview: Value, at: int)

  /** The `date`, a `T` and the `time` of an interview: the text its date-time is parsed from. */
  function DateTimeText(interview: Value): string {
    ToString(Prop(interview, "date")) + "T" + ToString(Prop(interview, "time"))
  }

  /** The interview of one row and its date-time, or None when the row is
      skipped: an empty column, text that does not parse, a parsed `null` (the
      property read throws), or a date and time that form an invalid date. */
  function SlotOf(row: Row, host: Host): (s: Option<Slot>)
    ensures s.Some? ==>
      && Truthy(Get(row, "interview_c")) && s.value.row == row && s.value.interview != Null
      && host.parse(ToString(Get(row, "interview_c"))) == Some(s.value.interview)
      && host.parseDate(DateTimeText(s.value.interview)) == Some(s.value.at)
    ensures Truthy(Get(row, "interview_c")) ==>
      var parsed := host.parse(ToString(Get(row, "interview_c")));
      parsed.Some? && parsed.value != Null && host.parseDate(DateTimeText(parsed.value)).Some? ==>
        s == Some(Slot(row, parsed.value, host.parseDate(DateTimeText(parsed.value)).value))
  {
    var v := Get(row, "interview_c");
    if !Truthy(v) then None
    else match host.parse(ToString(v))
      case None => None
      case Some(x) =>
        if x == Null then None
        else match host.parseDate(DateTimeText(x))
          case None => None
          case Some(t) => Some(Slot(row, x, t))
  }

  /** The rows kept, in response order: those with an interview at or after `now`. */
  function Pending(rows: seq<Row>, host: Host, now: int): seq<Slot> {
    if rows == [] then []
    else
      var head := match SlotOf(rows[0], host)
        case Some(s) => if s.at >= now then [s] else []
        case None => [];
      head + Pending(rows[1..], host, now)
  }

  lemma {:induction false} PendingMembers(rows: seq<Row>, host: Host, now: int)
    ensures forall s :: s in Pending(rows, host, now) <==>
      s.at >= now && exists i :: 0 <= i < |rows| && SlotOf(rows[i], host) == Some(s)
  {
    if rows != [] {
      PendingMembers(rows[1..], host, now);
      forall s: Slot | s.at >= now && exists i :: 0 <= i < |rows| && SlotOf(rows[i], host) == Some(s)
        ensures s in Pending(rows, host, now)
      {
        var i :| 0 <= i < |rows| && SlotOf(rows[i], host) == Some(s);
        if i > 0 {
          assert rows[1..][i - 1] == rows[i];
        }
      }
      forall s: Slot | s in Pending(rows[1..], host, now)
        ensures exists i :: 0 <= i < |rows| && SlotOf(rows[i], host) == Some(s)
      {
        var i :| 0 <= i < |rows[1..]| && SlotOf(rows[1..][i], host) == Some(s);
        assert rows[i + 1] == rows[1..][i];
      }
    }
  }

  /** Ascending by date-time. */
  predicate Ascending(xs: seq<Slot>) {
    forall i, j :: 0 <= i < j < |xs| ==> xs[i].at <= xs[j].at
  }

  /** Inserting before the first slot that is not earlier: an earlier element of
      the input stays ahead of later ones with the same time. */
  function Insert(s: Slot, xs: seq<Slot>): seq<Slot> {
    if xs == [] then [s]
    else if s.at <= xs[0].at then [s] + xs
    else [xs[0]] + Insert(s, xs[1..])
  }

  /** `sort((a, b) => a.interviewDateTime - b.interviewDateTime)`, a stable sort. */
  function SortByTime(xs: seq<Slot>): seq<Slot> {
    if xs == [] then [] else Insert(xs[0], SortByTime(xs[1..]))
  }

  lemma {:induction false} InsertKeeps(s: Slot, xs: seq<Slot>)
    ensures multiset(Insert(s, xs)) == multiset(xs) + multiset{s}
  {
    if xs != [] && s.at > xs[0].at {
      InsertKeeps(s, xs[1..]);
      assert xs == [xs[0]] + xs[1..];
    }
  }

  lemma {:induction false} InsertAscending(s: Slot, xs: seq<Slot>)
    requires Ascending(xs)
    ensures Ascending(Insert(s, xs))
    ensures Insert(s, xs) != [] && (Insert(s, xs)[0] == s || (xs != [] && Insert(s, xs)[0] == xs[0]))
  {
    if xs != [] && s.at > xs[0].at {
      InsertAscending(s, xs[1..]);
      var r := Insert(s, xs[1..]);
      assert Insert(s, xs) == [xs[0]] + r;
      forall j | 0 <= j < |r|
        ensures xs[0].at <= r[j].at
      {
        InsertKeeps(s, xs[1..]);
        assert r[j] in multiset(r);
        assert r[j] == s || r[j] in multiset(xs[1..]);
        if r[j] != s {
          var k :| 0 <= k < |xs[1..]| && xs[1..][k] == r[j];
          assert xs[k + 1] == r[j];
        }
      }
    }
  }

  lemma {:induction false} SortAscending(xs: seq<Slot>)
    ensures Ascending(SortByTime(xs))
    ensures multiset(SortByTime(xs)) == multiset(xs)
  {
    if xs != [] {
      SortAscending(xs[1..]);
      InsertAscending(xs[0], SortByTime(xs[1..]));
      InsertKeeps(xs[0], SortByTime(xs[1..]));
      assert xs == [xs[0]] + xs[1..];
    }
  }

  /** The slots at time `t`, in order. */
  function AtTime(xs: seq<Slot>, t: int): seq<Slot> {
    if xs == [] then []
    else (if xs[0].at == t then [xs[0]] else []) + AtTime(xs[1..], t)
  }

  lemma {:induction false} InsertAtTime(s: Slot, xs: seq<Slot>, t: int)
    ensures AtTime(Insert(s, xs), t) == (if s.at == t then [s] else []) + AtTime(xs, t)
  {
    if xs != [] {
      if s.at <= xs[0].at {
        assert ([s] + xs)[1..] == xs;
      } else {
        InsertAtTime(s, xs[1..], t);
        assert ([xs[0]] + Insert(s, xs[1..]))[1..] == Insert(s, xs[1..]);
      }
    }
  }

  /** The sort is stable: slots with equal times keep their response order. */
  lemma {:induction false} SortStable(xs: seq<Slot>, t: int)
    ensures AtTime(SortByTime(xs), t) == AtTime(xs, t)
  {
    if xs != [] {
      SortStable(xs[1..], t);
      InsertAtTime(xs[0], SortByTime(xs[1..]), t);
    }
  }

  /** One listed upcoming interview. */
  datatype Upcoming = Upcoming(id: Value, jobId: Value, candidateId: Value, status: Value, interview: Value)

  function Present(s: Slot): Upcoming {
    Upcoming(Get(s.row, "Id"), Get(s.row, "jobId_c"), Get(s.row, "candidateId_c"), Get(s.row, "status_c"), s.interview)
  }

  /** The interviews listed, with their times: what the listing is made of. */
  function UpcomingSlots(resp: FetchResponse, host: Host, clock: Clock): seq<Slot> {
    if !resp.success || resp.data.None? then [] else SortByTime(Pending(resp.data.value, host, clock.millis))
  }

  /** `getUpcomingInterviews` */
  function UpcomingInterviews(resp: FetchResponse, host: Host, clock: Clock): (r: seq<Upcoming>)
    ensures |r| == |UpcomingSlots(resp, host, clock)|
    ensures forall i :: 0 <= i < |r| ==> r[i] == Present(UpcomingSlots(resp, host, clock)[i])
  {
    var slots := UpcomingSlots(resp, host, clock);
    seq(|slots|, i requires 0 <= i < |slots| => Present(slots[i]))
  }

  /** The listing holds exactly the rows with a readable interview at or after
      the call time, each once per row, in ascending date-time order, rows with
      equal times in response order; a failed call lists nothing. */
  lemma UpcomingInterviewsSpec(resp: FetchResponse, host: Host, clock: Clock)
    ensures !resp.success || resp.data.None? ==> UpcomingInterviews(resp, host, clock) == []
    ensures Ascending(UpcomingSlots(resp, host, clock))
    ensures resp.success && resp.data.Some? ==>
      && multiset(UpcomingSlots(resp, host, clock)) == multiset(Pending(resp.data.value, host, clock.millis))
      && (forall t :: AtTime(UpcomingSlots(resp, host, clock), t) == AtTime(Pending(resp.data.value, host, clock.millis), t))
      && (forall s :: s in UpcomingSlots(resp, host, clock) <==>
            s.at >= clock.millis && exists i :: 0 <= i < |resp.data.value| && SlotOf(resp.data.value[i], host) == Some(s))
  {
    if resp.success && resp.data.Some? {
      var pending := Pending(resp.data.value, host, clock.millis);
      SortAscending(pending);
      PendingMembers(resp.data.value, host, clock.millis);
      forall t
        ensures AtTime(SortByTime(pending), t) == AtTime(pending, t)
      {
        SortStable(pending, t);
      }
      forall s
        ensures s in SortByTime(pending) <==> s in pending
      {
        assert s in SortByTime(pending) <==> s in multiset(SortByTime(pending));
      }
    }
  }
}
