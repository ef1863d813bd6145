/**
 * The record-adapter pattern every service module repeats: the shapes of the
 * remote store's responses, the fail-soft read paths, the partial-update
 * payload discipline and the reconciliation of a mutation's per-record results.
 *
 * The remote store itself is not modelled: each operation receives the
 * response of its one remote call as a parameter.
 */
module Adapter {
  import opened Js
  import Text

  /** A record as the store returns it (storage-shape field names). */
  type Row = Fields

  /** A request record as the adapter builds it. */
  type Payload = Fields

  /** Response of `fetchRecords`; `data` is None when the store sent none (missing or null). */
  datatype FetchResponse = FetchResponse(success: bool, message: Value, data: Option<seq<Row>>)

  /** Response of `getRecordById`, whose `data` may be missing. */
  datatype ByIdResponse = ByIdResponse(data: Option<Row>)

  /** One record's outcome inside a create or update batch. */
  datatype RecordResult = RecordResult(success: bool, data: Option<Row>, errors: Value, message: Value)

  /** Response of `createRecord` / `updateRecord`. */
  datatype MutationResponse = MutationResponse(success: bool, message: Value, results: Option<seq<RecordResult>>)

  /** Response of `deleteRecord`. */
  datatype DeleteResponse = DeleteResponse(success: bool, message: Value)

  // ---------------------------------------------------------------------------
  // Read paths: failures degrade to an empty list or to null.
  // ---------------------------------------------------------------------------

  /** `rows.map(decode)`: the first row whose decoding throws aborts the whole map. */
  function DecodeAll<T>(rows: seq<Row>, decode: Row -> Outcome<T>): (r: Outcome<seq<T>>)
    ensures r.Ok? ==> |r.value| == |rows| && forall i :: 0 <= i < |rows| ==> decode(rows[i]) == Ok(r.value[i])
    ensures r.Threw? ==> exists i :: 0 <= i < |rows| && decode(rows[i]) == Threw(r.fault)
    ensures r.Threw? <==> exists i :: 0 <= i < |rows| && decode(rows[i]).Threw?
  {
    if rows == [] then Ok([])
    else match decode(rows[0])
      case Threw(f) => Threw(f)
      case Ok(x) =>
        match DecodeAll(rows[1..], decode)
        case Threw(f) => Threw(f)
        case Ok(xs) => Ok([x] + xs)
  }

  /** `getAll` (and `getByEntity`): an unsuccessful response, missing or empty data,
      or a row whose decoding throws all give the empty list; nothing is thrown. */
  function ListAll<T>(resp: FetchResponse, decode: Row -> Outcome<T>): (r: seq<T>)
    ensures r != [] ==> resp.success && resp.data.Some?
    ensures r != [] ==>
      (|r| == |resp.data.value| && forall i :: 0 <= i < |r| ==> decode(resp.data.value[i]) == Ok(r[i]))
    ensures resp.success && resp.data.Some? && (forall i :: 0 <= i < |resp.data.value| ==> decode(resp.data.value[i]).Ok?)
      ==> |r| == |resp.data.value|
  {
    if !resp.success then []
    else match resp.data
      case None => []
      case Some(rows) =>
        if |rows| == 0 then []
        else match DecodeAll(rows, decode)
          case Ok(xs) => xs
          case Threw(_) => []
  }

  /** One `EqualTo` condition of a `where` clause. */
  datatype Condition = EqualTo(field: string, value: Value)

  predicate Satisfies(row: Row, query: seq<Condition>) {
    forall i :: 0 <= i < |query| ==> Get(row, query[i].field) == query[i].value
  }

  /** The rows of a table that satisfy a query, in table order: what a store that
      honours the query answers. */
  function Select(table: seq<Row>, query: seq<Condition>): (rows: seq<Row>)
    ensures forall row :: row in rows <==> row in table && Satisfies(row, query)
  {
    if table == [] then []
    else (if Satisfies(table[0], query) then [table[0]] else []) + Select(table[1..], query)
  }

  /** `getById`: a missing response, missing data, or a record whose decoding
      throws give null; nothing is thrown. */
  function FindOne<T>(resp: Option<ByIdResponse>, decode: Row -> Outcome<T>): (r: Option<T>)
    ensures r.Some? <==> resp.Some? && resp.value.data.Some? && decode(resp.value.data.value).Ok?
    ensures r.Some? ==> decode(resp.value.data.value) == Ok(r.value)
  {
    match resp
    case None => None
    case Some(ByIdResponse(data)) =>
      match data
      case None => None
      case Some(row) =>
        match decode(row)
        case Ok(x) => Some(x)
        case Threw(_) => None
  }

  /** `delete`: true exactly when the store reports success, otherwise the
      store's message is thrown. */
  function Delete(resp: DeleteResponse): (r: Outcome<bool>)
    ensures r.Ok? <==> resp.success
    ensures r.Ok? ==> r.value
    ensures r.Threw? ==> r.fault == Error(ErrorText(resp.message))
  {
    if resp.success then Ok(true) else Threw(Error(ErrorText(resp.message)))
  }

  // ---------------------------------------------------------------------------
  // Mutation-result reconciliation.
  // ---------------------------------------------------------------------------

  /** How a field-level error renders after the label: as the error value
      itself (`${error}`) or as its `message` (`${error.message}`). */
  datatype Detail = WholeError | ErrorMessage

  /** The error thrown for one field error: `"<fieldLabel>: <detail>"`; a
      nullish entry makes the property read itself throw. */
  function FieldErrorFault(e: Value, detail: Detail): Fault {
    if e == Undefined || e == Null then TypeError
    else
      var shown := match detail
        case WholeError => ToString(e)
        case ErrorMessage => ToString(Prop(e, "message"));
      Error(ToString(Prop(e, "fieldLabel")) + ": " + shown)
  }

  /** As written in the application, candidate and job adapters, a field error
      is rendered with `${error}`: an error object renders as "[object Object]",
      so the thrown text never holds the error's own message. */
  lemma WholeErrorHidesMessage(e: Value)
    requires e.Obj?
    ensures FieldErrorFault(e, WholeError) == Error(ToString(Prop(e, "fieldLabel")) + ": [object Object]")
  {
  }

  /** A concrete instance: the store's "is required" on the Email field. */
  lemma RequiredEmailAsWritten()
    ensures var e := Obj(map["fieldLabel" := Str("Email"), "message" := Str("is required")]);
      && FieldErrorFault(e, WholeError) == Error("Email" + ": " + "[object Object]")
      && FieldErrorFault(e, ErrorMessage) == Error("Email" + ": " + "is required")
  {
    var e := Obj(map["fieldLabel" := Str("Email"), "message" := Str("is required")]);
    assert Prop(e, "fieldLabel") == Str("Email");
    assert Prop(e, "message") == Str("is required");
  }

  /** Rendering the message instead, as the note and client adapters do, the
      thrown text is the field label and the store's message. */
  lemma FieldErrorShowsMessage(fieldLabel: string, message: string)
    ensures FieldErrorFault(Obj(map["fieldLabel" := Str(fieldLabel), "message" := Str(message)]), ErrorMessage)
      == Error(fieldLabel + ": " + message)
  {
    var e := Obj(map["fieldLabel" := Str(fieldLabel), "message" := Str(message)]);
    assert Prop(e, "fieldLabel") == Str(fieldLabel);
    assert Prop(e, "message") == Str(message);
  }

  /** The record-level message, thrown only when it is truthy. */
  function MessageFault(rec: RecordResult): Option<Fault> {
    if Truthy(rec.message) then Some(Error(ErrorText(rec.message))) else None
  }

  /** What one failed record makes the adapter throw: its first field error, else
      its message; None when it has neither (the record is then skipped). */
  function RecordFault(rec: RecordResult, detail: Detail): Option<Fault> {
    match rec.errors
    case Undefined => MessageFault(rec)
    case Null => MessageFault(rec)
    case Arr(es) => if |es| > 0 then Some(FieldErrorFault(es[0], detail)) else MessageFault(rec)
    case _ => Some(TypeError)  // `errors.forEach` is not a function
  }

  /** `results.filter(r => !r.success)` */
  function Failed(rs: seq<RecordResult>): seq<RecordResult> {
    if rs == [] then []
    else (if rs[0].success then [] else [rs[0]]) + Failed(rs[1..])
  }

  /** `results.filter(r => r.success)` */
  function Succeeded(rs: seq<RecordResult>): seq<RecordResult> {
    if rs == [] then []
    else (if rs[0].success then [rs[0]] else []) + Succeeded(rs[1..])
  }

  /** The fault of the first record, in order, that has one. */
  function FirstFault(fs: seq<RecordResult>, detail: Detail): Option<Fault> {
    if fs == [] then None
    else if RecordFault(fs[0], detail).Some? then RecordFault(fs[0], detail)
    else FirstFault(fs[1..], detail)
  }

  /** The adapter's decision on a mutation response: throw, return nothing, or
      return the first successful record. */
  function Verdict(resp: MutationResponse, detail: Detail): Outcome<Option<RecordResult>> {
    if !resp.success then Threw(Error(ErrorText(resp.message)))
    else match resp.results
      case None => Ok(None)
      case Some(rs) =>
        match FirstFault(Failed(rs), detail)
        case Some(f) => Threw(f)
        case None =>
          var ok := Succeeded(rs);
          if |ok| > 0 then Ok(Some(ok[0])) else Ok(None)
  }

  /** The reconciliation loop of `create` and `update`. */
  method Reconcile(resp: MutationResponse, detail: Detail) returns (r: Outcome<Option<RecordResult>>)
    ensures r == Verdict(resp, detail)
  {
    if !resp.success {
      return Threw(Error(ErrorText(resp.message)));
    }
    if resp.results.None? {
      return Ok(None);
    }
    var rs := resp.results.value;
    var successful := Succeeded(rs);
    var failed := Failed(rs);
    var i := 0;
    while i < |failed|
      invariant 0 <= i <= |failed|
      invariant FirstFault(failed, detail) == FirstFault(failed[i..], detail)
    {
      var rec := failed[i];
      match rec.errors {
        case Undefined =>
        case Null =>
        case Arr(es) =>
          if |es| > 0 {
            return Threw(FieldErrorFault(es[0], detail));
          }
        case _ =>
          return Threw(TypeError);
      }
      if Truthy(rec.message) {
        return Threw(Error(ErrorText(rec.message)));
      }
      assert failed[i..][1..] == failed[i + 1..];
      i := i + 1;
    }
    if |successful| > 0 {
      return Ok(Some(successful[0]));
    }
    return Ok(None);
  }

  /** Turning the chosen record into a domain object: a success without data
      makes the property read throw. */
  function Settle<T>(v: Outcome<Option<RecordResult>>, decode: Row -> Outcome<T>): (r: Outcome<Option<T>>)
    ensures v.Threw? ==> r == Threw(v.fault)
    ensures v == Ok(None) ==> r == Ok(None)
    ensures v.Ok? && v.value.Some? && v.value.value.data.None? ==> r == Threw(TypeError)
    ensures v.Ok? && v.value.Some? && v.value.value.data.Some? ==>
      r == (match decode(v.value.value.data.value)
            case Ok(x) => Ok(Some(x))
            case Threw(f) => Threw(f))
    ensures r.Ok? && r.value.Some? ==>
      (v.Ok? && v.value.Some? && v.value.value.data.Some? && decode(v.value.value.data.value) == Ok(r.value.value))
  {
    match v
    case Threw(f) => Threw(f)
    case Ok(None) => Ok(None)
    case Ok(Some(rec)) =>
      match rec.data
      case None => Threw(TypeError)
      case Some(row) =>
        match decode(row)
        case Ok(x) => Ok(Some(x))
        case Threw(f) => Threw(f)
  }

  lemma {:induction false} FailedMembers(rs: seq<RecordResult>)
    ensures forall f :: f in Failed(rs) ==> f in rs && !f.success
    ensures forall i :: 0 <= i < |rs| && !rs[i].success ==> rs[i] in Failed(rs)
  {
    if rs != [] {
      FailedMembers(rs[1..]);
      forall i | 0 <= i < |rs| && !rs[i].success
        ensures rs[i] in Failed(rs)
      {
        if i > 0 {
          assert rs[i] == rs[1..][i - 1];
        }
      }
    }
  }

  /** The first fault among the failed records is the fault of the first failed
      record, in batch order, that has one. */
  lemma {:induction false} FirstFaultOfFailed(rs: seq<RecordResult>, detail: Detail)
    ensures FirstFault(Failed(rs), detail).None? <==>
      forall i :: 0 <= i < |rs| && !rs[i].success ==> RecordFault(rs[i], detail).None?
    ensures FirstFault(Failed(rs), detail).Some? ==>
      exists i :: 0 <= i < |rs| && !rs[i].success && RecordFault(rs[i], detail) == FirstFault(Failed(rs), detail)
        && forall j :: 0 <= j < i && !rs[j].success ==> RecordFault(rs[j], detail).None?
  {
    if rs != [] {
      FirstFaultOfFailed(rs[1..], detail);
      var tail := FirstFault(Failed(rs[1..]), detail);
      if !rs[0].success {
        assert Failed(rs) == [rs[0]] + Failed(rs[1..]);
        assert ([rs[0]] + Failed(rs[1..]))[1..] == Failed(rs[1..]);
      } else {
        assert Failed(rs) == Failed(rs[1..]);
      }
      if FirstFault(Failed(rs), detail).Some? && !(!rs[0].success && RecordFault(rs[0], detail).Some?) {
        var i :| 0 <= i < |rs[1..]| && !rs[1..][i].success && RecordFault(rs[1..][i], detail) == tail
          && forall j :: 0 <= j < i && !rs[1..][j].success ==> RecordFault(rs[1..][j], detail).None?;
        assert rs[i + 1] == rs[1..][i];
        forall j | 0 <= j < i + 1 && !rs[j].success
          ensures RecordFault(rs[j], detail).None?
        {
          if j > 0 {
            assert rs[j] == rs[1..][j - 1];
          }
        }
      }
      if FirstFault(Failed(rs), detail).None? {
        forall i | 0 <= i < |rs| && !rs[i].success
          ensures RecordFault(rs[i], detail).None?
        {
          if i > 0 {
            assert rs[i] == rs[1..][i - 1];
          }
        }
      }
      if forall i :: 0 <= i < |rs| && !rs[i].success ==> RecordFault(rs[i], detail).None? {
        forall i | 0 <= i < |rs[1..]| && !rs[1..][i].success
          ensures RecordFault(rs[1..][i], detail).None?
        {
          assert rs[1..][i] == rs[i + 1];
        }
      }
    }
  }

  /** The first successful record is the first record, in batch order, that succeeded. */
  lemma {:induction false} FirstSucceeded(rs: seq<RecordResult>)
    ensures |Succeeded(rs)| > 0 <==> exists i :: 0 <= i < |rs| && rs[i].success
    ensures |Succeeded(rs)| > 0 ==>
      exists i :: 0 <= i < |rs| && rs[i].success && Succeeded(rs)[0] == rs[i]
        && forall j :: 0 <= j < i ==> !rs[j].success
  {
    if rs != [] {
      FirstSucceeded(rs[1..]);
      if rs[0].success {
        assert Succeeded(rs)[0] == rs[0];
      } else {
        assert Succeeded(rs) == Succeeded(rs[1..]);
        if |Succeeded(rs)| > 0 {
          var i :| 0 <= i < |rs[1..]| && rs[1..][i].success && Succeeded(rs[1..])[0] == rs[1..][i]
            && forall j :: 0 <= j < i ==> !rs[1..][j].success;
          assert rs[i + 1] == rs[1..][i];
          forall j | 0 <= j < i + 1
            ensures !rs[j].success
          {
            if j > 0 {
              assert rs[j] == rs[1..][j - 1];
            }
          }
        }
        if exists i :: 0 <= i < |rs| && rs[i].success {
          var i :| 0 <= i < |rs| && rs[i].success;
          assert rs[1..][i - 1] == rs[i];
        }
      }
    }
  }

  /** The reconciliation rule, stated on the batch itself: the adapter throws
      exactly when some failed record carries a field error or a message, and
      then with the fault of the first such record; otherwise it returns the
      first successful record, or nothing when none succeeded. */
  lemma FirstFailureWins(resp: MutationResponse, detail: Detail)
    requires resp.success && resp.results.Some?
    ensures var rs := resp.results.value; var v := Verdict(resp, detail);
      && (v.Threw? <==> exists i :: 0 <= i < |rs| && !rs[i].success && RecordFault(rs[i], detail).Some?)
      && (v.Threw? ==> exists i ::
            && 0 <= i < |rs| && !rs[i].success && RecordFault(rs[i], detail) == Some(v.fault)
            && forall j :: 0 <= j < i && !rs[j].success ==> RecordFault(rs[j], detail).None?)
      && (v.Ok? ==> (v.value.Some? <==> exists i :: 0 <= i < |rs| && rs[i].success))
      && (v.Ok? && v.value.Some? ==> exists i ::
            && 0 <= i < |rs| && rs[i].success && v.value.value == rs[i]
            && forall j :: 0 <= j < i ==> !rs[j].success)
  {
    FirstFaultOfFailed(resp.results.value, detail);
    FirstSucceeded(resp.results.value);
  }

  // ---------------------------------------------------------------------------
  // Partial-update payloads.
  // ---------------------------------------------------------------------------

  /** How an input value is written into its storage column. */
  datatype Encoding =
    | AsIs          // `v`
    | ParsedInt     // `parseInt(v)`
    | NullableInt   // `v ? parseInt(v) : null`
    | JoinedList    // `Array.isArray(v) ? v.join(',') : v`
    | Trimmed       // `v?.trim()`
    | JsonText      // `typeof v === 'string' ? v : JSON.stringify(v)`

  /** One updatable field: the caller-facing name, the storage column, the encoding. */
  datatype Rule = Rule(input: string, column: string, encoding: Encoding)

  /** `Array.isArray(v) ? v.join(',') : v`: the skills column codec's writer. */
  function JoinIfArray(v: Value): Value {
    if v.Arr? then Str(JoinValues(v.elems, ",")) else v
  }

  /** `v ? parseInt(v) : null`: a nullable reference or amount. */
  function IntOrNull(v: Value, host: Host): (r: Value)
    ensures !Truthy(v) ==> r == Null
    ensures Truthy(v) ==> r == host.parseInt(v)
  {
    if Truthy(v) then host.parseInt(v) else Null
  }

  /** `v?.trim()`; None when `v` is neither text nor nullish (no `trim` method). */
  function TrimOrThrow(v: Value): Option<Value> {
    if v.Str? then Some(Str(Text.Trim(v.s)))
    else if v == Undefined || v == Null then Some(Undefined)
    else None
  }

  /** The stored value for one input value; None when the encoding throws
      (`trim` on a value that is not text). */
  function Encode(e: Encoding, v: Value, host: Host): (r: Option<Value>)
    ensures r.None? <==> e == Trimmed && !(v.Str? || v == Undefined || v == Null)
  {
    match e
    case AsIs => Some(v)
    case ParsedInt => Some(host.parseInt(v))
    case NullableInt => Some(IntOrNull(v, host))
    case JoinedList => Some(JoinIfArray(v))
    case Trimmed => TrimOrThrow(v)
    case JsonText => Some(if v.Str? then v else Str(host.stringify(v)))
  }

  /** Some rule's column is sent because its input field is defined. */
  ghost predicate Sent(input: Fields, rules: seq<Rule>, k: string) {
    exists r :: r in rules && r.column == k && Defined(input, r.input)
  }

  /** The payload holds the fixed entries `base` and, for each rule whose input
      field is defined, that field encoded under its column; nothing else. */
  ghost predicate SendsOnly(p: Payload, base: Payload, input: Fields, rules: seq<Rule>, host: Host) {
    && (forall k :: k in p <==> k in base || Sent(input, rules, k))
    && (forall k :: k in base ==> p[k] == base[k])
    && (forall r :: r in rules && Defined(input, r.input) ==>
          r.column in p && Encode(r.encoding, Get(input, r.input), host) == Some(p[r.column]))
  }

  /** The rule table names each column once and never a fixed entry. */
  predicate Distinct(base: Payload, rules: seq<Rule>) {
    && (forall i :: 0 <= i < |rules| ==> rules[i].column !in base)
    && (forall i, j :: 0 <= i < j < |rules| ==> rules[i].column != rules[j].column)
  }

  /** One `if (input.x !== undefined) payload.col = enc(input.x)` step. */
  function Step(p: Payload, rule: Rule, input: Fields, host: Host): Payload {
    if Defined(input, rule.input) then
      match Encode(rule.encoding, Get(input, rule.input), host)
      case Some(v) => p[rule.column := v]
      case None => p
    else p
  }

  /** `if (input.<field> !== undefined) payload.<column> = v`, the statement of an
      update builder for the `n`-th rule of its table: it takes the payload of
      the first `n` rules to the payload of the first `n + 1`. */
  method AssignIf(p: Payload, input: Fields, field: string, column: string, v: Value,
                  ghost base: Payload, ghost rules: seq<Rule>, ghost n: nat, ghost host: Host)
    returns (q: Payload)
    requires n < |rules| && rules[n].input == field && rules[n].column == column
    requires Encode(rules[n].encoding, Get(input, field), host) == Some(v)
    requires p == PatchUpTo(base, input, rules, n, host)
    ensures q == PatchUpTo(base, input, rules, n + 1, host)
  {
    q := p;
    if Defined(input, field) {
      q := q[column := v];
    }
  }

  /** The payload after the first `n` conditional assignments of the table. */
  function PatchUpTo(base: Payload, input: Fields, rules: seq<Rule>, n: nat, host: Host): Payload
    requires n <= |rules|
  {
    if n == 0 then base
    else Step(PatchUpTo(base, input, rules, n - 1, host), rules[n - 1], input, host)
  }

  /** The partial-update payload an adapter builds from its rule table. */
  function Patch(base: Payload, input: Fields, rules: seq<Rule>, host: Host): Payload {
    PatchUpTo(base, input, rules, |rules|, host)
  }

  /** Every defined input field can be encoded. */
  predicate Encodable(input: Fields, rules: seq<Rule>, host: Host) {
    forall r :: r in rules && Defined(input, r.input) ==> Encode(r.encoding, Get(input, r.input), host).Some?
  }

  /** Before any conditional assignment the payload is its fixed part. */
  lemma {:induction false} StartPayload(base: Payload, input: Fields, rules: seq<Rule>, host: Host)
    ensures SendsOnly(base, base, input, rules[..0], host)
  {
    assert forall k :: !Sent(input, rules[..0], k);
  }

  /** A column is sent after one more rule when it was sent before or is that rule's. */
  lemma SentAppend(input: Fields, pre: seq<Rule>, r: Rule, k: string)
    ensures Sent(input, pre + [r], k) <==> Sent(input, pre, k) || (k == r.column && Defined(input, r.input))
  {
    if Sent(input, pre + [r], k) {
      var r' :| r' in pre + [r] && r'.column == k && Defined(input, r'.input);
      if r' != r {
        assert r' in pre;
      }
    }
    if k == r.column && Defined(input, r.input) {
      assert r in pre + [r];
    }
    if Sent(input, pre, k) {
      var r' :| r' in pre && r'.column == k && Defined(input, r'.input);
      assert r' in pre + [r];
    }
  }

  /** Each conditional assignment for a column not yet named extends the payload
      by that rule. */
  lemma ExtendPayload(p: Payload, q: Payload, base: Payload, input: Fields, pre: seq<Rule>, r: Rule, host: Host)
    requires r.column !in base && forall r' :: r' in pre ==> r'.column != r.column
    requires SendsOnly(p, base, input, pre, host)
    requires Defined(input, r.input) ==> Encode(r.encoding, Get(input, r.input), host).Some?
    requires q == Step(p, r, input, host)
    ensures SendsOnly(q, base, input, pre + [r], host)
  {
    forall k {
      SentAppend(input, pre, r, k);
    }
  }

  /** In a table that names each column once, no earlier rule names the column of rule `i`. */
  lemma DistinctPrefix(base: Payload, rules: seq<Rule>, i: nat)
    requires i < |rules| && Distinct(base, rules)
    ensures rules[i].column !in base
    ensures forall r' :: r' in rules[..i] ==> r'.column != rules[i].column
  {
    forall r' | r' in rules[..i]
      ensures r'.column != rules[i].column
    {
      var j :| 0 <= j < i && rules[..i][j] == r';
      assert rules[j] == r';
    }
  }

  /** Only trimming can fail, so a table without trimmed fields can always be encoded. */
  lemma UntrimmedEncodable(input: Fields, rules: seq<Rule>, host: Host)
    requires forall i :: 0 <= i < |rules| ==> rules[i].encoding != Trimmed
    ensures Encodable(input, rules, host)
  {
    forall r | r in rules && Defined(input, r.input)
      ensures Encode(r.encoding, Get(input, r.input), host).Some?
    {
      var i :| 0 <= i < |rules| && rules[i] == r;
    }
  }

  /** A payload built from a table that names each column once holds `Id` (the
      fixed part) and exactly the defined fields, each encoded; nothing else is sent. */
  lemma {:induction false} PatchSendsOnly(base: Payload, input: Fields, rules: seq<Rule>, host: Host)
    requires Distinct(base, rules) && Encodable(input, rules, host)
    ensures SendsOnly(Patch(base, input, rules, host), base, input, rules, host)
  {
    StartPayload(base, input, rules, host);
    var n := 0;
    while n < |rules|
      invariant n <= |rules|
      invariant SendsOnly(PatchUpTo(base, input, rules, n, host), base, input, rules[..n], host)
    {
      assert rules[n] in rules;
      DistinctPrefix(base, rules, n);
      ExtendPayload(PatchUpTo(base, input, rules, n, host), PatchUpTo(base, input, rules, n + 1, host), base, input, rules[..n], rules[n], host);
      assert rules[..n + 1] == rules[..n] + [rules[n]];
      n := n + 1;
    }
    assert rules[..|rules|] == rules;
  }

  /** A column that is neither fixed nor named by any rule is never sent. */
  lemma {:induction false} PatchOmits(base: Payload, input: Fields, rules: seq<Rule>, host: Host, k: string)
    requires k !in base && forall i :: 0 <= i < |rules| ==> rules[i].column != k
    ensures k !in Patch(base, input, rules, host)
  {
    var n := 0;
    while n < |rules|
      invariant n <= |rules|
      invariant k !in PatchUpTo(base, input, rules, n, host)
    {
      n := n + 1;
    }
  }

  /** The column of a rule whose input field is defined is sent, encoded. */
  lemma RuleSent(p: Payload, base: Payload, input: Fields, rules: seq<Rule>, host: Host,
                 i: nat, field: string, column: string, e: Encoding)
    requires SendsOnly(p, base, input, rules, host)
    requires i < |rules| && rules[i] == Rule(field, column, e) && Defined(input, field)
    ensures column in p && Encode(e, Get(input, field), host) == Some(p[column])
  {
    assert rules[i] in rules;
  }

  /** In a payload built from a table that names each column once, the column of
      a rule whose input field is defined holds that field, encoded. */
  lemma PatchSetsColumn(base: Payload, input: Fields, rules: seq<Rule>, host: Host,
                        i: nat, field: string, column: string, e: Encoding)
    requires Distinct(base, rules) && Encodable(input, rules, host)
    requires i < |rules| && rules[i] == Rule(field, column, e) && Defined(input, field)
    ensures var p := Patch(base, input, rules, host);
      column in p && Encode(e, Get(input, field), host) == Some(p[column])
  {
    PatchSendsOnly(base, input, rules, host);
    RuleSent(Patch(base, input, rules, host), base, input, rules, host, i, field, column, e);
  }

  /** The store's partial update: the sent columns overwrite, the others stay. */
  function Apply(stored: Row, p: Payload): Row {
    stored + p
  }

  /** Partial-update isolation: after the store applies a payload built by the
      rule table, a column is changed only if it is a fixed entry or the column
      of a rule whose input field was defined, and then to the encoded value. */
  lemma PartialUpdateIsolation(stored: Row, p: Payload, base: Payload, input: Fields, rules: seq<Rule>, host: Host)
    requires SendsOnly(p, base, input, rules, host)
    ensures forall k :: k !in base && !Sent(input, rules, k) ==> Get(Apply(stored, p), k) == Get(stored, k)
    ensures forall r :: r in rules && Defined(input, r.input) ==>
      Encode(r.encoding, Get(input, r.input), host) == Some(Get(Apply(stored, p), r.column))
  {
  }
}
