/** `WhenToWork`, the client: its key and base URL with their setters, the endpoint dispatcher
    `_post_to_endpoint`, and the three typed getters. The HTTP transport is an oracle: a
    `Transport` object answers every request with the response its `server` function gives and
    records the requests it was sent. */
module Api {
  import opened Wrappers
  import opened Text
  import opened PyValues
  import opened Dicts
  import opened W2WBase
  import opened Dates
  import BaseUrl

  /** `VALID_ENDPOINTS`. */
  const ValidEndpoints: seq<string> := [
    "EmployeeList", "AssignedShiftList", "ApprovedTimeOff", "DailyTotals",
    "DailyPositionTotals", "PositionList", "CategoryList"
  ]

  const InvalidBaseUrlMessage: string := "Invalid base_url: The subdomain and dll definitions do not match."

  /** A decoded response body: each top-level name maps to a list of JSON objects (or nulls). */
  type Payload = map<string, seq<Option<Dict>>>

  /** What the server returns: a status code, the raw text, and the decoded body when the text
      is JSON of the expected shape. */
  datatype Response = Response(status: int, text: string, json: Option<Payload>)

  /** A form-encoded POST: its URL and its fields in insertion order. */
  datatype Request = Request(url: string, data: Dict)

  /** `requests.post`, as an oracle that logs what it is sent. */
  class Transport {
    const server: Request -> Response
    var sent: seq<Request>

    constructor (server: Request -> Response)
      ensures this.server == server && sent == []
    {
      this.server := server;
      sent := [];
    }

    method Post(url: string, data: Dict) returns (resp: Response)
      modifies this
      ensures sent == old(sent) + [Request(url, data)]
      ensures resp == server(Request(url, data))
    {
      sent := sent + [Request(url, data)];
      resp := server(Request(url, data));
    }
  }

  /** A Python dict passed by reference: the dispatcher adds the key to the caller's own dict. */
  class Params {
    var items: Dict

    constructor (items: Dict)
      ensures this.items == items
    {
      this.items := items;
    }
  }

  /** The end of `_post_to_endpoint`: a status other than 200 raises with the response text;
      otherwise the body is decoded. */
  function ReadResponse(endpoint: string, resp: Response): (r: Result<Payload, Error>)
    ensures r.Ok? <==> resp.status == 200 && resp.json.Some?
    ensures r.Ok? ==> r.value == resp.json.value
    ensures resp.status != 200 ==> r == Err(ValueError("Error accessing endpoint " + endpoint + ": " + resp.text))
    ensures resp.status == 200 && resp.json.None? ==> r == Err(JsonDecodeError)
  {
    if resp.status != 200 then Err(ValueError("Error accessing endpoint " + endpoint + ": " + resp.text))
    else if resp.json.None? then Err(JsonDecodeError)
    else Ok(resp.json.value)
  }

  /** `[Cls.from_json(x) for x in items]`: the first element that fails to construct raises. */
  function FromJsonAll(cls: ClassName, schemas: Schemas, items: seq<Option<Dict>>): (r: Result<seq<Option<Obj>>, Error>)
    requires IsRecordClass(cls)
    ensures r.Ok? <==> forall i :: 0 <= i < |items| ==> FromJson(cls, schemas, items[i]).Ok?
    ensures r.Ok? ==> |r.value| == |items| && forall i :: 0 <= i < |items| ==> FromJson(cls, schemas, items[i]) == Ok(r.value[i])
  {
    if items == [] then Ok([])
    else
      match FromJson(cls, schemas, items[0])
      case Err(e) => Err(e)
      case Ok(o) =>
        match FromJsonAll(cls, schemas, items[1..])
        case Err(e) =>
          Err(e)
        case Ok(rest) =>
          assert forall i :: 1 <= i < |items| ==> items[1..][i - 1] == items[i];
          Ok([o] + rest)
  }

  /** A typed getter once the body is decoded: `[Cls.from_json(x) for x in response[name]]`,
      raising KeyError when the body has no list under `name`. */
  function ListFromBody(cls: ClassName, schemas: Schemas, name: string, body: Result<Payload, Error>): (r: Result<seq<Option<Obj>>, Error>)
    requires IsRecordClass(cls)
    ensures body.Err? ==> r == Err(body.error)
    ensures body.Ok? && name !in body.value ==> r == Err(KeyError(name))
    ensures r.Ok? ==> body.Ok? && name in body.value && FromJsonAll(cls, schemas, body.value[name]) == r
    ensures body.Ok? && name in body.value ==> r == FromJsonAll(cls, schemas, body.value[name])
  {
    match body
    case Err(e) => Err(e)
    case Ok(payload) =>
      if name !in payload then Err(KeyError(name))
      else FromJsonAll(cls, schemas, payload[name])
  }

  /** A typed getter after the request: the response is checked and decoded, then the list under
      the endpoint's own name is read. */
  function RecordList(cls: ClassName, schemas: Schemas, name: string, resp: Response): (r: Result<seq<Option<Obj>>, Error>)
    requires IsRecordClass(cls)
    ensures resp.status != 200 ==> r == Err(ValueError("Error accessing endpoint " + name + ": " + resp.text))
    ensures resp.status == 200 && resp.json.None? ==> r == Err(JsonDecodeError)
    ensures resp.status == 200 && resp.json.Some? && name !in resp.json.value ==> r == Err(KeyError(name))
    ensures r.Ok? ==> resp.status == 200 && resp.json.Some? && name in resp.json.value
                      && FromJsonAll(cls, schemas, resp.json.value[name]) == r
    ensures resp.status == 200 && resp.json.Some? && name in resp.json.value ==>
              r == FromJsonAll(cls, schemas, resp.json.value[name])
  {
    ListFromBody(cls, schemas, name, ReadResponse(name, resp))
  }

  /** The fields a getter without arguments posts: the key alone. */
  lemma KeyOnlyParams(key: string)
    ensures Set([], "key", PyStr(key)) == [("key", PyStr(key))]
  {
    assert "key" !in Keys([]);
  }

  /** The base-URL setter: an empty value raises; otherwise the new value is stored only when the
      CURRENT URL passes the consistency check, and silently dropped when it does not. Gives the
      outcome and the URL afterwards. */
  function SetBaseUrlOutcome(current: string, newUrl: string): (r: (Result<(), Error>, string))
    ensures newUrl == [] ==> r == (Err(ValueError("Base URL cannot be empty.")), current)
    ensures newUrl != [] ==> r.0 == Ok(())
    ensures newUrl != [] && BaseUrl.IsBaseUrlValid(current) ==> r.1 == newUrl
    ensures !BaseUrl.IsBaseUrlValid(current) ==> r.1 == current
  {
    if newUrl == [] then (Err(ValueError("Base URL cannot be empty.")), current)
    else if BaseUrl.IsBaseUrlValid(current) then (Ok(()), newUrl)
    else (Ok(()), current)
  }

  /** Because the setter checks the current URL and not the new one, it stores an inconsistent
      URL when the current one is consistent. */
  lemma SetterStoresInconsistentUrl()
    ensures var bad := "https://www1.whentowork.com/" + "cgi-bin/w2wB.dll/api/";
            SetBaseUrlOutcome(BaseUrl.DefaultBaseUrl, bad) == (Ok(()), bad)
            && !BaseUrl.IsBaseUrlValid(bad)
  {
    BaseUrl.DefaultIsValid();
    BaseUrl.MismatchIsInvalid();
  }

  /** Once the stored URL is inconsistent, no sequence of assignments changes it again. */
  lemma {:induction false} SetterStuckOnInconsistentUrl(current: string, attempts: seq<string>)
    requires !BaseUrl.IsBaseUrlValid(current)
    ensures SetBaseUrlAll(current, attempts) == current
  {
    if attempts != [] {
      SetterStuckOnInconsistentUrl(current, attempts[..|attempts| - 1]);
    }
  }

  /** The URL after assigning each of `attempts` in turn. */
  function SetBaseUrlAll(current: string, attempts: seq<string>): (r: string)
    ensures r == current || r in attempts
  {
    if attempts == [] then current
    else SetBaseUrlOutcome(SetBaseUrlAll(current, attempts[..|attempts| - 1]), attempts[|attempts| - 1]).1
  }

  /** The attribute line 156 of the shift getter reads from a Position argument, as written. */
  const AsWrittenIdAttr := "id"

  /** The attribute that holds a Position's identifier, which the line evidently means. */
  const PositionIdAttr := "position_id"

  /** `position.<idAttr> if isinstance(position, Position) else position`: a string is sent as it
      is, a Position contributes the attribute `idAttr`. */
  function PositionFilter(p: PositionArg, idAttr: string): (r: Result<Value, Error>)
    requires p.PositionRecord? ==> p.position.cls == Position
    ensures p.PositionText? ==> r == Ok(PyStr(p.id))
    ensures p.PositionRecord? ==> (r.Ok? <==> idAttr in Keys(p.position.attrs))
    ensures p.PositionRecord? && r.Ok? ==> Get(p.position.attrs, idAttr) == Some(r.value)
    ensures r.Err? ==> r.error == AttributeError("Position", idAttr)
  {
    match p
    case PositionText(s) => Ok(PyStr(s))
    case PositionRecord(o) => Attr(o, idAttr)
  }

  /** A Position decoded from a JSON object without an `id` key, under a schema without an `id`
      field, has no `id` attribute: the filter as written raises AttributeError. */
  lemma AsWrittenFilterRaises(schemas: Schemas, json: Dict)
    requires "id" !in schemas.position
    requires forall j :: 0 <= j < |json| ==> Lower(json[j].0) != "id"
    requires FromJson(Position, schemas, Some(json)) == Ok(Some(Obj(Position, InitAttrs(schemas.position, LowerKeys(json)))))
    ensures PositionFilter(PositionRecord(Obj(Position, InitAttrs(schemas.position, LowerKeys(json)))), AsWrittenIdAttr)
            == Err(AttributeError("Position", "id"))
  {
    LookupAbsentLowered(json, "id");
    InitNoOtherAttrs(schemas.position, LowerKeys(json), "id");
  }

  lemma LookupAbsentLowered(json: Dict, k: string)
    requires forall j :: 0 <= j < |json| ==> Lower(json[j].0) != k
    ensures k !in Keys(LowerKeys(json))
  {
    LookupAbsent(LowerPairs(json), k);
  }

  /** With the corrected attribute, a Position decoded from JSON filters by the identifier the
      JSON gave it, whatever the case of its key. */
  lemma FilterUsesPositionId(schemas: Schemas, json: Dict, i: nat)
    requires i < |json| && Lower(json[i].0) == "position_id"
    requires forall j :: i < j < |json| ==> Lower(json[j].0) != "position_id"
    requires FromJson(Position, schemas, Some(json)).Ok?
    ensures FromJson(Position, schemas, Some(json)).value.Some?
    ensures PositionFilter(PositionRecord(FromJson(Position, schemas, Some(json)).value.value), PositionIdAttr) == Ok(json[i].1)
  {
    PositionIdIsPlain(Lower(json[i].0));
    FromJsonLaterKeyWins(Position, schemas, json, i);
  }

  lemma PositionIdIsPlain(k: string)
    requires k == "position_id"
    ensures !IsSlotName(k)
  {
    assert |k| == 11 && k[0] == 'p';
  }

  /** The input that shows the discrepancy: a Position decoded from `{"POSITION_ID": "7"}` under
      a schema without `id` (three of the seven documented fields stand for it here). As written
      the filter raises; corrected it sends "7". */
  lemma PositionFilterExample(schemas: Schemas, json: Dict)
    requires schemas.position == ["company_id", "position_id", "position_name"]
    requires json == [("POSITION_ID", PyStr("7"))]
    ensures FromJson(Position, schemas, Some(json)).Ok?
    ensures FromJson(Position, schemas, Some(json)).value.Some?
    ensures var o := FromJson(Position, schemas, Some(json)).value.value;
            && PositionFilter(PositionRecord(o), AsWrittenIdAttr) == Err(AttributeError("Position", "id"))
            && PositionFilter(PositionRecord(o), PositionIdAttr) == Ok(PyStr("7"))
  {
    ExampleLowered(json);
    IdNotInSchema(schemas.position);
    PositionFromJson(schemas, json);
    AsWrittenFilterRaises(schemas, json);
    FilterUsesPositionId(schemas, json, 0);
    assert json[0].1 == PyStr("7");
  }

  /** A Position payload whose keys the constructor accepts decodes to the record `__init__`
      builds from the lowered keys. */
  lemma PositionFromJson(schemas: Schemas, json: Dict)
    requires !RejectedKeyword(Keys(LowerKeys(json))) && !HasSlotName(schemas.position)
    ensures FromJson(Position, schemas, Some(json)) == Ok(Some(Obj(Position, InitAttrs(schemas.position, LowerKeys(json)))))
  {
    assert Fields(schemas, Position) == schemas.position;
  }

  /** The example's only key lowers to `position_id`: not `id`, and no keyword the constructor
      rejects. */
  lemma ExampleLowered(json: Dict)
    requires json == [("POSITION_ID", PyStr("7"))]
    ensures forall j :: 0 <= j < |json| ==> Lower(json[j].0) == "position_id"
    ensures forall j :: 0 <= j < |json| ==> Lower(json[j].0) != "id"
    ensures !RejectedKeyword(Keys(LowerKeys(json)))
  {
    LowerPositionId();
    assert |"id"| == 2 && |"position_id"| == 11 && "position_id"[0] == 'p';
    assert |"self"| == 4 && |"fields"| == 6 && |"__class__"| == 9 && |"__dict__"| == 8;
    LookupAbsentLowered(json, "self");
    LookupAbsentLowered(json, "fields");
    LookupAbsentLowered(json, "__class__");
    LookupAbsentLowered(json, "__dict__");
  }

  /** The Position schema has no `id` field and no descriptor name. */
  lemma IdNotInSchema(fields: seq<string>)
    requires fields == ["company_id", "position_id", "position_name"]
    ensures "id" !in fields && !HasSlotName(fields)
  {
    assert |fields| == 3 && |fields[0]| == 10 && |fields[1]| == 11 && |fields[2]| == 13;
    assert fields[1][0] == 'p' && |"__weakref__"| == 11 && "__weakref__"[0] == '_';
    assert |"__class__"| == 9 && |"__dict__"| == 8;
  }

  lemma LowerPositionId()
    ensures Lower("POSITION_ID") == "position_id"
  {
  }

  /** A date argument: a `datetime.date`, or a `YYYY-MM-DD` string. */
  datatype DateArg = DateValue(date: Date) | DateText(text: string)

  /** A position argument: a position identifier string, or a Position record. */
  datatype PositionArg = PositionText(id: string) | PositionRecord(position: Obj)

  predicate WellTyped(start: DateArg, end: DateArg, position: PositionArg)
  {
    && (start.DateValue? ==> Valid(start.date))
    && (end.DateValue? ==> Valid(end.date))
    && (position.PositionRecord? ==> position.position.cls == Position)
  }

  function ToDate(a: DateArg): (r: Result<Date, Error>)
    requires a.DateValue? ==> Valid(a.date)
    ensures r.Ok? ==> Valid(r.value)
    ensures a.DateValue? ==> r == Ok(a.date)
    ensures a.DateText? ==> r == ParseIsoDate(a.text)
  {
    match a
    case DateValue(d) => Ok(d)
    case DateText(s) => ParseIsoDate(s)
  }

  /** The request fields `get_assigned_shift_list` builds: both dates parsed (start first), then
      the fields of `QueryFields`. */
  function ShiftQuery(start: DateArg, end: DateArg, position: PositionArg, idAttr: string): (r: Result<Dict, Error>)
    requires WellTyped(start, end, position)
    ensures ToDate(start).Err? ==> r == Err(ToDate(start).error)
    ensures ToDate(start).Ok? && ToDate(end).Err? ==> r == Err(ToDate(end).error)
    ensures ToDate(start).Ok? && ToDate(end).Ok? && PositionFilter(position, idAttr).Err? ==>
      r == Err(PositionFilter(position, idAttr).error)
    ensures r.Ok? <==> ToDate(start).Ok? && ToDate(end).Ok? && PositionFilter(position, idAttr).Ok?
    ensures r.Ok? ==> r == QueryFields(ToDate(start).value, ToDate(end).value, position, idAttr)
                      && Keys(r.value) == ["start_date", "end_date", "position"]
  {
    match ToDate(start)
    case Err(e) => Err(e)
    case Ok(s) =>
      match ToDate(end)
      case Err(e) => Err(e)
      case Ok(e) => QueryFields(s, e, position, idAttr)
  }

  /** The fields once both dates are read: the range normalised, the dates written `MM/DD/YYYY`,
      and the position filter, which may still raise. */
  function QueryFields(start: Date, end: Date, position: PositionArg, idAttr: string): (r: Result<Dict, Error>)
    requires Valid(start) && Valid(end)
    requires position.PositionRecord? ==> position.position.cls == Position
    ensures r.Ok? <==> PositionFilter(position, idAttr).Ok?
    ensures r.Err? ==> r == Err(PositionFilter(position, idAttr).error)
    ensures r.Ok? ==>
      var range := Normalize(start, end);
      && Keys(r.value) == ["start_date", "end_date", "position"]
      && r.value[0].1 == PyStr(WireText(start))
      && r.value[1].1 == PyStr(WireText(range.1))
      && r.value[2].1 == PositionFilter(position, idAttr).value
  {
    var range := Normalize(start, end);
    match PositionFilter(position, idAttr)
    case Err(err) => Err(err)
    case Ok(p) =>
      var a, b := PyStr(WireText(range.0)), PyStr(WireText(range.1));
      QueryKeys(a, b, p);
      Ok([("start_date", a), ("end_date", b), ("position", p)])
  }

  lemma QueryKeys(a: Value, b: Value, p: Value)
    ensures Keys([("start_date", a), ("end_date", b), ("position", p)]) == ["start_date", "end_date", "position"]
  {
  }

  /** The query fields hold no "key", so the dispatcher appends it last. */
  lemma KeyAppended(q: Dict, key: string)
    requires Keys(q) == ["start_date", "end_date", "position"]
    ensures Set(q, "key", PyStr(key)) == q + [("key", PyStr(key))]
  {
  }

  /** A query whose end precedes its start asks for the start day alone. */
  lemma QueryStartAfterEnd()
    ensures ShiftQuery(DateText("2024-03-10"), DateText("2024-03-01"), PositionText(""), PositionIdAttr)
            == Ok([("start_date", PyStr("03/10/2024")), ("end_date", PyStr("03/10/2024")), ("position", PyStr(""))])
  {
    ParseFullDate();
    ParseFirstOfMarch();
    StartAfterEndCollapses();
    WireExample(Date(2024, 3, 10));
  }

  /** The shift getter as written, given a Position decoded from JSON that has no `id` key under a
      schema without an `id` field, raises AttributeError once both dates are read; by the
      contract of `Client.AssignedShiftList` it then sends no request. */
  lemma AsWrittenQueryRaises(start: DateArg, end: DateArg, schemas: Schemas, json: Dict)
    requires WellTyped(start, end, PositionText(""))
    requires ToDate(start).Ok? && ToDate(end).Ok?
    requires "id" !in schemas.position
    requires forall j :: 0 <= j < |json| ==> Lower(json[j].0) != "id"
    requires FromJson(Position, schemas, Some(json)).Ok?
    ensures FromJson(Position, schemas, Some(json)).value.Some?
    ensures ShiftQuery(start, end, PositionRecord(FromJson(Position, schemas, Some(json)).value.value), AsWrittenIdAttr)
            == Err(AttributeError("Position", "id"))
  {
    PositionFromJson(schemas, json);
    AsWrittenFilterRaises(schemas, json);
  }

  /** Corrected, the same call sends the identifier the JSON object carried, in the `position`
      field. */
  lemma CorrectedQuerySendsPositionId(start: DateArg, end: DateArg, schemas: Schemas, json: Dict, i: nat)
    requires WellTyped(start, end, PositionText(""))
    requires ToDate(start).Ok? && ToDate(end).Ok?
    requires i < |json| && Lower(json[i].0) == "position_id"
    requires forall j :: i < j < |json| ==> Lower(json[j].0) != "position_id"
    requires FromJson(Position, schemas, Some(json)).Ok?
    ensures FromJson(Position, schemas, Some(json)).value.Some?
    ensures var q := ShiftQuery(start, end, PositionRecord(FromJson(Position, schemas, Some(json)).value.value), PositionIdAttr);
            q.Ok? && q.value[2] == ("position", json[i].1)
  {
    FilterUsesPositionId(schemas, json, i);
  }

  lemma WireExample(d: Date)
    requires d == Date(2024, 3, 10)
    ensures WireText(d) == "03/10/2024"
  {
    var mm, dd, yyyy := "03", "10", "2024";
    Year2024(yyyy);
    assert yyyy[..4] == yyyy;
    TwoDigitsValue(mm);
    TwoDigitsValue(dd);
    WireTextOfDigits(d, mm, dd, yyyy);
    WireLiteral(mm, dd, yyyy);
  }

  lemma WireLiteral(mm: string, dd: string, yyyy: string)
    requires mm == "03" && dd == "10" && yyyy == "2024"
    ensures mm + "/" + dd + "/" + yyyy == "03/10/2024"
  {
  }

  /** The client object. */
  class Client {
    var key: string
    var baseUrl: string
    var positions: seq<Option<Obj>>

    /** The field assignments at the start of `__init__`. */
    constructor (key: string, baseUrl: string)
      ensures this.key == key && this.baseUrl == baseUrl && positions == []
    {
      this.key := key;
      this.baseUrl := baseUrl;
      positions := [];
    }

    /** The `key` setter: an empty key raises and the old key stays. */
    method SetKey(newKey: string) returns (r: Result<(), Error>)
      modifies this`key
      ensures newKey == [] ==> r == Err(ValueError("API key cannot be empty.")) && key == old(key)
      ensures newKey != [] ==> r == Ok(()) && key == newKey
    {
      if newKey == [] {
        return Err(ValueError("API key cannot be empty."));
      }
      key := newKey;
      r := Ok(());
    }

    /** The `base_url` setter. */
    method SetBaseUrl(newUrl: string) returns (r: Result<(), Error>)
      modifies this`baseUrl
      ensures (r, baseUrl) == SetBaseUrlOutcome(old(baseUrl), newUrl)
    {
      if newUrl == [] {
        return Err(ValueError("Base URL cannot be empty."));
      }
      if BaseUrl.IsBaseUrlValid(baseUrl) {
        baseUrl := newUrl;
      }
      r := Ok(());
    }

    /** `_post_to_endpoint`: an endpoint outside the allow-list raises before anything else
      happens; otherwise the key is stored into the caller's dict under "key", the dict is posted
      to the base URL followed by the endpoint name, and the response is checked and decoded. */
    method PostToEndpoint(endpoint: string, params: Params, transport: Transport) returns (r: Result<Payload, Error>)
      modifies params, transport
      ensures endpoint !in ValidEndpoints ==>
        && r == Err(ValueError("Invalid endpoint: " + endpoint))
        && params.items == old(params.items)
        && transport.sent == old(transport.sent)
      ensures endpoint in ValidEndpoints ==>
        && params.items == Set(old(params.items), "key", PyStr(key))
        && Get(params.items, "key") == Some(PyStr(key))
        && (forall k :: k != "key" ==> Get(params.items, k) == Get(old(params.items), k))
        && transport.sent == old(transport.sent) + [Request(baseUrl + endpoint, params.items)]
        && r == ReadResponse(endpoint, transport.server(Request(baseUrl + endpoint, params.items)))
    {
      if endpoint !in ValidEndpoints {
        return Err(ValueError("Invalid endpoint: " + endpoint));
      }
      params.items := Set(params.items, "key", PyStr(key));
      var resp := transport.Post(baseUrl + endpoint, params.items);
      r := ReadResponse(endpoint, resp);
    }

    /** `get_employee_list`. */
    method EmployeeList(transport: Transport, schemas: Schemas) returns (r: Result<seq<Option<Obj>>, Error>)
      modifies transport
      ensures transport.sent == old(transport.sent) + [Request(baseUrl + "EmployeeList", [("key", PyStr(key))])]
      ensures r == RecordList(Employee, schemas, "EmployeeList", transport.server(Request(baseUrl + "EmployeeList", [("key", PyStr(key))])))
    {
      var params := new Params([]);
      assert ValidEndpoints[0] == "EmployeeList";
      KeyOnlyParams(key);
      var resp := PostToEndpoint("EmployeeList", params, transport);
      r := ListFromBody(Employee, schemas, "EmployeeList", resp);
    }

    /** `get_position_list`: on success the list also becomes the cached `positions`. */
    method PositionList(transport: Transport, schemas: Schemas) returns (r: Result<seq<Option<Obj>>, Error>)
      modifies this`positions, transport
      ensures transport.sent == old(transport.sent) + [Request(baseUrl + "PositionList", [("key", PyStr(key))])]
      ensures r == RecordList(Position, schemas, "PositionList", transport.server(Request(baseUrl + "PositionList", [("key", PyStr(key))])))
      ensures positions == if r.Ok? then r.value else old(positions)
    {
      var params := new Params([]);
      assert ValidEndpoints[5] == "PositionList";
      KeyOnlyParams(key);
      var resp := PostToEndpoint("PositionList", params, transport);
      r := ListFromBody(Position, schemas, "PositionList", resp);
      if r.Ok? {
        positions := r.value;
      }
    }

    /** `get_assigned_shift_list`: a date or position argument that cannot be read raises before
      any request; otherwise one request carries the normalised range and the filter. `idAttr` is
      the attribute read from a Position argument: `AsWrittenIdAttr` as line 156 is written,
      `PositionIdAttr` as it is evidently meant. */
    method AssignedShiftList(start: DateArg, end: DateArg, position: PositionArg, idAttr: string, transport: Transport, schemas: Schemas)
      returns (r: Result<seq<Option<Obj>>, Error>)
      requires WellTyped(start, end, position)
      modifies transport
      ensures ShiftQuery(start, end, position, idAttr).Err? ==>
        r == Err(ShiftQuery(start, end, position, idAttr).error) && transport.sent == old(transport.sent)
      ensures ShiftQuery(start, end, position, idAttr).Ok? ==>
        var req := Request(baseUrl + "AssignedShiftList", ShiftQuery(start, end, position, idAttr).value + [("key", PyStr(key))]);
        transport.sent == old(transport.sent) + [req]
        && r == RecordList(Shift, schemas, "AssignedShiftList", transport.server(req))
    {
      var query := ShiftQuery(start, end, position, idAttr);
      if query.Err? {
        return Err(query.error);
      }
      r := PostShiftQuery(query.value, transport, schemas);
    }

    /** The request half of `get_assigned_shift_list`, once its fields are built. */
    method PostShiftQuery(query: Dict, transport: Transport, schemas: Schemas) returns (r: Result<seq<Option<Obj>>, Error>)
      requires Keys(query) == ["start_date", "end_date", "position"]
      modifies transport
      ensures var req := Request(baseUrl + "AssignedShiftList", query + [("key", PyStr(key))]);
        transport.sent == old(transport.sent) + [req]
        && r == RecordList(Shift, schemas, "AssignedShiftList", transport.server(req))
    {
      var params := new Params(query);
      assert ValidEndpoints[1] == "AssignedShiftList";
      KeyAppended(query, key);
      var resp := PostToEndpoint("AssignedShiftList", params, transport);
      r := ListFromBody(Shift, schemas, "AssignedShiftList", resp);
    }
  }

  /** `WhenToWork(key, base_url)`: the fields are set, the position list is fetched (one request,
      made whatever the URL), and only then is the URL checked. No check is made on the key. */
  method Open(key: string, baseUrl: string, transport: Transport, schemas: Schemas) returns (r: Result<Client, Error>)
    modifies transport
    ensures transport.sent == old(transport.sent) + [Request(baseUrl + "PositionList", [("key", PyStr(key))])]
    ensures var fetched := RecordList(Position, schemas, "PositionList", transport.server(Request(baseUrl + "PositionList", [("key", PyStr(key))])));
      && (fetched.Err? ==> r == Err(fetched.error))
      && (fetched.Ok? && !BaseUrl.IsBaseUrlValid(baseUrl) ==> r == Err(ValueError(InvalidBaseUrlMessage)))
      && (r.Ok? <==> fetched.Ok? && BaseUrl.IsBaseUrlValid(baseUrl))
      && (r.Ok? ==> fresh(r.value) && r.value.key == key && r.value.baseUrl == baseUrl && r.value.positions == fetched.value)
  {
    var c := new Client(key, baseUrl);
    var fetched := c.PositionList(transport, schemas);
    if fetched.Err? {
      return Err(fetched.error);
    }
    if !BaseUrl.IsBaseUrlValid(c.baseUrl) {
      return Err(ValueError(InvalidBaseUrlMessage));
    }
    r := Ok(c);
  }
}
