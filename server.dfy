/**
 * The two POST handlers of the Express server: `/submit` stores a filled-in
 * form as it is, `/ai` asks a language model to extract the three fields from
 * free text, validates and coerces its JSON answer and stores the result.
 * Each handler is a method over the store; the function beside it states the
 * decision it makes, and the lemmas below state what that decision promises.
 */
module Server {
  import opened Wrappers
  import opened JsValues
  import opened JsStrings
  import opened ParseInt

  const AllFieldsRequired := "All fields required"
  const DataSaved := "Data saved successfully"
  const ServerError := "Server error"
  const TextRequired := "Text is required"
  const AiResponseInvalid := "AI response invalid"
  const IncompleteData := "Incomplete or invalid data from AI"
  const AiSubmitted := "AI auto-submitted form"
  const AiRequestFailed := "AI request failed"

  /** A stored student row; the id is generated by the database. */
  datatype Student = Student(id: int, name: JsValue, rollno: JsValue, address: JsValue)

  /**
   * The database's answer to one create call: the id it generated, or a failure
   * (lost connection, a value its schema refuses, ...).
   */
  datatype DbOutcome = Stored(id: int) | DbFailed

  /** The language model's answer: the text of its reply, or a failed call. */
  datatype ModelReply = Reply(text: string) | ModelFailed

  /** A JSON response body. */
  datatype Body =
    | Error(error: string)
    | ErrorWithRaw(error: string, raw: string)
    | ErrorWithData(error: string, data: JsValue)
    | Saved(message: string, student: Student)  // { success: true, message, data: student }

  datatype Response = Response(status: nat, body: Body)

  /** What one request does: its response and the row it created, if any. */
  datatype Outcome = Outcome(response: Response, created: Option<Student>)

  function Rows(r: Option<Student>): seq<Student> {
    if r.Some? then [r.value] else []
  }

  /** The student table, which this system only ever appends to. */
  class Store {
    var records: seq<Student>

    constructor ()
      ensures records == []
    {
      records := [];
    }

    /** `prisma.student.create`: one new row on success, nothing on failure. */
    method Create(name: JsValue, rollno: JsValue, address: JsValue, db: DbOutcome) returns (r: Option<Student>)
      modifies this
      ensures r == if db.Stored? then Some(Student(db.id, name, rollno, address)) else None
      ensures records == old(records) + Rows(r)
    {
      match db
      case Stored(id) =>
        r := Some(Student(id, name, rollno, address));
        records := records + [r.value];
      case DbFailed =>
        r := None;
    }
  }

  // ---------------------------------------------------------------- /submit

  /** All three fields of `req.body || {}` are truthy. */
  predicate FieldsPresent(body: JsValue) {
    var b := OrEmpty(body);
    ToBoolean(Prop(b, "name")) && ToBoolean(Prop(b, "rollno")) && ToBoolean(Prop(b, "address"))
  }

  /**
   * The decision `/submit` makes. It answers 400 exactly when a field is falsy;
   * otherwise it stores the three body values untouched, answering 200 with the
   * new row, or 500 when the database fails.
   */
  function SubmitSpec(body: JsValue, db: DbOutcome): (o: Outcome)
    ensures o.response == Response(400, Error(AllFieldsRequired)) <==> !FieldsPresent(body)
    ensures !FieldsPresent(body) ==> o.created == None
    ensures o.created.Some? <==> FieldsPresent(body) && db.Stored?
    ensures o.created.Some? ==>
      var b := OrEmpty(body);
      && o.created.value == Student(db.id, Prop(b, "name"), Prop(b, "rollno"), Prop(b, "address"))
      && o.response == Response(200, Saved(DataSaved, o.created.value))
    ensures FieldsPresent(body) && db.DbFailed? ==> o == Outcome(Response(500, Error(ServerError)), None)
  {
    var b := OrEmpty(body);
    if !FieldsPresent(body) then
      Outcome(Response(400, Error(AllFieldsRequired)), None)
    else if db.DbFailed? then
      Outcome(Response(500, Error(ServerError)), None)
    else
      var s := Student(db.id, Prop(b, "name"), Prop(b, "rollno"), Prop(b, "address"));
      Outcome(Response(200, Saved(DataSaved, s)), Some(s))
  }

  /** The `/submit` handler. */
  method Submit(store: Store, body: JsValue, db: DbOutcome) returns (response: Response)
    modifies store
    ensures response == SubmitSpec(body, db).response
    ensures store.records == old(store.records) + Rows(SubmitSpec(body, db).created)
  {
    var b := OrEmpty(body);
    var name, rollno, address := Prop(b, "name"), Prop(b, "rollno"), Prop(b, "address");
    if !ToBoolean(name) || !ToBoolean(rollno) || !ToBoolean(address) {
      return Response(400, Error(AllFieldsRequired));
    }
    var student := store.Create(name, rollno, address, db);
    if student.None? {
      return Response(500, Error(ServerError));
    }
    response := Response(200, Saved(DataSaved, student.value));
  }

  // -------------------------------------------------------------------- /ai

  const Failed := Outcome(Response(500, Error(AiRequestFailed)), None)

  /**
   * What the JSON the model returned must hold for a row to be created:
   * property access works, rollno reads as a Number other than NaN, and name and address
   * are non-empty strings (truthy, and `.trim()` exists on them).
   */
  predicate Extractable(parsed: JsValue) {
    && !IsNullish(parsed)
    && ParseIntValue(Prop(parsed, "rollno")).Normal?
    && !ParseIntValue(Prop(parsed, "rollno")).value.NaN?
    && Prop(parsed, "name").Str? && Prop(parsed, "name").s != []
    && Prop(parsed, "address").Str? && Prop(parsed, "address").s != []
  }

  /** The data-incomplete case: rollno was read without throwing, but a check failed. */
  predicate Incomplete(parsed: JsValue) {
    && !IsNullish(parsed)
    && ParseIntValue(Prop(parsed, "rollno")).Normal?
    && (|| !ToBoolean(Prop(parsed, "name"))
        || !ToBoolean(Prop(parsed, "address"))
        || ParseIntValue(Prop(parsed, "rollno")).value.NaN?)
  }

  /**
   * The decision `/ai` makes once the model's reply parsed as JSON. A row is
   * created only from an extractable value, with name and address trimmed and
   * rollno the integer parseInt read; an incomplete value is echoed back with
   * 400; anything that throws, and a database failure, gives 500.
   */
  function ExtractSpec(parsed: JsValue, db: DbOutcome): (o: Outcome)
    ensures o.created.Some? <==> Extractable(parsed) && db.Stored?
    ensures o.created.Some? ==>
      && o.created.value == Student(db.id,
           Str(Trim(Prop(parsed, "name").s)),
           NumberValue(ParseIntValue(Prop(parsed, "rollno")).value),
           Str(Trim(Prop(parsed, "address").s)))
      && o.response == Response(200, Saved(AiSubmitted, o.created.value))
    ensures Incomplete(parsed) <==> o.response == Response(400, ErrorWithData(IncompleteData, parsed))
    ensures !Incomplete(parsed) && o.created.None? ==> o == Failed
  {
    if IsNullish(parsed) then Failed  // `parsed.rollno` throws
    else match ParseIntValue(Prop(parsed, "rollno"))
      case Throw => Failed
      case Normal(rollnoInt) =>
        var name, address := Prop(parsed, "name"), Prop(parsed, "address");
        if !ToBoolean(name) || !ToBoolean(address) || rollnoInt.NaN? then
          Outcome(Response(400, ErrorWithData(IncompleteData, parsed)), None)
        else if !name.Str? || !address.Str? then
          Failed  // `.trim` is not a function of a number, boolean, array or object
        else if db.DbFailed? then
          Failed
        else
          var s := Student(db.id, Str(Trim(name.s)), NumberValue(rollnoInt), Str(Trim(address.s)));
          Outcome(Response(200, Saved(AiSubmitted, s)), Some(s))
  }

  /** The `text` field `/ai` reads from `req.body || {}`. */
  function Text(body: JsValue): JsValue {
    Prop(OrEmpty(body), "text")
  }

  /**
   * The decision `/ai` makes. Falsy text is refused with 400 before the model
   * is asked; a reply that is not JSON is returned verbatim with 500; a JSON
   * reply is decided by ExtractSpec. Building the prompt throws when the text's
   * ToString does, and a failed model call also gives 500.
   */
  function AiSpec(body: JsValue, model: ModelReply, jsonParse: string -> Option<JsValue>, db: DbOutcome): (o: Outcome)
    ensures !ToBoolean(Text(body)) ==> o == Outcome(Response(400, Error(TextRequired)), None)
    ensures ToBoolean(Text(body)) && !ToStringThrows(Text(body)) && model.Reply? && jsonParse(model.text).None? ==>
      o == Outcome(Response(500, ErrorWithRaw(AiResponseInvalid, model.text)), None)
    ensures ToBoolean(Text(body)) && (ToStringThrows(Text(body)) || model.ModelFailed?) ==> o == Failed
    ensures ToBoolean(Text(body)) && !ToStringThrows(Text(body)) && model.Reply? && jsonParse(model.text).Some? ==>
      o == ExtractSpec(jsonParse(model.text).value, db)
    ensures o.created.Some? ==>
      && ToBoolean(Text(body)) && model.Reply? && jsonParse(model.text).Some?
      && o == ExtractSpec(jsonParse(model.text).value, db)
    ensures o.response.status == 200 <==> o.created.Some?
  {
    var text := Text(body);
    if !ToBoolean(text) then
      Outcome(Response(400, Error(TextRequired)), None)
    else if ToStringThrows(text) || model.ModelFailed? then
      Failed
    else match jsonParse(model.text)
      case None => Outcome(Response(500, ErrorWithRaw(AiResponseInvalid, model.text)), None)
      case Some(parsed) => ExtractSpec(parsed, db)
  }

  /**
   * The `/ai` handler. The model and JSON.parse are supplied by the caller:
   * `model` is the outcome of asking the model about this text, `jsonParse`
   * stands for JSON.parse.
   */
  method Ai(store: Store, body: JsValue, model: ModelReply, jsonParse: string -> Option<JsValue>, db: DbOutcome)
    returns (response: Response)
    modifies store
    ensures response == AiSpec(body, model, jsonParse, db).response
    ensures store.records == old(store.records) + Rows(AiSpec(body, model, jsonParse, db).created)
  {
    var text := Prop(OrEmpty(body), "text");
    if !ToBoolean(text) {
      return Response(400, Error(TextRequired));
    }
    // The prompt embeds `${text}`, which applies ToString.
    if ToStringThrows(text) || model.ModelFailed? {
      return Failed.response;
    }
    var responseText := model.text;
    var parsed := jsonParse(responseText);
    if parsed.None? {
      return Response(500, ErrorWithRaw(AiResponseInvalid, responseText));
    }
    var p := parsed.value;
    if IsNullish(p) {
      return Failed.response;
    }
    var rollnoInt := ParseIntValue(Prop(p, "rollno"));
    if rollnoInt.Throw? {
      return Failed.response;
    }
    if !ToBoolean(Prop(p, "name")) || !ToBoolean(Prop(p, "address")) || rollnoInt.value.NaN? {
      return Response(400, ErrorWithData(IncompleteData, p));
    }
    var name, address := Prop(p, "name"), Prop(p, "address");
    if !name.Str? || !address.Str? {
      return Failed.response;
    }
    var student := store.Create(Str(Trim(name.s)), NumberValue(rollnoInt.value), Str(Trim(address.s)), db);
    if student.None? {
      return Failed.response;
    }
    response := Response(200, Saved(AiSubmitted, student.value));
  }

  // ------------------------------------------------------------- properties

  /** A missing body is read as `{}`, and `/submit` refuses it. */
  lemma MissingBodyRefused(db: DbOutcome)
    ensures SubmitSpec(Undefined, db) == Outcome(Response(400, Error(AllFieldsRequired)), None)
  {
  }

  /** `/submit` stores name and address untrimmed and rollno as sent, whatever its type. */
  lemma SubmitStoresVerbatim(name: string, rollno: JsValue, address: string, id: int)
    requires name != [] && address != [] && ToBoolean(rollno)
    ensures var body := Obj(map["name" := Str(name), "rollno" := rollno, "address" := Str(address)]);
      SubmitSpec(body, Stored(id)).created == Some(Student(id, Str(name), rollno, Str(address)))
  {
  }

  /** Roll number 0 is refused by `/submit` (0 is falsy) but stored by `/ai` (parseInt gives 0, not NaN). */
  lemma RollZeroOnlyAcceptedByAi(name: string, address: string, id: int)
    requires name != [] && address != []
    ensures var v := Obj(map["name" := Str(name), "rollno" := Num(0, 0), "address" := Str(address)]);
      && SubmitSpec(v, Stored(id)).response.status == 400
      && ExtractSpec(v, Stored(id)).created == Some(Student(id, Str(Trim(name)), Num(0, 0), Str(Trim(address))))
  {
    var v := Obj(map["name" := Str(name), "rollno" := Num(0, 0), "address" := Str(address)]);
    assert Prop(v, "rollno") == Num(0, 0);
    assert Prop(v, "name") == Str(name) && Prop(v, "address") == Str(address);
    assert !FieldsPresent(v);
    assert ParseIntValue(Num(0, 0)) == Normal(Int(0));
    assert Extractable(v);
  }

  /** The truthiness check runs before trimming: a blank name passes and is stored as "". */
  lemma BlankNameStoredEmpty(name: string, address: string, n: int, id: int)
    requires name != [] && AllWhiteSpace(name) && address != []
    ensures var v := Obj(map["name" := Str(name), "rollno" := Num(n, 0), "address" := Str(address)]);
      && ExtractSpec(v, Stored(id)).created.Some?
      && ExtractSpec(v, Stored(id)).created.value.name == Str([])
  {
  }

  /** A JSON `null` reply makes `parsed.rollno` throw: 500 and no row. */
  lemma NullReplyFails(db: DbOutcome)
    ensures ExtractSpec(Null, db) == Failed
  {
  }

  /**
   * A reply whose rollno overflowed to Infinity when parsed (the literal 1e400)
   * reads as NaN, since parseInt sees the string "Infinity": 400, no row.
   */
  lemma InfiniteRollIncomplete(name: string, address: string, negative: bool, db: DbOutcome)
    ensures var v := Obj(map["name" := Str(name), "rollno" := NumInfinity(negative), "address" := Str(address)]);
      ExtractSpec(v, db) == Outcome(Response(400, ErrorWithData(IncompleteData, v)), None)
  {
    var v := Obj(map["name" := Str(name), "rollno" := NumInfinity(negative), "address" := Str(address)]);
    assert Prop(v, "rollno") == NumInfinity(negative);
  }

  /** A truthy name or address that is not a string has no `.trim()`: 500 and no row. */
  lemma NonStringNameFails(parsed: JsValue, db: DbOutcome)
    requires !IsNullish(parsed) && ParseIntValue(Prop(parsed, "rollno")).Normal?
    requires !ParseIntValue(Prop(parsed, "rollno")).value.NaN?
    requires ToBoolean(Prop(parsed, "name")) && ToBoolean(Prop(parsed, "address"))
    requires !Prop(parsed, "name").Str? || !Prop(parsed, "address").Str?
    ensures ExtractSpec(parsed, db) == Failed
  {
  }

  /**
   * Every row `/ai` creates holds trimmed, non-blank-edged strings and a roll
   * number that is an integer or, for a string of digits too long for a double, an infinity.
   */
  lemma AiRowsAreClean(body: JsValue, model: ModelReply, jsonParse: string -> Option<JsValue>, db: DbOutcome)
    ensures var o := AiSpec(body, model, jsonParse, db);
      o.created.Some? ==>
        && o.created.value.name.Str? && o.created.value.address.Str?
        && o.created.value.name.s == Trim(o.created.value.name.s)
        && o.created.value.address.s == Trim(o.created.value.address.s)
        && ((o.created.value.rollno.Num? && o.created.value.rollno.exponent == 0) || o.created.value.rollno.NumInfinity?)
  {
  }

  /** No deduplication: submitting the same body twice stores two rows with the same values. */
  method DuplicateSubmissions(body: JsValue, id1: int, id2: int) returns (store: Store)
    requires FieldsPresent(body)
    ensures |store.records| == 2
    ensures store.records[0].id == id1 && store.records[1].id == id2
    ensures store.records[0].name == store.records[1].name
    ensures store.records[0].rollno == store.records[1].rollno
    ensures store.records[0].address == store.records[1].address
  {
    store := new Store();
    var first := Submit(store, body, Stored(id1));
    var second := Submit(store, body, Stored(id2));
  }
}
