/**
 * `AbstractService::validateRESTResponse`: a decoded JSON body is checked against the
 * upstream error shapes in a fixed order, and the first that matches decides the exception.
 */
module RestValidation {
  import opened Wrappers
  import opened PhpValues
  import opened Errors
  import opened Responses

  // ---------------------------------------------------------------- the six shapes, in order

  /** `$body->fault->faultstring` */
  function FaultString(body: Json): Json {
    Prop(Prop(body, "fault"), "faultstring")
  }

  /** 1. An API-key fault. */
  predicate IsApiKeyFault(body: Json) {
    !Empty(FaultString(body)) && FaultString(body) == Str("Invalid ApiKey")
  }

  /** `$body->Envelope->Body->Fault->Reason->Text` */
  function LeakedFaultText(body: Json): Json {
    Path(body, ["Envelope", "Body", "Fault", "Reason", "Text"])
  }

  /** 2. A SOAP fault passed through as JSON. */
  predicate IsLeakedSoapFault(body: Json) {
    IsSet(LeakedFaultText(body))
  }

  /** `$body->Errors->Error` */
  function ErrorList(body: Json): Json {
    Prop(Prop(body, "Errors"), "Error")
  }

  /** 3. `Errors.Error`, iterated as a list. */
  predicate HasErrorList(body: Json) {
    !Empty(ErrorList(body))
  }

  /** 4. `Errors` itself, iterated as a collection. */
  predicate HasErrorCollection(body: Json) {
    !Empty(Prop(body, "Errors"))
  }

  /** `$body->Array->Item->ErrorMsg` */
  function LegacyErrorMsg(body: Json): Json {
    Path(body, ["Array", "Item", "ErrorMsg"])
  }

  /** 5. The legacy single-item shape. */
  predicate HasLegacyItem(body: Json) {
    !Empty(LegacyErrorMsg(body))
  }

  /** `$body->ResponseShipments[0]->Errors`, null when there is no such array entry. */
  function FirstShipmentErrors(body: Json): Json {
    var shipments := Prop(body, "ResponseShipments");
    if shipments.Arr? && shipments.items != [] then Prop(shipments.items[0], "Errors") else Null
  }

  /** 6. A non-empty error array on the first response shipment. */
  predicate HasShipmentErrors(body: Json) {
    FirstShipmentErrors(body).Arr? && FirstShipmentErrors(body).items != []
  }

  predicate MatchesAnyShape(body: Json) {
    IsApiKeyFault(body) || IsLeakedSoapFault(body) || HasErrorList(body) ||
    HasErrorCollection(body) || HasLegacyItem(body) || HasShipmentErrors(body)
  }

  // ---------------------------------------------------------------- building the records

  /** The two iterated shapes differ only in the fallback fields of an entry without `ErrorMsg`. */
  datatype ErrorsForm = ListForm | CollectionForm

  /** The leaked fault's message: the member named "" of the Text object, else "Unknown". */
  function FaultMessage(text: Json): (m: Json)
    ensures m != Null
  {
    var member := Prop(text, "");
    if IsSet(member) then member else Str("Unknown")
  }

  /** `isset($v) ? (string) $v : null` */
  function StringOrNull(v: Json): (r: Result<Json, ServiceError>)
    ensures !IsSet(v) ==> r == Success(Null)
    ensures v.Obj? <==> r == Failure(StringConversion)
    ensures r.Success? && IsSet(v) ==> r.value.Str? && Some(r.value.s) == ToStr(v)
  {
    if !IsSet(v) then Success(Null)
    else match ToStr(v)
      case Some(s) => Success(Str(s))
      case None => Failure(StringConversion)
  }

  /** `isset($v) ? (int) $v : 0` */
  function CodeOrZero(v: Json): int {
    if IsSet(v) then ToInt(v) else 0
  }

  /** The record one iterated entry contributes, or the Error a string cast throws. */
  function EntryRecord(form: ErrorsForm, entry: Json): (r: Result<ErrorRecord, ServiceError>)
    ensures r.Failure? ==> r.error == StringConversion
  {
    var errorMsg := Prop(entry, "ErrorMsg");
    if IsSet(errorMsg) then
      Success(ErrorRecord(errorMsg, errorMsg, CodeOrZero(Prop(entry, "ErrorNumber"))))
    else
      match StringOrNull(Prop(entry, "Description"))
      case Failure(e) => Failure(e)
      case Success(description) =>
        if form == ListForm then
          Success(ErrorRecord(description, Null, CodeOrZero(Prop(entry, "ErrorNumber"))))
        else
          match StringOrNull(Prop(entry, "Error"))
          case Failure(e) => Failure(e)
          case Success(message) => Success(ErrorRecord(description, message, CodeOrZero(Prop(entry, "Code"))))
  }

  /** The `foreach` that collects one record per entry; the first failing cast aborts it. */
  function Records(form: ErrorsForm, entries: seq<Json>): (r: Result<seq<ErrorRecord>, ServiceError>)
    ensures r.Success? ==>
      |r.value| == |entries| &&
      forall i :: 0 <= i < |entries| ==> EntryRecord(form, entries[i]) == Success(r.value[i])
    ensures r.Failure? ==>
      exists i :: 0 <= i < |entries| && EntryRecord(form, entries[i]) == Failure(r.error) &&
        forall j :: 0 <= j < i ==> EntryRecord(form, entries[j]).Success?
    decreases |entries|
  {
    if entries == [] then Success([])
    else
      match EntryRecord(form, entries[0])
      case Failure(e) => Failure(e)
      case Success(first) =>
        match Records(form, entries[1..])
        case Failure(e) => Failure(e)
        case Success(rest) => Success([first] + rest)
  }

  function RaiseCif(records: Result<seq<ErrorRecord>, ServiceError>): Outcome<ServiceError> {
    match records
    case Success(rs) => Fail(Cif(rs))
    case Failure(e) => Fail(e)
  }

  // ---------------------------------------------------------------- the classifier

  /** The verdict on a decoded body: Pass (the source's `true`) or the exception thrown. */
  function ClassifyRestBody(body: Json): (r: Outcome<ServiceError>)
    ensures r.Pass? <==> !MatchesAnyShape(body)
    ensures IsApiKeyFault(body) ==> r == Fail(InvalidConfiguration("Invalid Api Key"))
    ensures !IsApiKeyFault(body) && IsLeakedSoapFault(body) ==>
      r == Fail(CifDown(FaultMessage(LeakedFaultText(body))))
    ensures r.Fail? && r.error.InvalidConfiguration? ==> IsApiKeyFault(body)
    ensures r.Fail? && r.error.CifDown? ==> !IsApiKeyFault(body) && IsLeakedSoapFault(body)
    ensures r.Fail? && !IsApiKeyFault(body) && !IsLeakedSoapFault(body) ==>
      r.error.Cif? || r.error == StringConversion
  {
    if IsApiKeyFault(body) then
      Fail(InvalidConfiguration("Invalid Api Key"))
    else if IsLeakedSoapFault(body) then
      Fail(CifDown(FaultMessage(LeakedFaultText(body))))
    else if HasErrorList(body) then
      RaiseCif(Records(ListForm, Elements(ErrorList(body))))
    else if HasErrorCollection(body) then
      RaiseCif(Records(CollectionForm, Elements(Prop(body, "Errors"))))
    else if HasLegacyItem(body) then
      match ToStr(LegacyErrorMsg(body))
      case Some(s) => Fail(Cif([ErrorRecord(Str(s), Str(s), 0)]))
      case None => Fail(StringConversion)
    else if HasShipmentErrors(body) then
      var description := Prop(FirstShipmentErrors(body).items[0], "Description");
      match StringOrNull(description)
      case Success(text) => Fail(Cif([ErrorRecord(text, text, CodeOrZero(description))]))
      case Failure(e) => Fail(e)
    else
      Pass
  }

  /** `validateRESTResponse`: read the body text, decode it, classify it. JSON decoding is
      the `decode` parameter (null for text that is not JSON). */
  function ValidateRestResponse(response: Input, decode: string -> Json): (r: Outcome<ServiceError>)
    ensures GetResponseText(response).Failure? ==> r == Fail(GetResponseText(response).error)
    ensures GetResponseText(response).Success? ==>
      (r.Pass? <==> !MatchesAnyShape(decode(GetResponseText(response).value)))
  {
    match GetResponseText(response)
    case Failure(e) => Fail(e)
    case Success(text) => ClassifyRestBody(decode(text))
  }

  // ---------------------------------------------------------------- properties

  /** A body that does not decode is not an error. */
  lemma UndecodableBodyPasses()
    ensures ClassifyRestBody(Null) == Pass
  {
  }

  /** Which of the two iterated shapes applies, and the entries it iterates. */
  function IteratedForm(body: Json): ErrorsForm {
    if HasErrorList(body) then ListForm else CollectionForm
  }

  function IteratedEntries(body: Json): seq<Json> {
    if HasErrorList(body) then Elements(ErrorList(body)) else Elements(Prop(body, "Errors"))
  }

  lemma IteratedShapeClassification(body: Json)
    requires !IsApiKeyFault(body) && !IsLeakedSoapFault(body)
    requires HasErrorList(body) || HasErrorCollection(body)
    ensures ClassifyRestBody(body) == RaiseCif(Records(IteratedForm(body), IteratedEntries(body)))
  {
  }

  /** Both iterated shapes: the CifException carries exactly one record per entry, in
      order; an entry with `ErrorMsg` uses it as message and description and takes its
      code from `ErrorNumber`. */
  lemma IteratedShapeRecords(body: Json)
    requires !IsApiKeyFault(body) && !IsLeakedSoapFault(body)
    requires HasErrorList(body) || HasErrorCollection(body)
    requires ClassifyRestBody(body) != Fail(StringConversion)
    ensures var r := ClassifyRestBody(body);
      var entries := IteratedEntries(body);
      r.Fail? && r.error.Cif? && |r.error.errors| == |entries| &&
      forall i :: 0 <= i < |entries| && IsSet(Prop(entries[i], "ErrorMsg")) ==>
        r.error.errors[i] == ErrorRecord(Prop(entries[i], "ErrorMsg"), Prop(entries[i], "ErrorMsg"),
                                         CodeOrZero(Prop(entries[i], "ErrorNumber")))
  {
    IteratedShapeClassification(body);
    var rs := Records(IteratedForm(body), IteratedEntries(body));
    assert rs.Success?;
  }

  /** Both iterated shapes: when no entry's `Description` (nor, in the collection form,
      `Error`) is an object, no cast fails and a CifException is raised. */
  lemma IteratedShapeRaisesCif(body: Json)
    requires !IsApiKeyFault(body) && !IsLeakedSoapFault(body)
    requires HasErrorList(body) || HasErrorCollection(body)
    requires forall e :: e in IteratedEntries(body) ==> !Prop(e, "Description").Obj? && !Prop(e, "Error").Obj?
    ensures ClassifyRestBody(body).Fail? && ClassifyRestBody(body).error.Cif?
  {
    IteratedShapeClassification(body);
    RecordsSucceed(IteratedForm(body), IteratedEntries(body));
  }

  /** No string cast fails when no entry's `Description` or `Error` is an object. */
  lemma RecordsSucceed(form: ErrorsForm, entries: seq<Json>)
    requires forall e :: e in entries ==> !Prop(e, "Description").Obj? && !Prop(e, "Error").Obj?
    ensures Records(form, entries).Success?
  {
    forall i | 0 <= i < |entries|
      ensures EntryRecord(form, entries[i]).Success?
    {
      assert entries[i] in entries;
    }
  }

  /** The list form: an entry without `ErrorMsg` gives its `Description` (as a string) and
      a null message, with the code still from `ErrorNumber`. */
  lemma ListEntryWithoutErrorMsg(entry: Json)
    requires !IsSet(Prop(entry, "ErrorMsg")) && !Prop(entry, "Description").Obj?
    ensures EntryRecord(ListForm, entry) ==
      Success(ErrorRecord(StringOrNull(Prop(entry, "Description")).value, Null, CodeOrZero(Prop(entry, "ErrorNumber"))))
  {
  }

  /** The collection form: an entry without `ErrorMsg` falls back to `Description`,
      `Error` and `Code`. */
  lemma CollectionEntryWithoutErrorMsg(entry: Json)
    requires !IsSet(Prop(entry, "ErrorMsg")) && !Prop(entry, "Description").Obj? && !Prop(entry, "Error").Obj?
    ensures EntryRecord(CollectionForm, entry) ==
      Success(ErrorRecord(StringOrNull(Prop(entry, "Description")).value, StringOrNull(Prop(entry, "Error")).value,
                          CodeOrZero(Prop(entry, "Code"))))
  {
  }

  /** The legacy shapes raise exactly one record: `Array.Item.ErrorMsg` with code 0, or the
      first shipment error's `Description` as message, description and cast code. */
  lemma LegacyShapesSingleRecord(body: Json)
    requires !IsApiKeyFault(body) && !IsLeakedSoapFault(body) && !HasErrorList(body) && !HasErrorCollection(body)
    ensures HasLegacyItem(body) && ClassifyRestBody(body) != Fail(StringConversion) ==>
      ClassifyRestBody(body) == Fail(Cif([ErrorRecord(Str(ToStr(LegacyErrorMsg(body)).value), Str(ToStr(LegacyErrorMsg(body)).value), 0)]))
    ensures !HasLegacyItem(body) && HasShipmentErrors(body) && ClassifyRestBody(body) != Fail(StringConversion) ==>
      var d := Prop(FirstShipmentErrors(body).items[0], "Description");
      ClassifyRestBody(body) == Fail(Cif([ErrorRecord(StringOrNull(d).value, StringOrNull(d).value, if IsSet(d) then ToInt(d) else 0)]))
  {
  }

  /** `{"Errors":{"Error":[{"ErrorMsg":"X","ErrorNumber":5}]}}` raises one record, code 5, message "X". */
  lemma SingleListedError()
    ensures ClassifyRestBody(Obj([("Errors", Obj([("Error", Arr([Obj([("ErrorMsg", Str("X")), ("ErrorNumber", Int(5))])]))]))]))
      == Fail(Cif([ErrorRecord(Str("X"), Str("X"), 5)]))
  {
    var entry := Obj([("ErrorMsg", Str("X")), ("ErrorNumber", Int(5))]);
    var body := Obj([("Errors", Obj([("Error", Arr([entry]))]))]);
    assert Prop(body, "fault") == Null;
    assert Prop(body, "Envelope") == Null;
    PathFromNull(["Body", "Fault", "Reason", "Text"]);
    assert !IsLeakedSoapFault(body);
    assert ErrorList(body) == Arr([entry]);
    assert Prop(entry, "ErrorMsg") == Str("X");
    assert Prop(entry, "ErrorNumber") == Int(5);
    assert EntryRecord(ListForm, entry) == Success(ErrorRecord(Str("X"), Str("X"), 5));
    assert [entry][1..] == [];
    assert Records(ListForm, []) == Success([]);
    assert [ErrorRecord(Str("X"), Str("X"), 5)] + [] == [ErrorRecord(Str("X"), Str("X"), 5)];
    assert Records(ListForm, [entry]) == Success([ErrorRecord(Str("X"), Str("X"), 5)]);
  }

  /** An API-key fault wins over every other field, whatever they hold. */
  lemma ApiKeyFaultWins(rest: seq<(string, Json)>)
    ensures var body := Obj([("fault", Obj([("faultstring", Str("Invalid ApiKey"))]))] + rest);
      ClassifyRestBody(body) == Fail(InvalidConfiguration("Invalid Api Key"))
  {
    var fault := Obj([("faultstring", Str("Invalid ApiKey"))]);
    var props := [("fault", fault)] + rest;
    assert props[0] == ("fault", fault);
    assert Prop(Obj(props), "fault") == fault;
    assert IsApiKeyFault(Obj(props));
  }
}
