/**
 * The three record shapes a client may submit: Timetable, Resource and Doubt. Each schema is
 * given twice: declaratively, as a map from field name to the constraint on that field, and as a
 * validator that reads a request body into a typed record. The validators' contracts tie the two
 * together: a body is accepted exactly when no field breaks its constraint, and a rejection
 * names every field that does.
 */
module Schemas {
  import opened Wrappers
  import opened Errors
  import opened Text
  import opened Documents

  // ---------------------------------------------------------------------------------------------
  // Schema kinds and their collections

  datatype Kind = TimetableKind | ResourceKind | DoubtKind

  function ClassName(k: Kind): string
  {
    match k
    case TimetableKind => "Timetable"
    case ResourceKind => "Resource"
    case DoubtKind => "Doubt"
  }

  /** Each schema is stored in the collection named by the lower-case form of its class name. */
  function CollectionName(k: Kind): string
  {
    Lower(ClassName(k))
  }

  lemma CollectionNames()
    ensures CollectionName(TimetableKind) == "timetable"
    ensures CollectionName(ResourceKind) == "resource"
    ensures CollectionName(DoubtKind) == "doubt"
  {
    TimetableCollectionName();
    ResourceCollectionName();
    DoubtCollectionName();
  }

  lemma TimetableCollectionName()
    ensures CollectionName(TimetableKind) == "timetable"
  {
    LowerOfCapitalised("T", "imetable", "timetable");
  }

  lemma ResourceCollectionName()
    ensures CollectionName(ResourceKind) == "resource"
  {
    LowerOfCapitalised("R", "esource", "resource");
  }

  lemma DoubtCollectionName()
    ensures CollectionName(DoubtKind) == "doubt"
  {
    LowerOfCapitalised("D", "oubt", "doubt");
  }

  /** A capital letter followed by lower-case letters lower-cases to `t`. */
  lemma LowerOfCapitalised(head: string, rest: string, t: string)
    requires |head| == 1 && 'A' <= head[0] <= 'Z'
    requires forall i :: 0 <= i < |rest| ==> 'a' <= rest[i] <= 'z'
    requires t == [(head[0] as int + 32) as char] + rest
    ensures Lower(head + rest) == t
  {
    assert Lower(head + rest) == [LowerChar(head[0])] + Lower(rest) by {
      assert (head + rest)[1..] == rest;
    }
    assert Lower(rest) == rest;
  }

  /** No two schemas share a collection. */
  lemma CollectionNamesDistinct(a: Kind, b: Kind)
    ensures a != b ==> CollectionName(a) != CollectionName(b)
  {
    CollectionNames();
  }

  // ---------------------------------------------------------------------------------------------
  // Closed sets of literals

  datatype Weekday = Monday | Tuesday | Wednesday | Thursday | Friday | Saturday | Sunday

  function DayName(d: Weekday): string
  {
    match d
    case Monday => "Monday"
    case Tuesday => "Tuesday"
    case Wednesday => "Wednesday"
    case Thursday => "Thursday"
    case Friday => "Friday"
    case Saturday => "Saturday"
    case Sunday => "Sunday"
  }

  const WeekdayNames: set<string> :=
    {"Monday", "Tuesday", "Wednesday", "Thursday", "Friday", "Saturday", "Sunday"}

  function DayFromName(s: string): (r: Option<Weekday>)
    ensures r.Some? <==> s in WeekdayNames
    ensures r.Some? ==> DayName(r.value) == s
  {
    if s == "Monday" then Some(Monday)
    else if s == "Tuesday" then Some(Tuesday)
    else if s == "Wednesday" then Some(Wednesday)
    else if s == "Thursday" then Some(Thursday)
    else if s == "Friday" then Some(Friday)
    else if s == "Saturday" then Some(Saturday)
    else if s == "Sunday" then Some(Sunday)
    else None
  }

  lemma DayNameRoundTrip(d: Weekday)
    ensures DayFromName(DayName(d)) == Some(d)
  {
    match d
    case Monday =>
    case Tuesday =>
    case Wednesday =>
    case Thursday =>
    case Friday =>
    case Saturday =>
    case Sunday =>
  }

  datatype Status = Open | Answered

  function StatusName(s: Status): string
  {
    match s
    case Open => "open"
    case Answered => "answered"
  }

  const StatusNames: set<string> := {"open", "answered"}

  function StatusFromName(s: string): (r: Option<Status>)
    ensures r.Some? <==> s in StatusNames
    ensures r.Some? ==> StatusName(r.value) == s
  {
    if s == "open" then Some(Open) else if s == "answered" then Some(Answered) else None
  }

  // ---------------------------------------------------------------------------------------------
  // Declarative schemas

  /** The constraint a schema puts on one field. */
  datatype FieldSpec =
    | Required                                        // `str`, no default
    | Optional                                        // `Optional[str]`, default None
    | OneOf(allowed: set<string>)                     // `Literal[...]`, no default
    | OneOfOrDefault(allowed: set<string>, fallback: string)  // `Literal[...]` with a default

  type Schema = map<string, FieldSpec>

  /** Fields a schema does not name are ignored; this says whether field `f` of `b` is acceptable. */
  predicate FieldAccepted(b: Doc, f: string, spec: FieldSpec)
  {
    match spec
    case Required => f in b && b[f].Str?
    case Optional => f !in b || b[f].Null? || b[f].Str?
    case OneOf(allowed) => f in b && b[f].Str? && b[f].s in allowed
    case OneOfOrDefault(allowed, _) => f !in b || (b[f].Str? && b[f].s in allowed)
  }

  /** The fields of `b` that break their constraint; only declared fields are ever named. */
  function Rejected(schema: Schema, b: Doc): (r: set<string>)
    ensures r <= schema.Keys
    ensures forall f :: f in schema && FieldAccepted(b, f, schema[f]) ==> f !in r
  {
    set f | f in schema && !FieldAccepted(b, f, schema[f])
  }

  lemma RejectedOne(f: string, spec: FieldSpec, b: Doc)
    ensures Rejected(map[f := spec], b) == if FieldAccepted(b, f, spec) then {} else {f}
  {
  }

  /** Declaring one more field adds that field to the rejected ones exactly when the body breaks it. */
  lemma RejectedAdd(schema: Schema, f: string, spec: FieldSpec, b: Doc)
    requires f !in schema
    ensures Rejected(schema[f := spec], b)
      == Rejected(schema, b) + (if FieldAccepted(b, f, spec) then {} else {f})
  {
  }

  const TimetableSchema: Schema := map[
    "day" := OneOf(WeekdayNames),
    "subject" := Required,
    "start_time" := Required,
    "end_time" := Required,
    "location" := Optional,
    "notes" := Optional]

  const ResourceSchema: Schema := map[
    "title" := Required,
    "url" := Optional,
    "topic" := Optional,
    "description" := Optional]

  const DoubtSchema: Schema := map[
    "question" := Required,
    "student_name" := Optional,
    "answer" := Optional,
    "answered_by" := Optional,
    "status" := OneOfOrDefault(StatusNames, "open")]

  /** An optional string field: left out, null, or a string. */
  predicate OptionalString(b: Doc, f: string)
  {
    f !in b || b[f].Null? || b[f].Str?
  }

  /**
   * `Timetable` declares six fields: a required `day` among the seven day names, three required
   * strings and two optional strings; a body is accepted exactly when each of them is.
   */
  lemma TimetableAccepts(b: Doc)
    ensures TimetableSchema.Keys == {"day", "subject", "start_time", "end_time", "location", "notes"}
    ensures Rejected(TimetableSchema, b) == {} <==>
      && Given(b, "day").Some? && Given(b, "day").value in WeekdayNames
      && Given(b, "subject").Some? && Given(b, "start_time").Some? && Given(b, "end_time").Some?
      && OptionalString(b, "location") && OptionalString(b, "notes")
  {
    var rej := Rejected(TimetableSchema, b);
    assert "day" in rej <==> !(Given(b, "day").Some? && Given(b, "day").value in WeekdayNames);
    assert "subject" in rej <==> Given(b, "subject").None?;
    assert "start_time" in rej <==> Given(b, "start_time").None?;
    assert "end_time" in rej <==> Given(b, "end_time").None?;
    assert "location" in rej <==> !OptionalString(b, "location");
    assert "notes" in rej <==> !OptionalString(b, "notes");
  }

  /** `Resource` declares a required `title` and three optional strings. */
  lemma ResourceAccepts(b: Doc)
    ensures ResourceSchema.Keys == {"title", "url", "topic", "description"}
    ensures Rejected(ResourceSchema, b) == {} <==>
      && Given(b, "title").Some?
      && OptionalString(b, "url") && OptionalString(b, "topic") && OptionalString(b, "description")
  {
    var rej := Rejected(ResourceSchema, b);
    assert "title" in rej <==> Given(b, "title").None?;
    assert "url" in rej <==> !OptionalString(b, "url");
    assert "topic" in rej <==> !OptionalString(b, "topic");
    assert "description" in rej <==> !OptionalString(b, "description");
  }

  /**
   * `Doubt` declares a required `question`, three optional strings and a `status` that may be left
   * out (it defaults to "open") but otherwise must be "open" or "answered".
   */
  lemma DoubtAccepts(b: Doc)
    ensures DoubtSchema.Keys == {"question", "student_name", "answer", "answered_by", "status"}
    ensures Rejected(DoubtSchema, b) == {} <==>
      && Given(b, "question").Some?
      && OptionalString(b, "student_name") && OptionalString(b, "answer")
      && OptionalString(b, "answered_by")
      && ("status" in b ==> Given(b, "status").Some? && Given(b, "status").value in StatusNames)
  {
    var rej := Rejected(DoubtSchema, b);
    assert "question" in rej <==> Given(b, "question").None?;
    assert "student_name" in rej <==> !OptionalString(b, "student_name");
    assert "answer" in rej <==> !OptionalString(b, "answer");
    assert "answered_by" in rej <==> !OptionalString(b, "answered_by");
    assert "status" in rej <==>
      !("status" in b ==> Given(b, "status").Some? && Given(b, "status").value in StatusNames);
  }

  // ---------------------------------------------------------------------------------------------
  // Reading one field

  datatype Field<T> = Valid(value: T) | Invalid(name: string)

  function Offending<T>(r: Field<T>): set<string>
  {
    if r.Invalid? then {r.name} else {}
  }

  function ReadString(b: Doc, f: string): (r: Field<string>)
    ensures Offending(r) == if FieldAccepted(b, f, Required) then {} else {f}
    ensures r.Valid? ==> Given(b, f) == Some(r.value)
  {
    if f in b && b[f].Str? then Valid(b[f].s) else Invalid(f)
  }

  function ReadOptional(b: Doc, f: string): (r: Field<Option<string>>)
    ensures Offending(r) == if FieldAccepted(b, f, Optional) then {} else {f}
    ensures r.Valid? ==> r.value == Given(b, f)
  {
    if f !in b || b[f].Null? then Valid(None)
    else if b[f].Str? then Valid(Some(b[f].s))
    else Invalid(f)
  }

  function ReadDay(b: Doc): (r: Field<Weekday>)
    ensures Offending(r) == if FieldAccepted(b, "day", OneOf(WeekdayNames)) then {} else {"day"}
    ensures r.Valid? ==> Given(b, "day") == Some(DayName(r.value))
  {
    match ReadString(b, "day")
    case Invalid(f) => Invalid(f)
    case Valid(s) =>
      match DayFromName(s)
      case Some(d) => Valid(d)
      case None => Invalid("day")
  }

  function ReadStatus(b: Doc): (r: Field<Status>)
    ensures Offending(r) ==
      if FieldAccepted(b, "status", OneOfOrDefault(StatusNames, "open")) then {} else {"status"}
    ensures r.Valid? && "status" in b ==> b["status"].Str? && StatusName(r.value) == b["status"].s
    ensures r.Valid? && "status" !in b ==> r.value == Open
  {
    if "status" !in b then Valid(Open)
    else if b["status"].Str? && StatusFromName(b["status"].s).Some? then
      Valid(StatusFromName(b["status"].s).value)
    else
      Invalid("status")
  }

  // ---------------------------------------------------------------------------------------------
  // Timetable

  datatype Timetable = Timetable(
    day: Weekday,
    subject: string,
    startTime: string,  // "HH:MM" by convention; neither the form nor the order of the times is checked
    endTime: string,
    location: Option<string>,
    notes: Option<string>)

  lemma TimetableRejected(b: Doc)
    ensures Rejected(TimetableSchema, b) ==
      Offending(ReadDay(b)) + Offending(ReadString(b, "subject")) + Offending(ReadString(b, "start_time"))
      + Offending(ReadString(b, "end_time")) + Offending(ReadOptional(b, "location"))
      + Offending(ReadOptional(b, "notes"))
  {
    var s1: Schema := map["day" := OneOf(WeekdayNames)];
    var s2 := s1["subject" := Required];
    var s3 := s2["start_time" := Required];
    var s4 := s3["end_time" := Required];
    var s5 := s4["location" := Optional];
    var s6 := s5["notes" := Optional];
    assert s6 == TimetableSchema;
    RejectedOne("day", OneOf(WeekdayNames), b);
    RejectedAdd(s1, "subject", Required, b);
    RejectedAdd(s2, "start_time", Required, b);
    RejectedAdd(s3, "end_time", Required, b);
    RejectedAdd(s4, "location", Optional, b);
    RejectedAdd(s5, "notes", Optional, b);
  }

  /** Pydantic's validation of a request body against `Timetable`. */
  function ValidateTimetable(b: Doc): (r: Result<Timetable, Error>)
    ensures r.Ok? <==> Rejected(TimetableSchema, b) == {}
    ensures r.Err? ==> r.error == ValidationError(Rejected(TimetableSchema, b))
    ensures r.Ok? ==>
      && Given(b, "day") == Some(DayName(r.value.day))
      && Given(b, "subject") == Some(r.value.subject)
      && Given(b, "start_time") == Some(r.value.startTime)
      && Given(b, "end_time") == Some(r.value.endTime)
      && r.value.location == Given(b, "location")
      && r.value.notes == Given(b, "notes")
  {
    var day, subject := ReadDay(b), ReadString(b, "subject");
    var start, end := ReadString(b, "start_time"), ReadString(b, "end_time");
    var location, notes := ReadOptional(b, "location"), ReadOptional(b, "notes");
    var bad := Offending(day) + Offending(subject) + Offending(start) + Offending(end)
               + Offending(location) + Offending(notes);
    TimetableRejected(b);
    if bad == {} then
      Ok(Timetable(day.value, subject.value, start.value, end.value, location.value, notes.value))
    else
      Err(ValidationError(bad))
  }

  /** The document stored for an entry: every schema field, None written as null. */
  function TimetableDocument(t: Timetable): (d: Doc)
    ensures d.Keys == TimetableSchema.Keys
  {
    map[
      "day" := Str(DayName(t.day)),
      "subject" := Str(t.subject),
      "start_time" := Str(t.startTime),
      "end_time" := Str(t.endTime),
      "location" := OptionalValue(t.location),
      "notes" := OptionalValue(t.notes)]
  }

  /** A stored entry validates back to the entry it was made from. */
  lemma TimetableRoundTrip(t: Timetable)
    ensures ValidateTimetable(TimetableDocument(t)) == Ok(t)
  {
    var d := TimetableDocument(t);
    DayNameRoundTrip(t.day);
    assert ReadDay(d) == Valid(t.day);
    assert ReadString(d, "subject") == Valid(t.subject);
    assert ReadString(d, "start_time") == Valid(t.startTime);
    assert ReadString(d, "end_time") == Valid(t.endTime);
    assert ReadOptional(d, "location") == Valid(t.location);
    assert ReadOptional(d, "notes") == Valid(t.notes);
  }

  // ---------------------------------------------------------------------------------------------
  // Resource

  datatype Resource = Resource(
    title: string,
    url: Option<string>,  // not checked to be a URL
    topic: Option<string>,
    description: Option<string>)

  lemma ResourceRejected(b: Doc)
    ensures Rejected(ResourceSchema, b) ==
      Offending(ReadString(b, "title")) + Offending(ReadOptional(b, "url"))
      + Offending(ReadOptional(b, "topic")) + Offending(ReadOptional(b, "description"))
  {
    var s1: Schema := map["title" := Required];
    var s2 := s1["url" := Optional];
    var s3 := s2["topic" := Optional];
    var s4 := s3["description" := Optional];
    assert s4 == ResourceSchema;
    RejectedOne("title", Required, b);
    RejectedAdd(s1, "url", Optional, b);
    RejectedAdd(s2, "topic", Optional, b);
    RejectedAdd(s3, "description", Optional, b);
  }

  /** Pydantic's validation of a request body against `Resource`. */
  function ValidateResource(b: Doc): (r: Result<Resource, Error>)
    ensures r.Ok? <==> Rejected(ResourceSchema, b) == {}
    ensures r.Err? ==> r.error == ValidationError(Rejected(ResourceSchema, b))
    ensures r.Ok? ==>
      && Given(b, "title") == Some(r.value.title)
      && r.value.url == Given(b, "url")
      && r.value.topic == Given(b, "topic")
      && r.value.description == Given(b, "description")
  {
    var title, url := ReadString(b, "title"), ReadOptional(b, "url");
    var topic, description := ReadOptional(b, "topic"), ReadOptional(b, "description");
    var bad := Offending(title) + Offending(url) + Offending(topic) + Offending(description);
    ResourceRejected(b);
    if bad == {} then
      Ok(Resource(title.value, url.value, topic.value, description.value))
    else
      Err(ValidationError(bad))
  }

  function ResourceDocument(r: Resource): (d: Doc)
    ensures d.Keys == ResourceSchema.Keys
  {
    map[
      "title" := Str(r.title),
      "url" := OptionalValue(r.url),
      "topic" := OptionalValue(r.topic),
      "description" := OptionalValue(r.description)]
  }

  /** A stored resource validates back to the resource it was made from. */
  lemma ResourceRoundTrip(r: Resource)
    ensures ValidateResource(ResourceDocument(r)) == Ok(r)
  {
    var d := ResourceDocument(r);
    assert ReadString(d, "title") == Valid(r.title);
    assert ReadOptional(d, "url") == Valid(r.url);
    assert ReadOptional(d, "topic") == Valid(r.topic);
    assert ReadOptional(d, "description") == Valid(r.description);
  }

  // ---------------------------------------------------------------------------------------------
  // Doubt

  datatype Doubt = Doubt(
    question: string,
    studentName: Option<string>,
    answer: Option<string>,
    answeredBy: Option<string>,
    status: Status)

  lemma DoubtRejected(b: Doc)
    ensures Rejected(DoubtSchema, b) ==
      Offending(ReadString(b, "question")) + Offending(ReadOptional(b, "student_name"))
      + Offending(ReadOptional(b, "answer")) + Offending(ReadOptional(b, "answered_by"))
      + Offending(ReadStatus(b))
  {
    var s1: Schema := map["question" := Required];
    var s2 := s1["student_name" := Optional];
    var s3 := s2["answer" := Optional];
    var s4 := s3["answered_by" := Optional];
    var s5 := s4["status" := OneOfOrDefault(StatusNames, "open")];
    assert s5 == DoubtSchema;
    RejectedOne("question", Required, b);
    RejectedAdd(s1, "student_name", Optional, b);
    RejectedAdd(s2, "answer", Optional, b);
    RejectedAdd(s3, "answered_by", Optional, b);
    RejectedAdd(s4, "status", OneOfOrDefault(StatusNames, "open"), b);
  }

  /** Pydantic's validation of a request body against `Doubt`. */
  function ValidateDoubt(b: Doc): (r: Result<Doubt, Error>)
    ensures r.Ok? <==> Rejected(DoubtSchema, b) == {}
    ensures r.Err? ==> r.error == ValidationError(Rejected(DoubtSchema, b))
    ensures r.Ok? ==>
      && Given(b, "question") == Some(r.value.question)
      && r.value.studentName == Given(b, "student_name")
      && r.value.answer == Given(b, "answer")
      && r.value.answeredBy == Given(b, "answered_by")
      && ("status" in b ==> Given(b, "status") == Some(StatusName(r.value.status)))
      && ("status" !in b ==> r.value.status == Open)
  {
    var question, studentName := ReadString(b, "question"), ReadOptional(b, "student_name");
    var answer, answeredBy := ReadOptional(b, "answer"), ReadOptional(b, "answered_by");
    var status := ReadStatus(b);
    var bad := Offending(question) + Offending(studentName) + Offending(answer)
               + Offending(answeredBy) + Offending(status);
    DoubtRejected(b);
    if bad == {} then
      Ok(Doubt(question.value, studentName.value, answer.value, answeredBy.value, status.value))
    else
      Err(ValidationError(bad))
  }

  function DoubtDocument(q: Doubt): (d: Doc)
    ensures d.Keys == DoubtSchema.Keys
  {
    map[
      "question" := Str(q.question),
      "student_name" := OptionalValue(q.studentName),
      "answer" := OptionalValue(q.answer),
      "answered_by" := OptionalValue(q.answeredBy),
      "status" := Str(StatusName(q.status))]
  }

  /** A stored doubt validates back to the doubt it was made from. */
  lemma DoubtRoundTrip(q: Doubt)
    ensures ValidateDoubt(DoubtDocument(q)) == Ok(q)
  {
    var d := DoubtDocument(q);
    assert ReadString(d, "question") == Valid(q.question);
    assert ReadOptional(d, "student_name") == Valid(q.studentName);
    assert ReadOptional(d, "answer") == Valid(q.answer);
    assert ReadOptional(d, "answered_by") == Valid(q.answeredBy);
    assert ReadStatus(d) == Valid(q.status);
  }

  // ---------------------------------------------------------------------------------------------
  // Any kind

  function SchemaOf(k: Kind): Schema
  {
    match k
    case TimetableKind => TimetableSchema
    case ResourceKind => ResourceSchema
    case DoubtKind => DoubtSchema
  }

  /** An optional field that passed validation is stored as the body gave it, or as null. */
  lemma OptionalStored(b: Doc, f: string)
    requires OptionalString(b, f)
    ensures OptionalValue(Given(b, f)) == if f in b then b[f] else Null
  {
  }

  /** A required string field that passed validation is stored as the body gave it. */
  lemma RequiredStored(b: Doc, f: string, s: string)
    requires Given(b, f) == Some(s)
    ensures f in b && b[f] == Str(s)
  {
  }

  /**
   * What is stored for a valid entry is the body's value of each field, null when it was left out
   * (the "status" case belongs to doubts only; entries have no such field).
   */
  lemma TimetableStoresBody(b: Doc, t: Timetable)
    requires ValidateTimetable(b) == Ok(t)
    ensures forall f :: f in TimetableSchema ==>
      TimetableDocument(t)[f] ==
        if f in b then b[f] else if f == "status" then Str("open") else Null
  {
    TimetableAccepts(b);
    RequiredStored(b, "day", DayName(t.day));
    RequiredStored(b, "subject", t.subject);
    RequiredStored(b, "start_time", t.startTime);
    RequiredStored(b, "end_time", t.endTime);
    OptionalStored(b, "location");
    OptionalStored(b, "notes");
    var d := TimetableDocument(t);
    forall f | f in TimetableSchema
      ensures d[f] == if f in b then b[f] else if f == "status" then Str("open") else Null
    {
      assert f in {"day", "subject", "start_time", "end_time", "location", "notes"};
    }
  }

  lemma ResourceStoresBody(b: Doc, r: Resource)
    requires ValidateResource(b) == Ok(r)
    ensures forall f :: f in ResourceSchema ==>
      ResourceDocument(r)[f] ==
        if f in b then b[f] else if f == "status" then Str("open") else Null
  {
    ResourceAccepts(b);
    RequiredStored(b, "title", r.title);
    OptionalStored(b, "url");
    OptionalStored(b, "topic");
    OptionalStored(b, "description");
  }

  /** As for the other kinds, except that a left-out `status` is stored as "open". */
  lemma DoubtStoresBody(b: Doc, q: Doubt)
    requires ValidateDoubt(b) == Ok(q)
    ensures forall f :: f in DoubtSchema ==>
      DoubtDocument(q)[f] ==
        if f in b then b[f] else if f == "status" then Str("open") else Null
  {
    DoubtAccepts(b);
    RequiredStored(b, "question", q.question);
    OptionalStored(b, "student_name");
    OptionalStored(b, "answer");
    OptionalStored(b, "answered_by");
    if "status" in b {
      RequiredStored(b, "status", StatusName(q.status));
    }
    var d := DoubtDocument(q);
    forall f | f in DoubtSchema
      ensures d[f] == if f in b then b[f] else if f == "status" then Str("open") else Null
    {
      assert f in {"question", "student_name", "answer", "answered_by", "status"};
    }
  }

  /** The document a body of kind `k` becomes once it is validated, or why it is refused. */
  function ValidatedDocument(k: Kind, b: Doc): (r: Result<Doc, Error>)
    ensures r.Ok? <==> Rejected(SchemaOf(k), b) == {}
    ensures r.Err? ==> r.error == ValidationError(Rejected(SchemaOf(k), b))
    ensures r.Ok? ==> r.value.Keys == SchemaOf(k).Keys
    ensures r.Ok? ==> forall f :: f in SchemaOf(k) ==>
      r.value[f] == if f in b then b[f] else if f == "status" then Str("open") else Null
  {
    match k
    case TimetableKind =>
      (match ValidateTimetable(b) case Ok(t) => TimetableStoresBody(b, t); Ok(TimetableDocument(t)) case Err(e) => Err(e))
    case ResourceKind =>
      (match ValidateResource(b) case Ok(r) => ResourceStoresBody(b, r); Ok(ResourceDocument(r)) case Err(e) => Err(e))
    case DoubtKind =>
      (match ValidateDoubt(b) case Ok(q) => DoubtStoresBody(b, q); Ok(DoubtDocument(q)) case Err(e) => Err(e))
  }
}
