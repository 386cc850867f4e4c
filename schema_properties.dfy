/** What the three schemas accept and refuse, and the defaults they fill in. */
module SchemaProperties {
  import opened Wrappers
  import opened Errors
  import opened Documents
  import opened Schemas

  /** A `day` outside the seven weekday names, "Funday" say, is refused and named in the error. */
  lemma DayOutsideWeekRejected(b: Doc, s: string)
    requires "day" in b && b["day"] == Str(s) && s !in WeekdayNames
    ensures ValidateTimetable(b).Err? && "day" in ValidateTimetable(b).error.fields
    ensures ValidatedDocument(TimetableKind, b).Err?
  {
    assert "day" in Rejected(TimetableSchema, b);
  }

  lemma FundayRejected(b: Doc)
    requires "day" in b && b["day"] == Str("Funday")
    ensures ValidateTimetable(b).Err? && "day" in ValidateTimetable(b).error.fields
  {
    DayOutsideWeekRejected(b, "Funday");
  }

  /**
   * Any four strings for day name, subject and the two times make an entry: the times are not
   * checked for form or order, and `location` and `notes` default to None.
   */
  lemma TimesNotChecked(day: Weekday, subject: string, start: string, end: string)
    ensures ValidateTimetable(map[
      "day" := Str(DayName(day)), "subject" := Str(subject),
      "start_time" := Str(start), "end_time" := Str(end)])
      == Ok(Timetable(day, subject, start, end, None, None))
  {
    var b := map[
      "day" := Str(DayName(day)), "subject" := Str(subject),
      "start_time" := Str(start), "end_time" := Str(end)];
    DayNameRoundTrip(day);
    assert ReadDay(b) == Valid(day);
    assert ReadOptional(b, "location") == Valid(None);
    assert ReadOptional(b, "notes") == Valid(None);
  }

  lemma EndBeforeStartAccepted()
    ensures ValidateTimetable(map[
      "day" := Str("Monday"), "subject" := Str("Maths"),
      "start_time" := Str("10:00"), "end_time" := Str("09:00")]).Ok?
  {
    TimesNotChecked(Monday, "Maths", "10:00", "09:00");
  }

  /** Each required Timetable field must be present and hold a string. */
  lemma TimetableRequiresFields(b: Doc, f: string)
    requires f in {"day", "subject", "start_time", "end_time"}
    requires f !in b || !b[f].Str?
    ensures ValidateTimetable(b).Err? && f in ValidateTimetable(b).error.fields
  {
    assert f in TimetableSchema && !FieldAccepted(b, f, TimetableSchema[f]);
  }

  /** A title alone makes a resource; the other three fields default to None. */
  lemma ResourceNeedsOnlyTitle(title: string)
    ensures ValidateResource(map["title" := Str(title)]) == Ok(Resource(title, None, None, None))
  {
    var b := map["title" := Str(title)];
    assert ReadOptional(b, "url") == Valid(None);
    assert ReadOptional(b, "topic") == Valid(None);
    assert ReadOptional(b, "description") == Valid(None);
  }

  lemma ResourceRequiresTitle(b: Doc)
    requires "title" !in b || !b["title"].Str?
    ensures ValidateResource(b).Err? && "title" in ValidateResource(b).error.fields
  {
    assert "title" in ResourceSchema && !FieldAccepted(b, "title", ResourceSchema["title"]);
  }

  /** A question alone makes an open doubt with no student name and no answer. */
  lemma DoubtDefaults(question: string)
    ensures ValidateDoubt(map["question" := Str(question)]) == Ok(Doubt(question, None, None, None, Open))
  {
    var b := map["question" := Str(question)];
    assert ReadOptional(b, "student_name") == Valid(None);
    assert ReadOptional(b, "answer") == Valid(None);
    assert ReadOptional(b, "answered_by") == Valid(None);
    assert ReadStatus(b) == Valid(Open);
  }

  /** Nothing stops a client from submitting a doubt that is already marked answered. */
  lemma DoubtMayArriveAnswered(question: string)
    ensures ValidateDoubt(map["question" := Str(question), "status" := Str("answered")])
      == Ok(Doubt(question, None, None, None, Answered))
  {
    var b := map["question" := Str(question), "status" := Str("answered")];
    assert ReadOptional(b, "student_name") == Valid(None);
    assert ReadOptional(b, "answer") == Valid(None);
    assert ReadOptional(b, "answered_by") == Valid(None);
    assert ReadStatus(b) == Valid(Answered);
  }

  /** A `status` other than "open" or "answered" is refused. */
  lemma DoubtStatusClosed(b: Doc)
    requires "status" in b && !(b["status"].Str? && b["status"].s in StatusNames)
    ensures ValidateDoubt(b).Err? && "status" in ValidateDoubt(b).error.fields
  {
    assert "status" in DoubtSchema && !FieldAccepted(b, "status", DoubtSchema["status"]);
  }

  lemma DoubtRequiresQuestion(b: Doc)
    requires "question" !in b || !b["question"].Str?
    ensures ValidateDoubt(b).Err? && "question" in ValidateDoubt(b).error.fields
  {
    assert "question" in DoubtSchema && !FieldAccepted(b, "question", DoubtSchema["question"]);
  }

  lemma TimetableIgnoresExtra(b: Doc, f: string, v: Value)
    requires f !in TimetableSchema
    ensures ValidateTimetable(b[f := v]) == ValidateTimetable(b)
  {
    var b' := b[f := v];
    assert ReadDay(b') == ReadDay(b);
    assert ReadString(b', "subject") == ReadString(b, "subject");
    assert ReadString(b', "start_time") == ReadString(b, "start_time");
    assert ReadString(b', "end_time") == ReadString(b, "end_time");
    assert ReadOptional(b', "location") == ReadOptional(b, "location");
    assert ReadOptional(b', "notes") == ReadOptional(b, "notes");
  }

  lemma ResourceIgnoresExtra(b: Doc, f: string, v: Value)
    requires f !in ResourceSchema
    ensures ValidateResource(b[f := v]) == ValidateResource(b)
  {
    var b' := b[f := v];
    assert ReadString(b', "title") == ReadString(b, "title");
    assert ReadOptional(b', "url") == ReadOptional(b, "url");
    assert ReadOptional(b', "topic") == ReadOptional(b, "topic");
    assert ReadOptional(b', "description") == ReadOptional(b, "description");
  }

  lemma DoubtIgnoresExtra(b: Doc, f: string, v: Value)
    requires f !in DoubtSchema
    ensures ValidateDoubt(b[f := v]) == ValidateDoubt(b)
  {
    var b' := b[f := v];
    assert ReadString(b', "question") == ReadString(b, "question");
    assert ReadOptional(b', "student_name") == ReadOptional(b, "student_name");
    assert ReadOptional(b', "answer") == ReadOptional(b, "answer");
    assert ReadOptional(b', "answered_by") == ReadOptional(b, "answered_by");
    assert ReadStatus(b') == ReadStatus(b);
  }

  /** Fields a schema does not name are ignored. */
  lemma ExtraFieldsIgnored(k: Kind, b: Doc, f: string, v: Value)
    requires f !in SchemaOf(k)
    ensures ValidatedDocument(k, b[f := v]) == ValidatedDocument(k, b)
  {
    match k
    case TimetableKind => TimetableIgnoresExtra(b, f, v);
    case ResourceKind => ResourceIgnoresExtra(b, f, v);
    case DoubtKind => DoubtIgnoresExtra(b, f, v);
  }

  /** What is stored for a valid body validates again to the same document: storing is stable. */
  lemma StoredDocumentRevalidates(k: Kind, b: Doc)
    requires ValidatedDocument(k, b).Ok?
    ensures ValidatedDocument(k, ValidatedDocument(k, b).value) == ValidatedDocument(k, b)
  {
    match k
    case TimetableKind => TimetableRoundTrip(ValidateTimetable(b).value);
    case ResourceKind => ResourceRoundTrip(ValidateResource(b).value);
    case DoubtKind => DoubtRoundTrip(ValidateDoubt(b).value);
  }
}
