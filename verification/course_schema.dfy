/**
 * The course schemas: creation and the partial update.
 */
module CourseSchema {
  import opened Common
  import opened Zod
  import opened Records

  /**
   * `createCourseSchema`. The code needs two characters although its
   * message speaks of an empty code.
   */
  const CreateCourseSchema: ObjectSchema := [
    Field("title", Text([MinLength(1, "Title must not be empty")]), Some("Title is required"), false, None),
    Field("code", Text([MinLength(2, "Code must not be empty")]), Some("Code is required"), false, None),
    Field("credits", Number([AtLeast(1.0, "Credits must be at least 1")]), Some("Credits is required"), false, None)
  ]

  /** `updateCourseSchema = createCourseSchema.partial()`. */
  const UpdateCourseSchema: ObjectSchema := Partial(CreateCourseSchema)

  predicate GoodTitle(v: Json) { v.Str? && |v.s| >= 1 }

  predicate GoodCode(v: Json) { v.Str? && |v.s| >= 2 }

  predicate GoodCredits(v: Json) { v.Num? && v.n >= 1.0 }

  /** What each field of the course schemas demands of a value, unfolded. */
  lemma CheckFacts(v: Json, isEmail: string -> bool)
    ensures Conforms(CreateCourseSchema[0].kind, v, isEmail) <==> GoodTitle(v)
    ensures Conforms(CreateCourseSchema[1].kind, v, isEmail) <==> GoodCode(v)
    ensures Conforms(CreateCourseSchema[2].kind, v, isEmail) <==> GoodCredits(v)
  {
    if v.Str? {
      OneStringCheck(v.s, MinLength(1, "Title must not be empty"), isEmail);
      OneStringCheck(v.s, MinLength(2, "Code must not be empty"), isEmail);
    }
    if v.Num? {
      OneNumberCheck(v.n, AtLeast(1.0, "Credits must be at least 1"));
    }
  }

  /**
   * A creation body is accepted exactly when it has a non-empty title, a
   * code of at least two characters and at least one credit; the parsed
   * data keeps those three keys and nothing else.
   */
  lemma CreateCourseMeaning(body: Json, isEmail: string -> bool)
    ensures var r := SafeParse(CreateCourseSchema, body, isEmail);
      r.Accepted? <==>
        body.Obj? &&
        "title" in body.fields && GoodTitle(body.fields["title"]) &&
        "code" in body.fields && GoodCode(body.fields["code"]) &&
        "credits" in body.fields && GoodCredits(body.fields["credits"])
    ensures var r := SafeParse(CreateCourseSchema, body, isEmail);
      r.Accepted? ==>
        r.data == map["title" := body.fields["title"], "code" := body.fields["code"], "credits" := body.fields["credits"]]
  {
    var c := CreateCourseSchema;
    assert c[0].key == "title" && c[1].key == "code" && c[2].key == "credits";
    assert DistinctKeys(c) && AllRequired(c);
    RequiredThree(c, body, isEmail);
    if body.Obj? {
      var b := body.fields;
      if "title" in b { CheckFacts(b["title"], isEmail); }
      if "code" in b { CheckFacts(b["code"], isEmail); }
      if "credits" in b { CheckFacts(b["credits"], isEmail); }
    }
  }

  /** A one-character code is refused with the message about an empty code. */
  lemma OneCharacterCodeRefused(isEmail: string -> bool)
    ensures SafeParse(CreateCourseSchema, Obj(map["title" := Str("Algebra"), "code" := Str("M"), "credits" := Num(3.0)]), isEmail)
      == Rejected([Issue(Segments(["code"]), "Code must not be empty")])
  {
    var s := CreateCourseSchema;
    var b := map["title" := Str("Algebra"), "code" := Str("M"), "credits" := Num(3.0)];
    assert ParseField(s[0], b, isEmail).0 == [];
    assert ParseField(s[1], b, isEmail).0 == [Issue(Segments(["code"]), "Code must not be empty")];
    assert ParseField(s[2], b, isEmail).0 == [];
    IssuesOfThree(s, b, isEmail);
    RejectedWith(s, Obj(b), isEmail, [Issue(Segments(["code"]), "Code must not be empty")]);
  }

  /** An update body may leave out any field; a present field is held to the creation rule. */
  lemma UpdateCourseMeaning(body: Json, isEmail: string -> bool)
    ensures var r := SafeParse(UpdateCourseSchema, body, isEmail);
      r.Accepted? <==>
        body.Obj? &&
        ("title" in body.fields ==> GoodTitle(body.fields["title"])) &&
        ("code" in body.fields ==> GoodCode(body.fields["code"])) &&
        ("credits" in body.fields ==> GoodCredits(body.fields["credits"]))
    ensures var r := SafeParse(UpdateCourseSchema, body, isEmail);
      r.Accepted? ==> r.data == Only(body.fields, {"title", "code", "credits"})
  {
    var c := CreateCourseSchema;
    assert c[0].key == "title" && c[1].key == "code" && c[2].key == "credits";
    assert DistinctKeys(c);
    PartialThree(c, body, isEmail);
    if body.Obj? {
      var b := body.fields;
      if "title" in b { CheckFacts(b["title"], isEmail); }
      if "code" in b { CheckFacts(b["code"], isEmail); }
      if "credits" in b { CheckFacts(b["credits"], isEmail); }
    }
  }

  function CourseInputOf(data: map<string, Json>): Option<CourseInput>
  {
    if "title" in data && data["title"].Str? && "code" in data && data["code"].Str?
       && "credits" in data && data["credits"].Num?
    then Some(CourseInput(data["title"].s, data["code"].s, data["credits"].n))
    else None
  }

  function CoursePatchOf(data: map<string, Json>): CoursePatch
  {
    CoursePatch(
      if "title" in data && data["title"].Str? then Some(data["title"].s) else None,
      if "code" in data && data["code"].Str? then Some(data["code"].s) else None,
      if "credits" in data && data["credits"].Num? then Some(data["credits"].n) else None)
  }

  /** Accepted creation data always reads back as a course input that meets the rules. */
  lemma CreateCourseInput(body: Json, isEmail: string -> bool)
    requires SafeParse(CreateCourseSchema, body, isEmail).Accepted?
    ensures var input := CourseInputOf(SafeParse(CreateCourseSchema, body, isEmail).data);
      input.Some? && |input.value.title| >= 1 && |input.value.code| >= 2 && input.value.credits >= 1.0
  {
    CreateCourseMeaning(body, isEmail);
  }

  /** Accepted update data reads back as the patch of exactly the fields sent. */
  lemma UpdateCourseInput(body: Json, isEmail: string -> bool)
    requires SafeParse(UpdateCourseSchema, body, isEmail).Accepted?
    ensures var p := CoursePatchOf(SafeParse(UpdateCourseSchema, body, isEmail).data);
      (p.title.Some? <==> "title" in body.fields) &&
      (p.code.Some? <==> "code" in body.fields) &&
      (p.credits.Some? <==> "credits" in body.fields) &&
      (p.title.Some? ==> |p.title.value| >= 1) &&
      (p.code.Some? ==> |p.code.value| >= 2) &&
      (p.credits.Some? ==> p.credits.value >= 1.0)
  {
    UpdateCourseMeaning(body, isEmail);
  }
}
