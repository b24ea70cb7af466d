/**
 * The part of zod the schemas use, as data: an object schema is a list of
 * fields, each a string, number or enum with its checks, an optional
 * `required_error`, optionality and a default. `SafeParse` interprets a
 * schema against a JSON body the way `schema.safeParse` does: every field is
 * checked (no short-circuit), unknown keys are stripped, defaults are filled
 * in, and the issues come out in field order.
 *
 * The email format is the `isEmail` parameter: zod's regular expression is
 * not modelled, so every property holds for any email predicate.
 */
module Zod {
  import opened Common

  /** A parsed JSON value; a missing key is "undefined". */
  datatype Json =
    | Null
    | Bool(b: bool)
    | Num(n: real)
    | Str(s: string)
    | Arr(items: seq<Json>)
    | Obj(fields: map<string, Json>)

  /** The type name zod reports in "Expected …, received …". */
  function TypeName(j: Json): string
  {
    match j
    case Null => "null"
    case Bool(_) => "boolean"
    case Num(_) => "number"
    case Str(_) => "string"
    case Arr(_) => "array"
    case Obj(_) => "object"
  }

  datatype StringCheck =
    | MinLength(min: nat, message: string)
    | MaxLength(max: nat, message: string)
    | EmailFormat(message: string)

  datatype NumberCheck =
    | AtLeast(bound: real, message: string)
    | AtMost(bound: real, message: string)
    | Positive(message: string)

  datatype Kind =
    | Text(stringChecks: seq<StringCheck>)
    | Number(numberChecks: seq<NumberCheck>)
    | Enum(options: seq<string>)

  /** One key of a `z.object({...})`. */
  datatype Field = Field(key: string, kind: Kind, requiredError: Option<string>, optional: bool, default: Option<Json>)

  type ObjectSchema = seq<Field>

  /** Where an issue is: zod gives the key path as an array; any other value is printed as is. */
  datatype IssuePath = Segments(keys: seq<string>) | Scalar(text: string)

  datatype Issue = Issue(path: IssuePath, message: string)

  /** The result of `safeParse`: the stripped data, or every issue found. */
  datatype Parse = Accepted(data: map<string, Json>) | Rejected(issues: seq<Issue>)

  /** The message zod gives a missing key without a `required_error`. */
  const RequiredDefault := "Required"

  /** `schema.partial()`: every key becomes optional (an optional key that is absent stays absent). */
  function Partial(schema: ObjectSchema): (r: ObjectSchema)
    ensures |r| == |schema|
    ensures forall i :: 0 <= i < |r| ==> r[i] == schema[i].(optional := true, default := None)
  {
    if |schema| == 0 then []
    else [schema[0].(optional := true, default := None)] + Partial(schema[1..])
  }

  /** The messages of the string checks `s` fails, in declaration order. */
  function StringFailures(s: string, checks: seq<StringCheck>, isEmail: string -> bool): (r: seq<string>)
    ensures |r| <= |checks|
    ensures r == [] <==> PassesAllString(s, checks, isEmail)
  {
    if |checks| == 0 then []
    else
      (if PassesString(s, checks[0], isEmail) then [] else [checks[0].message])
      + StringFailures(s, checks[1..], isEmail)
  }

  /** `s` passes every check in the list. */
  predicate PassesAllString(s: string, checks: seq<StringCheck>, isEmail: string -> bool)
  {
    |checks| == 0 || (PassesString(s, checks[0], isEmail) && PassesAllString(s, checks[1..], isEmail))
  }

  predicate PassesString(s: string, c: StringCheck, isEmail: string -> bool)
  {
    match c
    case MinLength(min, _) => |s| >= min
    case MaxLength(max, _) => |s| <= max
    case EmailFormat(_) => isEmail(s)
  }

  /** The messages of the number checks `n` fails, in declaration order. */
  function NumberFailures(n: real, checks: seq<NumberCheck>): (r: seq<string>)
    ensures |r| <= |checks|
    ensures r == [] <==> PassesAllNumber(n, checks)
  {
    if |checks| == 0 then []
    else
      (if PassesNumber(n, checks[0]) then [] else [checks[0].message])
      + NumberFailures(n, checks[1..])
  }

  /** `n` passes every check in the list. */
  predicate PassesAllNumber(n: real, checks: seq<NumberCheck>)
  {
    |checks| == 0 || (PassesNumber(n, checks[0]) && PassesAllNumber(n, checks[1..]))
  }

  predicate PassesNumber(n: real, c: NumberCheck)
  {
    match c
    case AtLeast(bound, _) => n >= bound
    case AtMost(bound, _) => n <= bound
    case Positive(_) => n > 0.0
  }

  /** `'a' | 'b'`, as zod lists enum options in its messages. */
  function QuotedOptions(options: seq<string>): string
  {
    if |options| == 0 then ""
    else if |options| == 1 then "'" + options[0] + "'"
    else "'" + options[0] + "' | " + QuotedOptions(options[1..])
  }

  /** The messages a present value of the given kind raises. */
  function ValueFailures(kind: Kind, v: Json, isEmail: string -> bool): seq<string>
  {
    match kind
    case Text(checks) =>
      if v.Str? then StringFailures(v.s, checks, isEmail)
      else ["Expected string, received " + TypeName(v)]
    case Number(checks) =>
      if v.Num? then NumberFailures(v.n, checks)
      else ["Expected number, received " + TypeName(v)]
    case Enum(options) =>
      if !v.Str? then ["Expected " + QuotedOptions(options) + ", received " + TypeName(v)]
      else if v.s in options then []
      else ["Invalid enum value. Expected " + QuotedOptions(options) + ", received '" + v.s + "'"]
  }

  /** A one-check list passes when its check does. */
  lemma OneStringCheck(s: string, c: StringCheck, isEmail: string -> bool)
    ensures PassesAllString(s, [c], isEmail) <==> PassesString(s, c, isEmail)
  {
    assert [c][1..] == [];
  }

  lemma TwoStringChecks(s: string, c: StringCheck, d: StringCheck, isEmail: string -> bool)
    ensures PassesAllString(s, [c, d], isEmail) <==> PassesString(s, c, isEmail) && PassesString(s, d, isEmail)
  {
    assert [c, d][1..] == [d];
    OneStringCheck(s, d, isEmail);
  }

  /** The messages of two string checks, one for each check that fails. */
  lemma TwoStringFailures(s: string, c: StringCheck, d: StringCheck, isEmail: string -> bool)
    ensures StringFailures(s, [c, d], isEmail) ==
      (if PassesString(s, c, isEmail) then [] else [c.message]) +
      (if PassesString(s, d, isEmail) then [] else [d.message])
  {
    assert [c, d][1..] == [d] && [d][1..] == [];
  }

  lemma OneNumberCheck(n: real, c: NumberCheck)
    ensures PassesAllNumber(n, [c]) <==> PassesNumber(n, c)
  {
    assert [c][1..] == [];
  }

  lemma TwoNumberChecks(n: real, c: NumberCheck, d: NumberCheck)
    ensures PassesAllNumber(n, [c, d]) <==> PassesNumber(n, c) && PassesNumber(n, d)
  {
    assert [c, d][1..] == [d];
    OneNumberCheck(n, d);
  }

  /** Does a present value satisfy the kind? */
  predicate Conforms(kind: Kind, v: Json, isEmail: string -> bool)
  {
    match kind
    case Text(checks) => v.Str? && PassesAllString(v.s, checks, isEmail)
    case Number(checks) => v.Num? && PassesAllNumber(v.n, checks)
    case Enum(options) => v.Str? && v.s in options
  }

  lemma ValueFailuresNoneIffConforms(kind: Kind, v: Json, isEmail: string -> bool)
    ensures ValueFailures(kind, v, isEmail) == [] <==> Conforms(kind, v, isEmail)
  {
  }

  /** The value a field contributes to the parsed data: the one sent, else its default. */
  function FieldValue(f: Field, body: map<string, Json>): Option<Json>
  {
    if f.key in body then Some(body[f.key]) else f.default
  }

  /** The issues of one field and the value it contributes to the parsed data. */
  function ParseField(f: Field, body: map<string, Json>, isEmail: string -> bool): (r: (seq<Issue>, Option<Json>))
    ensures r.0 == [] <==> FieldAccepts(f, body, isEmail)
    ensures r.1 == FieldValue(f, body)
  {
    if f.key in body then
      var v := body[f.key];
      var failures := ValueFailures(f.kind, v, isEmail);
      ValueFailuresNoneIffConforms(f.kind, v, isEmail);
      (IssuesAt(f.key, failures), Some(v))
    else if f.default.Some? then
      var failures := ValueFailures(f.kind, f.default.value, isEmail);
      ValueFailuresNoneIffConforms(f.kind, f.default.value, isEmail);
      (IssuesAt(f.key, failures), f.default)
    else if f.optional then ([], None)
    else ([Issue(Segments([f.key]), f.requiredError.GetOr(RequiredDefault))], None)
  }

  /** A field is fine when its value (or its default) conforms, or it may be left out. */
  predicate FieldAccepts(f: Field, body: map<string, Json>, isEmail: string -> bool)
  {
    if f.key in body then Conforms(f.kind, body[f.key], isEmail)
    else if f.default.Some? then Conforms(f.kind, f.default.value, isEmail)
    else f.optional
  }

  function IssuesAt(key: string, messages: seq<string>): (r: seq<Issue>)
    ensures |r| == |messages|
    ensures forall i :: 0 <= i < |r| ==> r[i] == Issue(Segments([key]), messages[i])
  {
    if |messages| == 0 then [] else [Issue(Segments([key]), messages[0])] + IssuesAt(key, messages[1..])
  }

  /** Every field in turn: the issues concatenated, the parsed values collected under their keys. */
  function ParseFields(fields: seq<Field>, body: map<string, Json>, isEmail: string -> bool): (r: (seq<Issue>, map<string, Json>))
    ensures r.0 == [] <==> forall i :: 0 <= i < |fields| ==> FieldAccepts(fields[i], body, isEmail)
    ensures forall k :: k in r.1 ==> exists i :: 0 <= i < |fields| && fields[i].key == k
  {
    if |fields| == 0 then ([], map[])
    else
      var first := ParseField(fields[0], body, isEmail);
      var rest := ParseFields(fields[1..], body, isEmail);
      assert forall i :: 1 <= i < |fields| ==> fields[i] == fields[1..][i - 1];
      var data := if first.1.Some? then rest.1[fields[0].key := first.1.value] else rest.1;
      (first.0 + rest.0, data)
  }

  /**
   * `schema.safeParse(body)`: a non-object body is one issue at the empty
   * path; otherwise the stripped data if no field raised an issue.
   */
  function SafeParse(schema: ObjectSchema, body: Json, isEmail: string -> bool): (r: Parse)
    ensures r.Accepted? <==> body.Obj? && forall i :: 0 <= i < |schema| ==> FieldAccepts(schema[i], body.fields, isEmail)
    ensures r.Accepted? ==> forall k :: k in r.data ==> exists i :: 0 <= i < |schema| && schema[i].key == k
  {
    if !body.Obj? then Rejected([Issue(Segments([]), "Expected object, received " + TypeName(body))])
    else
      var (issues, data) := ParseFields(schema, body.fields, isEmail);
      if issues == [] then Accepted(data) else Rejected(issues)
  }

  /** The entries of `m` whose keys are in `keys`: what stripping unknown keys leaves. */
  function Only(m: map<string, Json>, keys: set<string>): (r: map<string, Json>)
    ensures r.Keys == m.Keys * keys
    ensures forall k :: k in r ==> r[k] == m[k]
  {
    map k | k in m && k in keys :: m[k]
  }

  /** No key is declared twice (true of every `z.object` literal). */
  predicate DistinctKeys(fields: seq<Field>)
  {
    forall i, j :: 0 <= i < j < |fields| ==> fields[i].key != fields[j].key
  }

  /**
   * The parsed data holds exactly the fields that have a value, each under
   * its key: the sent value, or the default when the key was missing.
   */
  lemma {:induction false} ParseFieldsData(fields: seq<Field>, body: map<string, Json>, isEmail: string -> bool)
    requires DistinctKeys(fields)
    ensures var data := ParseFields(fields, body, isEmail).1;
      forall i :: 0 <= i < |fields| ==>
        (fields[i].key in data <==> FieldValue(fields[i], body).Some?) &&
        (fields[i].key in data ==> data[fields[i].key] == FieldValue(fields[i], body).value)
  {
    if |fields| > 0 {
      var rest := fields[1..];
      assert DistinctKeys(rest);
      ParseFieldsData(rest, body, isEmail);
      var data := ParseFields(fields, body, isEmail).1;
      var restData := ParseFields(rest, body, isEmail).1;
      assert fields[0].key !in restData;
      forall i | 0 <= i < |fields|
        ensures (fields[i].key in data <==> FieldValue(fields[i], body).Some?)
        ensures fields[i].key in data ==> data[fields[i].key] == FieldValue(fields[i], body).value
      {
        if i > 0 {
          assert fields[i] == rest[i - 1];
          assert fields[i].key != fields[0].key;
        }
      }
    }
  }

  /** A key-wise comparison: a map made only of schema keys is fixed by the schema's field values. */
  lemma {:induction false} SameFieldValuesSameData(schema: ObjectSchema, a: map<string, Json>, b: map<string, Json>)
    requires forall k :: k in a ==> exists i :: 0 <= i < |schema| && schema[i].key == k
    requires forall k :: k in b ==> exists i :: 0 <= i < |schema| && schema[i].key == k
    requires forall i :: 0 <= i < |schema| ==> (schema[i].key in a <==> schema[i].key in b)
    requires forall i :: 0 <= i < |schema| && schema[i].key in a ==> a[schema[i].key] == b[schema[i].key]
    ensures a == b
  {
    forall k | k in a ensures k in b && a[k] == b[k] {
      var i :| 0 <= i < |schema| && schema[i].key == k;
    }
    forall k | k in b ensures k in a {
      var i :| 0 <= i < |schema| && schema[i].key == k;
    }
  }

  /**
   * The data of an accepted parse is the map that holds, under each field's
   * key, that field's value (sent or defaulted), and nothing else.
   */
  lemma AcceptedDataIs(schema: ObjectSchema, body: Json, isEmail: string -> bool, expected: map<string, Json>)
    requires DistinctKeys(schema)
    requires SafeParse(schema, body, isEmail).Accepted?
    requires forall k :: k in expected ==> exists i :: 0 <= i < |schema| && schema[i].key == k
    requires forall i :: 0 <= i < |schema| ==>
      (schema[i].key in expected <==> FieldValue(schema[i], body.fields).Some?)
    requires forall i :: 0 <= i < |schema| && schema[i].key in expected ==>
      expected[schema[i].key] == FieldValue(schema[i], body.fields).value
    ensures SafeParse(schema, body, isEmail).data == expected
  {
    var data := SafeParse(schema, body, isEmail).data;
    assert data == ParseFields(schema, body.fields, isEmail).1;
    ParseFieldsData(schema, body.fields, isEmail);
    SameFieldValuesSameData(schema, data, expected);
  }

  /** The keys a schema declares. */
  function Keys(schema: ObjectSchema): (ks: set<string>)
    ensures forall i :: 0 <= i < |schema| ==> schema[i].key in ks
    ensures forall k :: k in ks ==> exists i :: 0 <= i < |schema| && schema[i].key == k
  {
    set i | 0 <= i < |schema| :: schema[i].key
  }

  /** Every field must be sent: none is optional or has a default. */
  predicate AllRequired(schema: ObjectSchema)
  {
    forall i :: 0 <= i < |schema| ==> !schema[i].optional && schema[i].default.None?
  }

  /** A required field accepts exactly when it is present and conforms. */
  lemma RequiredFieldAccepts(schema: ObjectSchema, b: map<string, Json>, isEmail: string -> bool, i: nat)
    requires AllRequired(schema) && i < |schema|
    ensures FieldAccepts(schema[i], b, isEmail) <==>
      schema[i].key in b && Conforms(schema[i].kind, b[schema[i].key], isEmail)
    ensures FieldValue(schema[i], b) == if schema[i].key in b then Some(b[schema[i].key]) else None
  {
  }

  /**
   * What a schema of required fields means: the body must be an object in
   * which every field is present and conforms, and the data is the body cut
   * down to the schema's keys.
   */
  lemma RequiredMeaning(schema: ObjectSchema, body: Json, isEmail: string -> bool)
    requires DistinctKeys(schema) && AllRequired(schema)
    ensures var r := SafeParse(schema, body, isEmail);
      r.Accepted? <==> body.Obj? && forall i :: 0 <= i < |schema| ==>
        schema[i].key in body.fields && Conforms(schema[i].kind, body.fields[schema[i].key], isEmail)
    ensures var r := SafeParse(schema, body, isEmail);
      r.Accepted? ==> r.data == Only(body.fields, Keys(schema))
  {
    if body.Obj? {
      var b := body.fields;
      forall i | 0 <= i < |schema|
        ensures FieldAccepts(schema[i], b, isEmail) <==>
          schema[i].key in b && Conforms(schema[i].kind, b[schema[i].key], isEmail)
      {
        RequiredFieldAccepts(schema, b, isEmail, i);
      }
      if SafeParse(schema, body, isEmail).Accepted? {
        var expected := Only(b, Keys(schema));
        forall i | 0 <= i < |schema|
          ensures schema[i].key in expected <==> FieldValue(schema[i], b).Some?
          ensures schema[i].key in expected ==> expected[schema[i].key] == FieldValue(schema[i], b).value
        {
          RequiredFieldAccepts(schema, b, isEmail, i);
        }
        AcceptedDataIs(schema, body, isEmail, expected);
      }
    }
  }

  lemma KeysTwo(schema: ObjectSchema)
    requires |schema| == 2
    ensures Keys(schema) == {schema[0].key, schema[1].key}
  {
    forall k | k in Keys(schema) ensures k == schema[0].key || k == schema[1].key {
      var i :| 0 <= i < |schema| && schema[i].key == k;
    }
  }

  lemma KeysThree(schema: ObjectSchema)
    requires |schema| == 3
    ensures Keys(schema) == {schema[0].key, schema[1].key, schema[2].key}
  {
    forall k | k in Keys(schema) ensures k == schema[0].key || k == schema[1].key || k == schema[2].key {
      var i :| 0 <= i < |schema| && schema[i].key == k;
    }
  }

  /** Cutting a map down to keys it holds leaves exactly their entries. */
  lemma OnlyTwo(m: map<string, Json>, k0: string, k1: string)
    requires k0 in m && k1 in m
    ensures Only(m, {k0, k1}) == map[k0 := m[k0], k1 := m[k1]]
  {
  }

  lemma OnlyThree(m: map<string, Json>, k0: string, k1: string, k2: string)
    requires k0 in m && k1 in m && k2 in m
    ensures Only(m, {k0, k1, k2}) == map[k0 := m[k0], k1 := m[k1], k2 := m[k2]]
  {
  }

  /** `RequiredMeaning` for a schema of two fields, with the quantifiers unrolled. */
  lemma RequiredTwo(schema: ObjectSchema, body: Json, isEmail: string -> bool)
    requires |schema| == 2 && DistinctKeys(schema) && AllRequired(schema)
    ensures var r := SafeParse(schema, body, isEmail);
      r.Accepted? <==> (body.Obj? &&
        schema[0].key in body.fields && Conforms(schema[0].kind, body.fields[schema[0].key], isEmail) &&
        schema[1].key in body.fields && Conforms(schema[1].kind, body.fields[schema[1].key], isEmail))
    ensures var r := SafeParse(schema, body, isEmail);
      r.Accepted? ==> r.data == map[schema[0].key := body.fields[schema[0].key],
                                    schema[1].key := body.fields[schema[1].key]]
  {
    RequiredMeaning(schema, body, isEmail);
    KeysTwo(schema);
    if body.Obj? && schema[0].key in body.fields && schema[1].key in body.fields {
      OnlyTwo(body.fields, schema[0].key, schema[1].key);
    }
  }

  /** `RequiredMeaning` for a schema of three fields, with the quantifiers unrolled. */
  lemma RequiredThree(schema: ObjectSchema, body: Json, isEmail: string -> bool)
    requires |schema| == 3 && DistinctKeys(schema) && AllRequired(schema)
    ensures var r := SafeParse(schema, body, isEmail);
      r.Accepted? <==> (body.Obj? &&
        schema[0].key in body.fields && Conforms(schema[0].kind, body.fields[schema[0].key], isEmail) &&
        schema[1].key in body.fields && Conforms(schema[1].kind, body.fields[schema[1].key], isEmail) &&
        schema[2].key in body.fields && Conforms(schema[2].kind, body.fields[schema[2].key], isEmail))
    ensures var r := SafeParse(schema, body, isEmail);
      r.Accepted? ==> r.data == map[schema[0].key := body.fields[schema[0].key],
                                    schema[1].key := body.fields[schema[1].key],
                                    schema[2].key := body.fields[schema[2].key]]
  {
    RequiredMeaning(schema, body, isEmail);
    KeysThree(schema);
    if body.Obj? && schema[0].key in body.fields && schema[1].key in body.fields && schema[2].key in body.fields {
      OnlyThree(body.fields, schema[0].key, schema[1].key, schema[2].key);
    }
  }

  /** `PartialMeaning` for a schema of two fields, with the quantifiers unrolled. */
  lemma PartialTwo(schema: ObjectSchema, body: Json, isEmail: string -> bool)
    requires |schema| == 2 && DistinctKeys(schema)
    ensures var r := SafeParse(Partial(schema), body, isEmail);
      r.Accepted? <==> (body.Obj? &&
        (schema[0].key in body.fields ==> Conforms(schema[0].kind, body.fields[schema[0].key], isEmail)) &&
        (schema[1].key in body.fields ==> Conforms(schema[1].kind, body.fields[schema[1].key], isEmail)))
    ensures var r := SafeParse(Partial(schema), body, isEmail);
      r.Accepted? ==> r.data == Only(body.fields, {schema[0].key, schema[1].key})
  {
    PartialMeaning(schema, body, isEmail);
    KeysTwo(schema);
  }

  /** `PartialMeaning` for a schema of three fields, with the quantifiers unrolled. */
  lemma PartialThree(schema: ObjectSchema, body: Json, isEmail: string -> bool)
    requires |schema| == 3 && DistinctKeys(schema)
    ensures var r := SafeParse(Partial(schema), body, isEmail);
      r.Accepted? <==> (body.Obj? &&
        (schema[0].key in body.fields ==> Conforms(schema[0].kind, body.fields[schema[0].key], isEmail)) &&
        (schema[1].key in body.fields ==> Conforms(schema[1].kind, body.fields[schema[1].key], isEmail)) &&
        (schema[2].key in body.fields ==> Conforms(schema[2].kind, body.fields[schema[2].key], isEmail)))
    ensures var r := SafeParse(Partial(schema), body, isEmail);
      r.Accepted? ==> r.data == Only(body.fields, {schema[0].key, schema[1].key, schema[2].key})
  {
    PartialMeaning(schema, body, isEmail);
    KeysThree(schema);
  }

  /** A string sent for a string field raises the messages of the checks it fails, at the field's key. */
  lemma TextFieldIssues(f: Field, body: map<string, Json>, isEmail: string -> bool, value: string)
    requires f.kind.Text? && f.key in body && body[f.key] == Str(value)
    ensures ParseField(f, body, isEmail).0 == IssuesAt(f.key, StringFailures(value, f.kind.stringChecks, isEmail))
  {
  }

  /** An object whose fields raise issues is rejected with exactly those issues. */
  lemma RejectedWith(schema: ObjectSchema, body: Json, isEmail: string -> bool, issues: seq<Issue>)
    requires body.Obj? && ParseFields(schema, body.fields, isEmail).0 == issues && issues != []
    ensures SafeParse(schema, body, isEmail) == Rejected(issues)
  {
  }

  /** One step of `ParseFields`: the first field's issues come first. */
  lemma IssuesStep(fields: seq<Field>, body: map<string, Json>, isEmail: string -> bool)
    requires |fields| > 0
    ensures ParseFields(fields, body, isEmail).0 ==
      ParseField(fields[0], body, isEmail).0 + ParseFields(fields[1..], body, isEmail).0
  {
  }

  /** An empty list of fields raises no issue. */
  lemma IssuesOfNone(fields: seq<Field>, body: map<string, Json>, isEmail: string -> bool)
    requires |fields| == 0
    ensures ParseFields(fields, body, isEmail).0 == []
  {
  }

  /** The issues of a three-field object are its fields' issues in declaration order. */
  lemma IssuesOfThree(fields: seq<Field>, body: map<string, Json>, isEmail: string -> bool)
    requires |fields| == 3
    ensures ParseFields(fields, body, isEmail).0 ==
      ParseField(fields[0], body, isEmail).0 + (ParseField(fields[1], body, isEmail).0 +
      ParseField(fields[2], body, isEmail).0)
  {
    var r1 := fields[1..];
    var r2 := r1[1..];
    var r3 := r2[1..];
    assert r1[0] == fields[1] && r2[0] == fields[2];
    var a := ParseField(fields[0], body, isEmail).0;
    var b := ParseField(fields[1], body, isEmail).0;
    var c := ParseField(fields[2], body, isEmail).0;
    IssuesOfNone(r3, body, isEmail);
    IssuesStep(r2, body, isEmail);
    IssuesStep(r1, body, isEmail);
    IssuesStep(fields, body, isEmail);
    assert c + [] == c;
  }

  /** The issues of a four-field object are its fields' issues in declaration order. */
  lemma IssuesOfFour(fields: seq<Field>, body: map<string, Json>, isEmail: string -> bool)
    requires |fields| == 4
    ensures ParseFields(fields, body, isEmail).0 ==
      ParseField(fields[0], body, isEmail).0 + (ParseField(fields[1], body, isEmail).0 +
      (ParseField(fields[2], body, isEmail).0 + ParseField(fields[3], body, isEmail).0))
  {
    var r1 := fields[1..];
    var r2 := r1[1..];
    var r3 := r2[1..];
    var r4 := r3[1..];
    assert r1[0] == fields[1] && r2[0] == fields[2] && r3[0] == fields[3];
    var a := ParseField(fields[0], body, isEmail).0;
    var b := ParseField(fields[1], body, isEmail).0;
    var c := ParseField(fields[2], body, isEmail).0;
    var d := ParseField(fields[3], body, isEmail).0;
    IssuesOfNone(r4, body, isEmail);
    IssuesStep(r3, body, isEmail);
    IssuesStep(r2, body, isEmail);
    IssuesStep(r1, body, isEmail);
    IssuesStep(fields, body, isEmail);
    assert d + [] == d;
  }

  /** Acceptance of a four-field object, field by field. */
  lemma AcceptsFour(schema: ObjectSchema, body: Json, isEmail: string -> bool)
    requires |schema| == 4
    ensures SafeParse(schema, body, isEmail).Accepted? <==> (body.Obj? &&
      FieldAccepts(schema[0], body.fields, isEmail) && FieldAccepts(schema[1], body.fields, isEmail) &&
      FieldAccepts(schema[2], body.fields, isEmail) && FieldAccepts(schema[3], body.fields, isEmail))
  {
  }

  /** The data of an accepted four-field object in which every field has a value. */
  lemma DataFour(schema: ObjectSchema, body: Json, isEmail: string -> bool)
    requires |schema| == 4 && DistinctKeys(schema) && SafeParse(schema, body, isEmail).Accepted?
    requires forall i :: 0 <= i < 4 ==> FieldValue(schema[i], body.fields).Some?
    ensures SafeParse(schema, body, isEmail).data ==
      map[schema[0].key := FieldValue(schema[0], body.fields).value,
          schema[1].key := FieldValue(schema[1], body.fields).value,
          schema[2].key := FieldValue(schema[2], body.fields).value,
          schema[3].key := FieldValue(schema[3], body.fields).value]
  {
    var b := body.fields;
    var expected := map[schema[0].key := FieldValue(schema[0], b).value,
                        schema[1].key := FieldValue(schema[1], b).value,
                        schema[2].key := FieldValue(schema[2], b).value,
                        schema[3].key := FieldValue(schema[3], b).value];
    forall k | k in expected ensures exists i :: 0 <= i < |schema| && schema[i].key == k {
      if k == schema[0].key { assert schema[0].key == k; }
      else if k == schema[1].key { assert schema[1].key == k; }
      else if k == schema[2].key { assert schema[2].key == k; }
      else { assert schema[3].key == k; }
    }
    forall i | 0 <= i < |schema|
      ensures schema[i].key in expected && expected[schema[i].key] == FieldValue(schema[i], b).value
    {
      assert i == 0 || i == 1 || i == 2 || i == 3;
      assert schema[0].key != schema[1].key && schema[0].key != schema[2].key && schema[0].key != schema[3].key;
      assert schema[1].key != schema[2].key && schema[1].key != schema[3].key && schema[2].key != schema[3].key;
    }
    AcceptedDataIs(schema, body, isEmail, expected);
  }

  /** A field of `.partial()` accepts exactly when it is absent or conforms. */
  lemma PartialFieldAccepts(schema: ObjectSchema, b: map<string, Json>, isEmail: string -> bool, i: nat)
    requires i < |schema|
    ensures FieldAccepts(Partial(schema)[i], b, isEmail) <==>
      (schema[i].key in b ==> Conforms(schema[i].kind, b[schema[i].key], isEmail))
    ensures FieldValue(Partial(schema)[i], b) == if schema[i].key in b then Some(b[schema[i].key]) else None
    ensures Partial(schema)[i].key == schema[i].key
  {
    assert Partial(schema)[i] == schema[i].(optional := true, default := None);
  }

  /** `.partial()` keeps the keys, so it keeps them distinct. */
  lemma PartialDistinctKeys(schema: ObjectSchema)
    requires DistinctKeys(schema)
    ensures DistinctKeys(Partial(schema))
  {
    var p := Partial(schema);
    forall i, j | 0 <= i < j < |p| ensures p[i].key != p[j].key {
      PartialFieldAccepts(schema, map[], i => true, i);
      PartialFieldAccepts(schema, map[], i => true, j);
    }
  }

  /**
   * What `.partial()` means: the body must be an object, each field that is
   * present must conform to its kind and checks, an absent field is no
   * issue, and the data is the body cut down to the schema's keys.
   */
  lemma PartialMeaning(schema: ObjectSchema, body: Json, isEmail: string -> bool)
    requires DistinctKeys(schema)
    ensures var r := SafeParse(Partial(schema), body, isEmail);
      r.Accepted? <==> body.Obj? && forall i :: 0 <= i < |schema| && schema[i].key in body.fields ==>
        Conforms(schema[i].kind, body.fields[schema[i].key], isEmail)
    ensures var r := SafeParse(Partial(schema), body, isEmail);
      r.Accepted? ==> r.data == Only(body.fields, Keys(schema))
  {
    var p := Partial(schema);
    if body.Obj? {
      var b := body.fields;
      forall i | 0 <= i < |schema|
        ensures FieldAccepts(p[i], b, isEmail) <==>
          (schema[i].key in b ==> Conforms(schema[i].kind, b[schema[i].key], isEmail))
      {
        PartialFieldAccepts(schema, b, isEmail, i);
      }
      if SafeParse(p, body, isEmail).Accepted? {
        PartialData(schema, body, isEmail);
      }
    }
  }

  lemma PartialData(schema: ObjectSchema, body: Json, isEmail: string -> bool)
    requires DistinctKeys(schema)
    requires SafeParse(Partial(schema), body, isEmail).Accepted?
    ensures SafeParse(Partial(schema), body, isEmail).data == Only(body.fields, Keys(schema))
  {
    var p := Partial(schema);
    var b := body.fields;
    PartialDistinctKeys(schema);
    var expected := Only(b, Keys(schema));
    forall i | 0 <= i < |p|
      ensures p[i].key in expected <==> FieldValue(p[i], b).Some?
      ensures p[i].key in expected ==> expected[p[i].key] == FieldValue(p[i], b).value
    {
      PartialFieldAccepts(schema, b, isEmail, i);
    }
    forall k | k in expected ensures exists i :: 0 <= i < |p| && p[i].key == k {
      var i :| 0 <= i < |schema| && schema[i].key == k;
      PartialFieldAccepts(schema, b, isEmail, i);
    }
    AcceptedDataIs(p, body, isEmail, expected);
  }

  /**
   * Parsing the parsed data again accepts it unchanged: the body that
   * `validate` leaves on the request passes the same schema as it is.
   */
  lemma ReparseIsIdentity(schema: ObjectSchema, body: Json, isEmail: string -> bool)
    requires DistinctKeys(schema)
    requires SafeParse(schema, body, isEmail).Accepted?
    ensures var data := SafeParse(schema, body, isEmail).data;
      SafeParse(schema, Obj(data), isEmail) == Accepted(data)
  {
    var data := SafeParse(schema, body, isEmail).data;
    assert data == ParseFields(schema, body.fields, isEmail).1;
    ParseFieldsData(schema, body.fields, isEmail);
    forall i | 0 <= i < |schema|
      ensures FieldValue(schema[i], data) == FieldValue(schema[i], body.fields)
      ensures FieldAccepts(schema[i], data, isEmail)
    {
      assert FieldAccepts(schema[i], body.fields, isEmail);
    }
    var again := ParseFields(schema, data, isEmail);
    assert again.0 == [];
    ParseFieldsData(schema, data, isEmail);
    SameFieldValuesSameData(schema, again.1, data);
  }
}
