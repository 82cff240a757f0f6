/** The `People` model of the phonebook: the schema's validation rules for a contact, what
    `save()` does with them, and the `toJSON` transform that gives a stored contact its public
    shape.

    Validation follows Mongoose's conventions for a String path, which the schema relies on:
    `required` fails on a missing value or on the empty string; every other validator is
    skipped when the value is missing; a path reports only its first failing validator, with
    `required` checked first; and the resulting `ValidationError` collects one error per
    failing path, in schema order, under the message "People validation failed: ...". */
module PersonSchema {
  import opened Wrappers
  import opened PhoneNumber

  const MODEL_NAME := "People"
  const NAME_MIN_LENGTH := 3

  /** The fields a new contact is built from: `new People({ name, number })`. */
  datatype Candidate = Candidate(name: Option<string>, number: Option<string>)

  /** A stored contact: its ObjectId (as the hexadecimal text `toString()` gives), its two
      fields and the version key `__v`. */
  datatype Person = Person(oid: string, name: string, number: string, version: nat)

  /** The error one validator reports for one path. */
  datatype ValidatorError =
    | Required(path: string)
    | TooShort(path: string, value: string)
    | BadNumber(value: string)

  /** JavaScript's `s.length`: the number of UTF-16 code units, so a character outside the
      Basic Multilingual Plane (a surrogate pair) counts twice. */
  function JsLength(s: string): (n: nat)
    ensures |s| <= n <= 2 * |s|
    ensures (forall i :: 0 <= i < |s| ==> s[i] < 0x10000 as char) ==> n == |s|
  {
    if s == [] then 0
    else (if s[0] >= 0x10000 as char then 2 else 1) + JsLength(s[1..])
  }

  /** Code units add up over concatenation. */
  lemma {:induction false} JsLengthAppend(a: string, b: string)
    ensures JsLength(a + b) == JsLength(a) + JsLength(b)
    decreases |a|
  {
    if a == [] {
      assert a + b == b;
    } else {
      assert (a + b)[0] == a[0];
      assert (a + b)[1..] == a[1..] + b;
      JsLengthAppend(a[1..], b);
    }
  }

  /** A character inside the Basic Multilingual Plane is one code unit; one outside it is a
      surrogate pair, two code units. */
  lemma JsLengthOfChar(c: char)
    ensures JsLength([c]) == if c >= 0x10000 as char then 2 else 1
  {
    assert [c][1..] == [];
  }

  /** What the `name` rules accept: present and at least three UTF-16 code units long. */
  predicate ValidName(name: Option<string>) {
    name.Some? && JsLength(name.value) >= NAME_MIN_LENGTH
  }

  /** What the `number` rules accept: present and matching the phone-number pattern. */
  predicate ValidNumber(number: Option<string>) {
    number.Some? && IsPhoneNumber(number.value)
  }

  /** Mongoose's `required` check for a String path. */
  predicate Present(v: Option<string>) {
    v.Some? && v.value != ""
  }

  /** The `name` path: `required: true`, then `minLength: 3`. */
  function CheckName(name: Option<string>): (e: Option<ValidatorError>)
    ensures e.None? <==> ValidName(name)
    ensures !Present(name) ==> e == Some(Required("name"))
    ensures Present(name) && e.Some? ==> e == Some(TooShort("name", name.value)) && JsLength(name.value) < NAME_MIN_LENGTH
  {
    if !Present(name) then Some(Required("name"))
    else if JsLength(name.value) < NAME_MIN_LENGTH then Some(TooShort("name", name.value))
    else None
  }

  /** The `number` path: `required: true`, then the pattern validator. */
  function CheckNumber(number: Option<string>): (e: Option<ValidatorError>)
    ensures e.None? <==> ValidNumber(number)
    ensures !Present(number) ==> e == Some(Required("number"))
    ensures Present(number) && e.Some? ==> e == Some(BadNumber(number.value))
  {
    if !Present(number) then Some(Required("number"))
    else if Test(number.value) then None else Some(BadNumber(number.value))
  }

  /** `document.validate()`: the failing paths and the error each reports. */
  function Validate(c: Candidate): (errors: map<string, ValidatorError>)
    ensures errors.Keys <= {"name", "number"}
    ensures "name" in errors <==> !ValidName(c.name)
    ensures "number" in errors <==> !ValidNumber(c.number)
    ensures errors == map[] <==> ValidName(c.name) && ValidNumber(c.number)
    ensures "name" in errors ==> Some(errors["name"]) == CheckName(c.name)
    ensures "number" in errors ==> Some(errors["number"]) == CheckNumber(c.number)
  {
    var named := match CheckName(c.name)
      case Some(e) => map["name" := e]
      case None => map[];
    var numbered := match CheckNumber(c.number)
      case Some(e) => map["number" := e]
      case None => map[];
    assert "name" !in numbered;
    named + numbered
  }

  /** Validation looks at each field on its own: two candidates with the same name get the
      same verdict on `name`, whatever their numbers. */
  lemma FieldsCheckedIndependently(c: Candidate, d: Candidate)
    ensures c.name == d.name ==>
      ("name" in Validate(c) <==> "name" in Validate(d)) &&
      ("name" in Validate(c) ==> Validate(c)["name"] == Validate(d)["name"])
    ensures c.number == d.number ==>
      ("number" in Validate(c) <==> "number" in Validate(d)) &&
      ("number" in Validate(c) ==> Validate(c)["number"] == Validate(d)["number"])
  {
  }

  /** A missing field, an empty one or a name shorter than three UTF-16 code units fails. */
  lemma RequiredAndMinLength(c: Candidate)
    ensures c.name.None? || c.number.None? ==> Validate(c) != map[]
    ensures c.name.Some? && JsLength(c.name.value) < NAME_MIN_LENGTH ==> Validate(c) != map[]
    ensures c.number == Some("") ==> Validate(c)["number"] == Required("number")
    ensures c.name == Some("") ==> Validate(c)["name"] == Required("name")
  {
  }

  /** `minLength` counts code units, not characters: two characters, one of them outside
      the Basic Multilingual Plane, make a name long enough, while two plain ones do not. */
  lemma NameLengthInCodeUnits()
    ensures ValidName(Some("a\U{1F600}"))
    ensures !ValidName(Some("ab"))
  {
    assert JsLength("a\U{1F600}") == 1 + JsLength("\U{1F600}");
  }

  /** `s.includes(t)`, with `t` found at index `i`. */
  ghost predicate OccursAt(s: string, t: string, i: int) {
    0 <= i <= |s| - |t| && s[i..i + |t|] == t
  }

  /** `s.includes(t)` */
  ghost predicate Contains(s: string, t: string) {
    exists i :: OccursAt(s, t, i)
  }

  lemma ContainsMiddle(a: string, t: string, b: string)
    ensures Contains(a + t + b, t)
  {
    var s := a + t + b;
    assert s[|a|..|a| + |t|] == t;
    assert OccursAt(s, t, |a|);
  }

  /** A text found inside a text found in `s` is found in `s`. */
  lemma ContainsTransitive(s: string, t: string, u: string)
    requires Contains(s, t) && Contains(t, u)
    ensures Contains(s, u)
  {
    var i :| OccursAt(s, t, i);
    var j :| OccursAt(t, u, j);
    forall k | 0 <= k < |u| ensures s[i + j + k] == u[k] {
      assert u[k] == t[j..j + |u|][k] == t[j + k];
      assert t[j + k] == s[i..i + |t|][j + k] == s[i + j + k];
    }
    assert s[i + j..i + j + |u|] == u;
    assert OccursAt(s, u, i + j);
  }

  /** The message of one validator error. The phone-number message is the schema's own;
      the other two are Mongoose's defaults for `required` and `minLength`. Each names what
      it is about: the path for the built-in validators, and the rejected value whenever
      there is one. */
  function ValidatorMessage(e: ValidatorError): (m: string)
    ensures !e.BadNumber? ==> Contains(m, e.path)
    ensures !e.Required? ==> Contains(m, e.value)
  {
    match e
    case Required(path) =>
      ContainsMiddle("Path `", path, "` is required.");
      "Path `" + path + "` is required."
    case TooShort(path, value) =>
      var tail := "`) is shorter than the minimum allowed length (3).";
      ContainsMiddle("Path `" + path + "` (`", value, tail);
      ContainsMiddle("Path `", path, "` (`" + value + tail);
      assert "Path `" + path + ("` (`" + value + tail) == "Path `" + path + "` (`" + value + tail;
      "Path `" + path + "` (`" + value + tail
    case BadNumber(value) =>
      ContainsMiddle("", value, " is not a valid phone number! Use format XXX-XXXXX");
      assert "" + value + " is not a valid phone number! Use format XXX-XXXXX" ==
        value + " is not a valid phone number! Use format XXX-XXXXX";
      value + " is not a valid phone number! Use format XXX-XXXXX"
  }

  /** The "path: message" entry of the failing path `path`. */
  function Entry(errors: map<string, ValidatorError>, path: string): string
    requires path in errors
  {
    path + ": " + ValidatorMessage(errors[path])
  }

  /** One entry per failing path, `name` before `number`. */
  function Entries(errors: map<string, ValidatorError>): seq<string> {
    (if "name" in errors then [Entry(errors, "name")] else []) +
    (if "number" in errors then [Entry(errors, "number")] else [])
  }

  function Join(parts: seq<string>): string {
    if |parts| == 0 then ""
    else if |parts| == 1 then parts[0]
    else parts[0] + ", " + Join(parts[1..])
  }

  /** What follows the `name` entry: `, ` and the `number` entry, when `number` failed too. */
  function NumberTail(errors: map<string, ValidatorError>): string {
    if "number" in errors then ", " + Entry(errors, "number") else ""
  }

  /** What precedes the `number` entry: the `name` entry and `, `, when `name` failed too. */
  function NameHead(errors: map<string, ValidatorError>): string {
    if "name" in errors then Entry(errors, "name") + ", " else ""
  }

  /** The joined entries: the `name` entry first and the `number` entry last. */
  lemma JoinedEntries(errors: map<string, ValidatorError>)
    ensures "name" in errors ==> Join(Entries(errors)) == Entry(errors, "name") + NumberTail(errors)
    ensures "number" in errors ==> Join(Entries(errors)) == NameHead(errors) + Entry(errors, "number")
  {
    if "name" in errors && "number" in errors {
      var parts := [Entry(errors, "name"), Entry(errors, "number")];
      assert Entries(errors) == parts;
      assert parts[1..] == [Entry(errors, "number")];
    } else if "name" in errors {
      assert Entries(errors) == [Entry(errors, "name")];
      assert Entry(errors, "name") + "" == Entry(errors, "name");
    } else if "number" in errors {
      assert Entries(errors) == [Entry(errors, "number")];
      assert "" + Entry(errors, "number") == Entry(errors, "number");
    }
  }

  lemma ContainsHead(h: string, t: string, b: string)
    ensures Contains(h + (t + b), t)
  {
    ContainsMiddle(h, t, b);
    assert h + (t + b) == h + t + b;
  }

  lemma ContainsEnd(h: string, a: string, t: string)
    ensures Contains(h + (a + t), t)
  {
    ContainsMiddle(h + a, t, "");
    assert h + (a + t) == h + a + t + "";
  }

  /** `header` followed by the joined entries holds the entry of every failing path. */
  lemma EntriesInMessage(header: string, errors: map<string, ValidatorError>, path: string)
    requires path in errors && path in {"name", "number"}
    ensures Contains(header + Join(Entries(errors)), Entry(errors, path))
  {
    JoinedEntries(errors);
    if path == "name" {
      ContainsHead(header, Entry(errors, "name"), NumberTail(errors));
    } else {
      ContainsEnd(header, NameHead(errors), Entry(errors, "number"));
    }
  }

  /** The `message` of the `ValidationError` that `save()` rejects with: it opens with the
      model's name and holds the "path: message" entry of every failing path. */
  function ValidationMessage(errors: map<string, ValidatorError>): (m: string)
    ensures OccursAt(m, MODEL_NAME + " validation failed: ", 0)
    ensures forall path :: path in errors && path in {"name", "number"} ==> Contains(m, Entry(errors, path))
  {
    var header := MODEL_NAME + " validation failed: ";
    forall path | path in errors && path in {"name", "number"}
      ensures Contains(header + Join(Entries(errors)), Entry(errors, path))
    {
      EntriesInMessage(header, errors, path);
    }
    header + Join(Entries(errors))
  }

  /** So does the whole `ValidationError` message, whatever else failed beside it. */
  lemma ValidationMessageNamesBadNumber(c: Candidate)
    requires Present(c.number) && !ValidNumber(c.number)
    ensures Contains(ValidationMessage(Validate(c)), c.number.value)
  {
    var errors := Validate(c);
    var v := c.number.value;
    assert errors["number"] == BadNumber(v);
    var message := ValidatorMessage(errors["number"]);
    var e := Entry(errors, "number");
    ContainsMiddle("number" + ": ", message, "");
    assert e == "number" + ": " + message + "";
    ContainsTransitive(e, message, v);
    assert Contains(ValidationMessage(errors), e);
    ContainsTransitive(ValidationMessage(errors), e, v);
  }

  /** `newPerson.save()` for a new document: the ObjectId `oid` is assigned when the document
      is built, validation runs before anything is written, and `write` is the database's
      verdict on the insert (`None` when it succeeds). */
  function Save(c: Candidate, oid: string, write: Option<Error>): (r: Settled<Person>)
    ensures Validate(c) != map[] ==>
      r == Rejected(Error("ValidationError", ValidationMessage(Validate(c))))
    ensures Validate(c) == map[] && write.Some? ==> r == Rejected(write.value)
    ensures r.Fulfilled? <==> Validate(c) == map[] && write.None?
    ensures r.Fulfilled? ==>
      r.value == Person(oid, c.name.value, c.number.value, 0) &&
      JsLength(r.value.name) >= NAME_MIN_LENGTH && IsPhoneNumber(r.value.number)
  {
    var errors := Validate(c);
    if errors != map[] then Rejected(Error("ValidationError", ValidationMessage(errors)))
    else if write.Some? then Rejected(write.value)
    else Fulfilled(Person(oid, c.name.value, c.number.value, 0))
  }

  /** A property value of a document's plain-object form. */
  datatype Value = Text(s: string) | ObjectId(hex: string) | Number(n: int)

  /** `document.toObject()`: the plain object the `toJSON` transform receives. */
  function Raw(p: Person): map<string, Value> {
    map["_id" := ObjectId(p.oid), "name" := Text(p.name), "number" := Text(p.number),
        "__v" := Number(p.version)]
  }

  /** The object the `toJSON` transform leaves behind: `id` holds the text of `_id`,
      `_id` and `__v` are gone, and every other property is as it was. */
  function ToJson(obj: map<string, Value>): (r: map<string, Value>)
    requires "_id" in obj && obj["_id"].ObjectId?
    ensures r.Keys == obj.Keys - {"_id", "__v"} + {"id"}
    ensures r["id"] == Text(obj["_id"].hex)
    ensures forall k :: k in obj && k != "_id" && k != "__v" && k != "id" ==> r[k] == obj[k]
  {
    obj["id" := Text(obj["_id"].hex)] - {"_id", "__v"}
  }

  /** The public form of a stored contact: exactly `id`, `name` and `number`. */
  function PublicJson(p: Person): map<string, Value> {
    ToJson(Raw(p))
  }

  lemma PublicShape(p: Person)
    ensures PublicJson(p) == map["id" := Text(p.oid), "name" := Text(p.name), "number" := Text(p.number)]
    ensures "_id" !in PublicJson(p) && "__v" !in PublicJson(p)
  {
    var r := PublicJson(p);
    var expected := map["id" := Text(p.oid), "name" := Text(p.name), "number" := Text(p.number)];
    assert r.Keys == expected.Keys;
    assert r["name"] == expected["name"] && r["number"] == expected["number"];
  }

  /** The object `toJSON` hands to the transform, which updates it in place. */
  class PlainObject {
    var props: map<string, Value>

    constructor (props: map<string, Value>)
      ensures this.props == props
    {
      this.props := props;
    }
  }

  /** The schema's `toJSON` transform. */
  method Transform(document: Person, returnedObject: PlainObject)
    requires "_id" in returnedObject.props && returnedObject.props["_id"].ObjectId?
    modifies returnedObject
    ensures returnedObject.props == ToJson(old(returnedObject.props))
  {
    returnedObject.props := returnedObject.props["id" := Text(returnedObject.props["_id"].hex)];
    returnedObject.props := returnedObject.props - {"_id"};
    returnedObject.props := returnedObject.props - {"__v"};
  }

  /** `document.toJSON()`: the plain object of the document, passed through the transform. */
  method DocumentToJson(document: Person) returns (json: map<string, Value>)
    ensures json.Keys == {"id", "name", "number"}
    ensures json["id"] == Text(document.oid)
    ensures json["name"] == Text(document.name) && json["number"] == Text(document.number)
  {
    var returnedObject := new PlainObject(Raw(document));
    Transform(document, returnedObject);
    json := returnedObject.props;
    PublicShape(document);
  }
}
