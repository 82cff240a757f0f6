/** The decisions the phonebook's HTTP handlers make. Each handler is modelled as a function
    from the way its database query settled to the response it sends; a handler that passes
    an error to `next` hands it to `ErrorHandler`, and `Settle` composes the two. */
module Routes {
  import opened Wrappers
  import opened PhoneNumber
  import opened PersonSchema

  /** A parsed JSON request body whose values are strings. */
  type RequestBody = map<string, string>

  datatype Body =
    | NoBody                                   // `res.end()`
    | ErrorJson(error: string)                 // `res.json({ error })`
    | Document(fields: map<string, Value>)     // `res.json(person)`, through `toJSON`
    | Documents(items: seq<map<string, Value>>)  // `res.json(people)`

  datatype Response =
    | Reply(status: nat, body: Body)   // a response was sent
    | Next(error: Error)               // `next(error)`: no response yet

  const MISSING_FIELDS := "Missing name or number"
  const MALFORMATTED_ID := "malformatted id"
  const UNKNOWN_ENDPOINT := "unknown endpoint"
  const NOT_UNIQUE := "Name must be unique"

  /** `req.body[key]` */
  function Field(body: RequestBody, key: string): Option<string> {
    if key in body then Some(body[key]) else None
  }

  /** JavaScript falsiness of a string-valued field: absent or empty. */
  predicate Falsy(v: Option<string>) {
    v.None? || v.value == ""
  }

  /** The error-handling middleware: a bad id and a validation failure become 400 responses;
      every other error goes on to the next error handler. */
  function ErrorHandler(error: Error): (r: Response)
    ensures r.Reply? <==> error.name == "CastError" || error.name == "ValidationError"
    ensures r.Reply? ==> r.status == 400
    ensures error.name == "CastError" ==> r.body == ErrorJson(MALFORMATTED_ID)
    ensures error.name == "ValidationError" ==> r.body == ErrorJson(error.message)
    ensures r.Next? ==> r.error == error
  {
    if error.name == "CastError" then Reply(400, ErrorJson(MALFORMATTED_ID))
    else if error.name == "ValidationError" then Reply(400, ErrorJson(error.message))
    else Next(error)
  }

  /** What the client finally gets from the service's own middleware: a handler's `next(error)`
      skips `unknownEndpoint` (not an error handler) and reaches `ErrorHandler`. */
  function Settle(r: Response): (s: Response)
    ensures r.Reply? ==> s == r
    ensures r.Next? ==> s == ErrorHandler(r.error)
    ensures r.Next? && s.Reply? ==> s.status == 400
    ensures s.Next? ==>
      r.Next? && s.error == r.error && s.error.name != "CastError" && s.error.name != "ValidationError"
  {
    if r.Next? then ErrorHandler(r.error) else r
  }

  /** The fallback for a request no route matched. */
  function UnknownEndpoint(requestMethod: string, url: string): (r: Response)
    ensures r.Reply? && r.status == 404 && r.body == ErrorJson(UNKNOWN_ENDPOINT)
  {
    Reply(404, ErrorJson(UNKNOWN_ENDPOINT))
  }

  /** GET /api/persons: every stored contact, in the order the query returned them. */
  function ListPersons(people: Settled<seq<Person>>): (r: Response)
    ensures r.Next? <==> people.Rejected?
    ensures r.Next? ==> r.error == people.reason
    ensures r.Reply? ==>
      r.status == 200 && r.body.Documents? && |r.body.items| == |people.value| &&
      forall i :: 0 <= i < |people.value| ==> r.body.items[i] == PublicJson(people.value[i])
  {
    match people
    case Rejected(e) => Next(e)
    case Fulfilled(ps) => Reply(200, Documents(seq(|ps|, i requires 0 <= i < |ps| => PublicJson(ps[i]))))
  }

  /** The `.then` of a lookup that may find nothing: the contact, or 404 with no body. */
  function ContactOr404(found: Option<Person>): (r: Response)
    ensures r.Reply?
    ensures r.status == 404 <==> found.None?
    ensures r.status == 404 ==> r.body == NoBody
    ensures found.Some? ==> r == Reply(200, Document(PublicJson(found.value)))
  {
    match found
    case Some(p) => Reply(200, Document(PublicJson(p)))
    case None => Reply(404, NoBody)
  }

  /** GET /api/persons/:id */
  function GetPerson(found: Settled<Option<Person>>): (r: Response)
    ensures r.Next? <==> found.Rejected?
    ensures r.Next? ==> r.error == found.reason
    ensures r.Reply? ==> (r.status == 404 <==> found.value.None?)
    ensures r.Reply? && r.status == 404 ==> r.body == NoBody
    ensures r.Reply? && found.value.Some? ==>
      r.status == 200 && r.body == Document(PublicJson(found.value.value))
  {
    match found
    case Rejected(e) => Next(e)
    case Fulfilled(p) => ContactOr404(p)
  }

  /** PUT /api/persons/:id, given how `findByIdAndUpdate` settled (with `new: true`, the
      updated contact, or nothing when no contact has that id). */
  function UpdatePerson(updated: Settled<Option<Person>>): (r: Response)
    ensures r.Next? <==> updated.Rejected?
    ensures r.Next? ==> r.error == updated.reason
    ensures r.Reply? ==> (r.status == 404 <==> updated.value.None?)
    ensures r.Reply? && r.status == 404 ==> r.body == NoBody
    ensures r.Reply? && updated.value.Some? ==>
      r.status == 200 && r.body == Document(PublicJson(updated.value.value))
  {
    match updated
    case Rejected(e) => Next(e)
    case Fulfilled(p) => ContactOr404(p)
  }

  /** DELETE /api/persons/:id: 204 once the deletion settles, whatever it removed. */
  function DeletePerson(deleted: Settled<Option<Person>>): (r: Response)
    ensures deleted.Fulfilled? ==> r.Reply? && r.status == 204 && r.body == NoBody
    ensures deleted.Rejected? ==> r == Next(deleted.reason)
  {
    match deleted
    case Rejected(e) => Next(e)
    case Fulfilled(_) => Reply(204, NoBody)
  }

  /** Deleting an id that exists and deleting one that does not look the same to the client. */
  lemma DeleteIdempotent(p: Person)
    ensures DeletePerson(Fulfilled(Some(p))) == DeletePerson(Fulfilled(None))
  {
  }

  /** The first step of POST /api/persons: either an immediate response, or the fields a new
      contact is built from. */
  datatype PostStep = Respond(response: Response) | Build(candidate: Candidate)

  /** The guard at the top of the POST handler. */
  function PostGuard(body: RequestBody): (step: PostStep)
    ensures step.Respond? <==> Falsy(Field(body, "name")) || Falsy(Field(body, "number"))
    ensures step.Respond? ==> step.response == Reply(400, ErrorJson(MISSING_FIELDS))
    ensures step.Build? ==>
      step.candidate == Candidate(Some(body["name"]), Some(body["number"])) &&
      Present(step.candidate.name) && Present(step.candidate.number)
  {
    var name, number := Field(body, "name"), Field(body, "number");
    if Falsy(name) || Falsy(number) then Respond(Reply(400, ErrorJson(MISSING_FIELDS)))
    else Build(Candidate(name, number))
  }

  /** The `.then`/`.catch` of `save()`: 201 with the saved contact, or the error to `next`. */
  function PostSaved(saved: Settled<Person>): (r: Response)
    ensures saved.Fulfilled? ==> r == Reply(201, Document(PublicJson(saved.value)))
    ensures saved.Rejected? ==> r == Next(saved.reason)
  {
    match saved
    case Fulfilled(p) => Reply(201, Document(PublicJson(p)))
    case Rejected(e) => Next(e)
  }

  /** POST /api/persons: the guard, then `new People({ name, number })` with the ObjectId
      `oid`, then `save()` with the database's verdict `write` on the insert. */
  function PostPerson(body: RequestBody, oid: string, write: Option<Error>): (r: Response)
    ensures Falsy(Field(body, "name")) || Falsy(Field(body, "number")) ==>
      r == Reply(400, ErrorJson(MISSING_FIELDS))
    ensures !Falsy(Field(body, "name")) && !Falsy(Field(body, "number")) ==>
      var c := Candidate(Some(body["name"]), Some(body["number"]));
      && (Validate(c) != map[] ==> r == Next(Error("ValidationError", ValidationMessage(Validate(c)))))
      && (Validate(c) == map[] && write.Some? ==> r == Next(write.value))
      && (Validate(c) == map[] && write.None? ==>
            r == Reply(201, Document(map["id" := Text(oid), "name" := Text(body["name"]),
                                         "number" := Text(body["number"])])))
  {
    match PostGuard(body)
    case Respond(response) => response
    case Build(candidate) =>
      var r := PostSaved(Save(candidate, oid, write));
      PublicShape(Person(oid, candidate.name.value, candidate.number.value, 0));
      r
  }

  /** A falsy field is answered before any contact is built: the ObjectId and the database
      play no part in the response. */
  lemma PostMissingFieldTouchesNothing(body: RequestBody, oid: string, oid': string, write: Option<Error>, write': Option<Error>)
    requires Falsy(Field(body, "name")) || Falsy(Field(body, "number"))
    ensures PostGuard(body).Respond?
    ensures PostPerson(body, oid, write) == PostPerson(body, oid', write')
    ensures Settle(PostPerson(body, oid, write)) == Reply(400, ErrorJson(MISSING_FIELDS))
  {
  }

  /** A name and number that pass the schema are stored and echoed back with their new id. */
  lemma PostValidCreates(name: string, number: string, oid: string)
    requires JsLength(name) >= NAME_MIN_LENGTH && IsPhoneNumber(number)
    ensures Settle(PostPerson(map["name" := name, "number" := number], oid, None)) ==
      Reply(201, Document(map["id" := Text(oid), "name" := Text(name), "number" := Text(number)]))
  {
    var body := map["name" := name, "number" := number];
    assert Field(body, "name") == Some(name) && Field(body, "number") == Some(number);
    assert number != "";
  }

  /** A present number that fails the pattern is answered with 400, and the error message the
      client receives contains the number it sent. */
  lemma PostBadNumberRejected(body: RequestBody, oid: string, write: Option<Error>)
    requires !Falsy(Field(body, "name")) && !Falsy(Field(body, "number"))
    requires !IsPhoneNumber(body["number"])
    ensures Settle(PostPerson(body, oid, write)).Reply?
    ensures Settle(PostPerson(body, oid, write)).status == 400
    ensures Settle(PostPerson(body, oid, write)).body.ErrorJson?
    ensures Contains(Settle(PostPerson(body, oid, write)).body.error, body["number"])
  {
    var c := Candidate(Some(body["name"]), Some(body["number"]));
    assert Validate(c) != map[];
    ValidationMessageNamesBadNumber(c);
  }

  /** A name of fewer than three UTF-16 code units is answered with 400 even when the number is fine. */
  lemma PostShortNameRejected(body: RequestBody, oid: string, write: Option<Error>)
    requires !Falsy(Field(body, "name")) && !Falsy(Field(body, "number"))
    requires JsLength(body["name"]) < NAME_MIN_LENGTH
    ensures Settle(PostPerson(body, oid, write)).Reply?
    ensures Settle(PostPerson(body, oid, write)).status == 400
  {
    var c := Candidate(Some(body["name"]), Some(body["number"]));
    assert "name" in Validate(c);
  }

  /** The `postData` logging token: the request body for a POST answered with anything but
      409, and a fixed uniqueness marker otherwise. */
  function PostDataToken(requestMethod: string, status: int, body: RequestBody): (logged: RequestBody)
    ensures requestMethod == "POST" && status != 409 ==> logged == body
    ensures requestMethod != "POST" || status == 409 ==> logged == map["error" := NOT_UNIQUE]
  {
    if requestMethod == "POST" && status != 409 then body else map["error" := NOT_UNIQUE]
  }

  /** No POST the service answers gets 409: the POST route settles to 201 or 400, and a POST
      to any other path (`/info` included, which only has a GET route) reaches `unknownEndpoint`
      and gets 404. So the token logs the body of every POST the service answers. */
  lemma PostLogsBody(body: RequestBody, url: string, oid: string, write: Option<Error>)
    ensures Settle(PostPerson(body, oid, write)).Reply? ==>
      Settle(PostPerson(body, oid, write)).status in {201, 400} &&
      PostDataToken("POST", Settle(PostPerson(body, oid, write)).status, body) == body
    ensures UnknownEndpoint("POST", url).status == 404 &&
      PostDataToken("POST", UnknownEndpoint("POST", url).status, body) == body
  {
  }

  /** A body that shows contacts only in their public form: `id`, `name` and `number`. */
  predicate PublicBody(b: Body) {
    match b
    case Document(fields) => fields.Keys == {"id", "name", "number"}
    case Documents(items) => forall i :: 0 <= i < |items| ==> items[i].Keys == {"id", "name", "number"}
    case _ => true
  }

  /** No reply of a contact route exposes `_id`, `__v` or any other stored key. */
  lemma RepliesArePublic(people: Settled<seq<Person>>, found: Settled<Option<Person>>, saved: Settled<Person>)
    ensures ListPersons(people).Reply? ==> PublicBody(ListPersons(people).body)
    ensures GetPerson(found).Reply? ==> PublicBody(GetPerson(found).body)
    ensures UpdatePerson(found).Reply? ==> PublicBody(UpdatePerson(found).body)
    ensures PostSaved(saved).Reply? ==> PublicBody(PostSaved(saved).body)
  {
    if people.Fulfilled? {
      var items := ListPersons(people).body.items;
      forall i | 0 <= i < |items| ensures items[i].Keys == {"id", "name", "number"} {
        PublicShape(people.value[i]);
      }
    }
    if found.Fulfilled? && found.value.Some? {
      PublicShape(found.value.value);
    }
    if saved.Fulfilled? {
      PublicShape(saved.value);
    }
  }
}
