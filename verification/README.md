# Phonebook service: contact rules and request decisions

A model of the phonebook web service's logic. The service stores contacts (a name and a phone
number) in a document database and serves them over HTTP under `/api/persons`. The model has
two parts.

- The contact schema of `models/person.js`: the phone-number pattern `^\d{2,3}-\d+$`, the
  `required` and `minLength` rules, what `save()` does with them, and the `toJSON` transform
  that gives a stored contact its public shape `{id, name, number}`.
- The decisions of the route handlers in `index.js`. Each handler becomes a function from the
  way its database query settled (`Settled<T>`: fulfilled with a value, or rejected with an
  `Error` whose `name` and `message` are all the service reads) to the response it sends. The
  same applies to the POST guard, `unknownEndpoint`, `errorHandler` and the `postData` logging
  token.

Files:

- `wrappers.dfy`, module `Wrappers`: `Option`, the JavaScript `Error`, and `Settled`.
- `phone_number.dfy`, module `PhoneNumber`: the pattern as a deterministic automaton that
  accepts the same strings (`Test`), and a reference reading of it (`IsPhoneNumber`: 2 or 3
  digits, `-`, one or more digits). `AutomatonMatchesPattern` proves the two agree. In a
  JavaScript regular expression `\d` is always `[0-9]`, and since the pattern has no `m` flag,
  `^` and `$` anchor at the ends of the whole value.
- `person.dfy`, module `PersonSchema`: per-path validators, `Validate` (the failing paths, as
  in Mongoose's `error.errors`), the `ValidationError` message, `Save`, and `toJSON`. The
  transform updates its argument in place, so it is a method `Transform` on the class
  `PlainObject`. It is proved against the function `ToJson`. `DocumentToJson` runs the
  transform on a fresh plain object, as `document.toJSON()` does.
- `routes.dfy`, module `Routes`: the handlers. A handler's `next(error)` is the `Next`
  response. `Settle` passes it to `ErrorHandler`, as Express does: `unknownEndpoint` takes two
  arguments, so it is skipped for errors.

The schema relies on these conventions of Mongoose. They are made explicit in the model:

- `required` on a String path fails for a missing value and for the empty string.
- Validators other than `required` are skipped for a missing value.
- Each path reports only its first failing validator, and `required` comes first.
- A `ValidationError`'s message is `People validation failed: ` followed by
  `path: message` entries, joined by `, ` and given in schema order.
- The default `required` and `minLength` messages are `Path `name` is required.` and
  `Path `name` (`ab`) is shorter than the minimum allowed length (3).`
- A new document gets its ObjectId when it is built, and its version key `__v` is 0 once it
  is saved.

What the code does, as modelled:

- A POST with a missing or empty field is answered with 400.
- Names need not be unique. No route answers 409, and ids are ObjectIds. `PostLogsBody`
  shows that a POST to `/api/persons` answered by the service gets 201 or 400, and a POST to
  any other path gets 404 from `unknownEndpoint`. So the token's 409 branch is never taken
  for a POST the service answers.
- An error that is neither a `CastError` nor a `ValidationError` is passed on with
  `next(error)`. The service itself never produces a 500 for it.
- `minLength: 3` is checked against JavaScript's `length`, which counts UTF-16 code units.
  `JsLength` counts them: a character outside the Basic Multilingual Plane counts twice.

## Model

| member | source | states |
|---|---|---|
| `PhoneNumber.Test` | models/person.js:26 | `test` accepts a string exactly when it is 2 or 3 ASCII digits, one `-`, then one or more digits, with nothing before or after |
| `PhoneNumber.AutomatonMatchesPattern` | models/person.js:24-27 | the automaton run from its initial state ends in its accepting state exactly on the strings of 2 or 3 ASCII digits, one `-`, then one or more digits |
| `PhoneNumber.AcceptedShape` | models/person.js:26 | every accepted number has length at least 4 and exactly one hyphen, at index 2 or at index 3 |
| `PhoneNumber.AcceptsTwoDigitPrefix` | models/person.js:26 | `"09-1234567"` is accepted |
| `PhoneNumber.AcceptsThreeDigitPrefix` | models/person.js:26 | `"040-123456"` is accepted |
| `PhoneNumber.RejectedExamples` | models/person.js:26 | `"1-22"`, `"1234-5"`, `"12-"`, `"12-34-56"` and `"ab-123"` are rejected |
| `PersonSchema.CheckName` | models/person.js:17-21 | the name passes exactly when present with at least 3 UTF-16 code units; a missing or empty name reports `required`, a shorter one reports `minLength` with the value |
| `PersonSchema.CheckNumber` | models/person.js:22-31 | the number passes exactly when present and matching the pattern; a missing or empty number reports `required`, any other failure reports the pattern error with the rejected value |
| `PersonSchema.Validate` | models/person.js:16-32 | the failing paths are among `name` and `number`; `name` fails exactly when the name rule fails and `number` exactly when the number rule fails; the record is valid exactly when both rules hold; each path carries its own validator's error |
| `PersonSchema.FieldsCheckedIndependently` | models/person.js:16-32 | two records with the same name get the same verdict on `name`, and two with the same number the same verdict on `number` |
| `PersonSchema.RequiredAndMinLength` | models/person.js:17-30 | a record without a name or without a number is invalid, as is one whose name is shorter than 3 UTF-16 code units; an empty name or number reports `required` |
| `PersonSchema.JsLength` | models/person.js:20 | the length `minLength` compares is at least the number of characters and at most twice it, and equals it when every character is in the Basic Multilingual Plane |
| `PersonSchema.JsLengthAppend` | models/person.js:20 | the length of a concatenation is the sum of the lengths |
| `PersonSchema.JsLengthOfChar` | models/person.js:20 | a character outside the Basic Multilingual Plane adds 2 to the length and any other character adds 1; with `JsLengthAppend` this fixes the length of every string |
| `PersonSchema.NameLengthInCodeUnits` | models/person.js:20 | a two-character name with one character outside the Basic Multilingual Plane passes `minLength: 3`; `"ab"` does not |
| `PersonSchema.ValidatorMessage` | models/person.js:28 | the invalid-number message contains the rejected value; the default `required` and `minLength` messages contain the path, and the `minLength` one also the rejected value |
| `PersonSchema.ValidationMessage` | index.js:76-80 | the message of the `ValidationError` that `save()` rejects with starts with `People validation failed: ` and contains the `path: message` entry of every failing path |
| `PersonSchema.ValidationMessageNamesBadNumber` | models/person.js:28 | the message of the whole `ValidationError` for a present, malformed number contains that number, whether or not the name failed too |
| `PersonSchema.Save` | index.js:76-78 | a record failing validation is rejected with a `ValidationError` before anything is written; a valid one is rejected with the database's error if the write fails, and otherwise stored with its ObjectId, its fields unchanged and version 0; a stored name has at least 3 UTF-16 code units and a stored number matches the pattern |
| `PersonSchema.ToJson` | models/person.js:35-41 | after the transform `id` holds the text of `_id`, `_id` and `__v` are absent, and every other key keeps its value |
| `PersonSchema.PublicShape` | models/person.js:35-41 | the public form of a stored contact is exactly `{id, name, number}` with `id` the ObjectId's text |
| `PersonSchema.Transform` | models/person.js:36-40 | the in-place transform leaves the object equal to `ToJson` of what it was |
| `PersonSchema.DocumentToJson` | models/person.js:35-41 | `toJSON` of a stored contact has exactly the keys `id`, `name` and `number`, holding the ObjectId's text and the contact's fields |
| `Routes.ErrorHandler` | index.js:108-118 | `CastError` gives 400 with `malformatted id`; `ValidationError` gives 400 with the error's own message; any other error gets no response and is passed on unchanged |
| `Routes.Settle` | index.js:101-119 | a handler's reply is sent unchanged; a handler's `next(error)` skips the two-argument `unknownEndpoint` and reaches `errorHandler`, so the client gets 400 or the error is passed on unchanged, and only errors other than `CastError` and `ValidationError` are passed on |
| `Routes.UnknownEndpoint` | index.js:102-104 | any unmatched request gets 404 with `unknown endpoint` |
| `Routes.ListPersons` | index.js:42-46 | a fulfilled query gives 200 with every contact in query order, each in its public form; a rejected one passes its error on |
| `Routes.GetPerson` | index.js:49-59 | a found contact gives 200 with its public form; no contact gives 404 with an empty body; a query error is passed on |
| `Routes.UpdatePerson` | index.js:84-99 | an updated contact gives 200 with its public form; no contact gives 404 with an empty body; a query error is passed on |
| `Routes.DeletePerson` | index.js:62-66 | a settled deletion gives 204 with an empty body; a query error is passed on |
| `Routes.DeleteIdempotent` | index.js:62-65 | deleting an existing contact and deleting a missing one give the same response |
| `Routes.PostGuard` | index.js:69-74 | the POST handler answers at once, with 400 and `Missing name or number`, exactly when `name` or `number` is absent or empty; otherwise it builds a contact from the two fields |
| `Routes.PostSaved` | index.js:78-80 | a successful save gives 201 with the saved contact's public form; a failed one passes its error on |
| `Routes.PostPerson` | index.js:69-81 | a falsy field gives 400; a record failing the schema passes a `ValidationError` on; a write error is passed on; otherwise 201 with `{id, name, number}` holding the new ObjectId and the fields sent |
| `Routes.PostMissingFieldTouchesNothing` | index.js:70-76 | with a falsy field, neither the ObjectId nor the database outcome affects the response, which is 400 `Missing name or number` after error handling too |
| `Routes.PostValidCreates` | index.js:76-79 | a name of at least 3 UTF-16 code units with a well-formed number, saved without error, gives 201 echoing the fields with the new id |
| `Routes.PostBadNumberRejected` | index.js:76-80 | a malformed number reaches the client as a 400 whose error message contains the number sent |
| `Routes.PostShortNameRejected` | index.js:76-80 | a name shorter than 3 UTF-16 code units reaches the client as a 400 |
| `Routes.PostDataToken` | index.js:11-16 | the token logs the request body when the method is POST and the status is not 409, and the `Name must be unique` marker otherwise |
| `Routes.PostLogsBody` | index.js:11-16 | a POST to `/api/persons` that the service answers gets 201 or 400, and a POST to any other path gets 404 from `unknownEndpoint`; neither is 409, so the token logs the body |
| `Routes.RepliesArePublic` | models/person.js:35-41 | the list, lookup, update and create replies show contacts only as `{id, name, number}` |

## Left out

- The database: connecting (with `dotenv` and `MONGODB_URI`) and the queries `find`, `findById`, `save`'s insert, `findByIdAndUpdate` and `findByIdAndDelete` are foreign calls. Their results are parameters of the handler functions.
- ObjectId parsing, the source of `CastError`, happens inside Mongoose. A `CastError` is an input here.
- Update validators under `runValidators` and `context: 'query'` are left out. They validate only the paths in the update, which is Mongoose's own behaviour. `UpdatePerson` takes the outcome of the update, with any `ValidationError`, as its input.
- `Routes.PostPerson`: request bodies are modelled as objects with string values, so a field is falsy only when it is absent or empty. Other JSON values (`null`, `0`, `false`, numbers, objects) and Mongoose's casting of them to strings are not modelled.
- Express plumbing is left out: `express.json`, static serving of `dist`, the placement of the logging and static middleware, `app.listen` and the `PORT` lookup. So is the default final handler that answers errors forwarded by `ErrorHandler`.
- Logging is left out: morgan's format strings, response times, the `skip` predicates and all `console` output. `JSON.stringify` is left out too: `PostDataToken` returns the object that would be serialised.
- `GET /info` is left out. It shows a count and the current date as HTML; the clock is nondeterministic and the output is presentation.
- Validate, CheckName: a Dafny `string` holds Unicode scalar values, so a name carrying a lone surrogate (which a JSON body may contain and a JavaScript string may hold) is not modelled; every other name is measured in UTF-16 code units, as `minLength` does.
- Promise chaining is left out. Each handler is one decision on the settled query.
