# Contact-form backend: a functional model

The backend is an Express server with one piece of real decision logic: the
`POST /api/contact` handler. It checks that `name`, `email` and `message`
are all truthy in the JavaScript sense, saves one contact record, and answers 201, 400 or 500. In front
of it sits a CORS origin rule driven by the `FRONTEND_URL` setting. This
project models that logic as pure Dafny functions and proves what the code
promises about it.

- `JsValues` models the JavaScript values involved: truthiness (`!x`), the
  `a || b` operator, and reading a property of the parsed JSON body.
- `Config` models the `env.X || default` resolution of `PORT`, `MONGO_URI`
  and `FRONTEND_URL`.
- `Cors` models the `origin` callback given to the cors middleware.
- `ContactRoute` models the contact handler and the global error handler.
  The document store is a `seq<Record>`, and the outcome of `save()` is an
  input.
- `Server` composes CORS and the handler for one request. `Server.Run`
  serves a sequence of requests one after another against the same store.

Some consequences of the code that the model keeps as written:

- The global error handler echoes the error's `message` text to the caller
  in an `error` field (server.js:78).
- The default database URI is `mongodb://localhost:27017/commingsoon`
  (server.js:13).
- A request whose origin CORS rejects reaches the global error handler
  through `next(err)`, so it gets status 500 with the `error` text "CORS not
  allowed from this origin" (server.js:22, server.js:76-78).
- An empty `Origin` header is falsy in JavaScript, so it is admitted like a
  missing one (server.js:19).

## Model

| member | source | states |
|---|---|---|
| JsValues.Truthy | server.js:62 | a value is truthy exactly when it is not one of JavaScript's falsy values (undefined, null, false, 0, the empty string) |
| JsValues.Property | server.js:59 | a lookup: the destructured property is the body's value for that key, or `undefined` when the key is absent |
| JsValues.Or | server.js:12-14 | `a || b` yields the first operand when it is truthy and the second otherwise, and is truthy exactly when either operand is |
| Config.EnvVar | server.js:12-14 | a lookup: `process.env.X` is the variable's string when set and `undefined` otherwise |
| Config.StringSetting | server.js:13-14 | a string setting is the environment value when that value is set and non-empty, otherwise the default |
| Config.Resolve | server.js:12-14 | PORT resolves to the environment string or the number 5000; MONGO_URI to the environment value or the local `commingsoon` URI; FRONTEND_URL to the environment value or `*`, and is never empty |
| Cors.HeaderValue | server.js:18 | a lookup: the origin passed to the callback is the header's string, or `undefined` when the request has no `Origin` header |
| Cors.CheckOrigin | server.js:18-23 | an origin is admitted iff it is missing or empty, or the frontend URL is `*`, or it equals the frontend URL exactly; any rejection carries "CORS not allowed from this origin" |
| Cors.SpecificUrlAdmitsOnlyItself | server.js:19-22 | with a non-wildcard frontend URL, a non-empty origin is admitted iff it equals that URL, and is rejected with the fixed message otherwise |
| Cors.UnsetFrontendUrlAdmitsAll | server.js:14 | with FRONTEND_URL unset or empty, every origin is admitted |
| ContactRoute.RecordOf | server.js:66 | the record holds the body's `name`, `email` and `message` in the fields of the same names, and has three truthy fields iff the body passes validation |
| ContactRoute.ErrorHandler | server.js:76-79 | a forwarded error becomes status 500 with "Internal Server Error" and the error's own message echoed in `error` |
| ContactRoute.HandleContact | server.js:57-73 | 400 "All fields are required" iff a field is falsy, with the store unchanged and no save; otherwise one save; 201 with the confirmation and exactly one appended record carrying the three body values iff the save succeeds; 500 with the save's error text and the store unchanged iff it fails; earlier records are never altered and the all-fields-truthy store invariant is kept |
| ContactRoute.FalsyFieldRejected | server.js:62-63 | a body whose `name`, `email` or `message` is falsy (missing, null, false, 0, empty) gets the 400 response and leaves the store unchanged |
| ContactRoute.NonEmptyStringsAccepted | server.js:62 | any body whose three fields are non-empty strings, whitespace-only or not e-mail-shaped included, passes validation and reaches the one save |
| Server.Serve | server.js:17-27 | a request from a rejected origin gets the 500 error response with the CORS message, never reaches the handler and saves nothing; an admitted one is handled by the contact handler |
| Server.Run | server.js:57-73 | serving a run of requests gives one response per request, only appends to the store, and keeps every stored record's fields truthy |
| Server.RunGrowth | server.js:66-69 | after a run, the store has grown by exactly the number of 201 responses |
| Server.RunContents | server.js:66-69 | after a run, the store is the starting store followed by the record of each request answered 201, in request order |
| Server.NoDeduplication | server.js:66-67 | serving the same admitted valid payload twice with successful saves answers 201 twice and stores two identical records |

## Left out

- The MongoDB connection at start-up and the `process.exit(1)` on failure (server.js lines 32-43): network I/O and process termination.
- The `Contact` model (`./models/Contact`) is not part of this model: identifier and timestamp assignment, schema casting and schema validation are represented only by the save outcome being an input.
- Express routing, `express.json()` body parsing (including its own parse errors) and `app.listen`: the handler receives an already-parsed JSON object; a JSON array body reads as an object without the three keys.
- The health and test routes (server.js lines 47-54): constant responses.
- Console logging: a side effect only.
- The cors middleware's other options (allowed methods and headers) and pre-flight handling: only the origin rule is modelled.
- Asynchronous scheduling and concurrent requests: requests are served one at a time.
- JsValues.Truthy: `NaN` is not a modelled value, since neither JSON nor the environment produces it.
- ContactRoute.ErrorHandler: an error whose `message` is not a string (so that `error` would be omitted or not text) is not modelled; every error carries a string message.
- Loading of the `.env` file by `dotenv` (server.js:2): `Config.Env` is `process.env` as it stands after that file has been loaded.
