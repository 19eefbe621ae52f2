/** The `POST /api/contact` handler (server.js lines 57-73) and the global
    error handler it forwards failures to (lines 76-79). The document store
    is a sequence of records in insertion order; whether `save()` succeeds is
    an input, since it depends on the database. */
module ContactRoute {
  import opened Wrappers
  import opened JsValues

  /** A stored contact message: the three body values passed to the
      `Contact` model. Identifier, timestamp and type casting belong to the
      database library and are not modelled. */
  datatype Record = Record(name: JsValue, email: JsValue, message: JsValue)

  type Store = seq<Record>

  /** The outcome of `newContact.save()`: success, or an error whose
      `message` is the given text. */
  datatype SaveResult = Saved | SaveFailed(errorMessage: string)

  /** An HTTP response with its JSON body `{ message, error? }`; `error` is
      omitted when None. */
  datatype Response = Response(status: int, message: string, error: Option<string>)

  /** What handling one request leaves behind: the response, the store, and
      how many times `save()` was called. */
  datatype Outcome = Outcome(response: Response, store: Store, saveCalls: nat)

  const RequiredMessage: string := "All fields are required"
  const ReceivedMessage: string := "\U{2705} Message received successfully!"
  const ServerErrorMessage: string := "Internal Server Error"

  /** Every record the handler writes has three truthy fields. */
  predicate ValidRecord(r: Record) {
    Truthy(r.name) && Truthy(r.email) && Truthy(r.message)
  }

  predicate ValidStore(store: Store) {
    forall i :: 0 <= i < |store| ==> ValidRecord(store[i])
  }

  /** The validation of line 62 passes: none of `name`, `email`, `message`
      is falsy. */
  predicate FieldsPresent(body: Body) {
    Truthy(Property(body, "name")) && Truthy(Property(body, "email")) && Truthy(Property(body, "message"))
  }

  /** The record line 66 builds from the body. */
  function RecordOf(body: Body): (r: Record)
    ensures r == Record(Property(body, "name"), Property(body, "email"), Property(body, "message"))
    ensures FieldsPresent(body) <==> ValidRecord(r)
  {
    Record(Property(body, "name"), Property(body, "email"), Property(body, "message"))
  }

  /** The global error handler: status 500, a fixed message, and the
      error's own message echoed back to the caller. */
  function ErrorHandler(errorMessage: string): (resp: Response)
    ensures resp.status == 500
    ensures resp.message == ServerErrorMessage
    ensures resp.error == Some(errorMessage)
  {
    Response(500, ServerErrorMessage, Some(errorMessage))
  }

  /** The contact handler. A falsy field answers 400 before anything is
      written; otherwise exactly one save is attempted, and its outcome
      decides between 201 with one appended record and 500 with the store as
      it was. Earlier records are never altered. */
  function HandleContact(body: Body, store: Store, save: SaveResult): (o: Outcome)
    ensures o.response.status in {201, 400, 500}
    ensures o.response.status == 400 <==> !FieldsPresent(body)
    ensures o.response.status == 400 ==>
      o.response == Response(400, RequiredMessage, None) && o.store == store && o.saveCalls == 0
    ensures o.response.status != 400 ==> o.saveCalls == 1
    ensures o.response.status == 201 <==> FieldsPresent(body) && save == Saved
    ensures o.response.status == 201 ==>
      && o.response == Response(201, ReceivedMessage, None)
      && o.store == store + [RecordOf(body)]
    ensures o.response.status == 500 ==>
      && save.SaveFailed?
      && o.response == Response(500, ServerErrorMessage, Some(save.errorMessage))
      && o.store == store
    ensures |o.store| == |store| + (if o.response.status == 201 then 1 else 0)
    ensures store <= o.store
    ensures ValidStore(store) ==> ValidStore(o.store)
  {
    if !FieldsPresent(body) then
      Outcome(Response(400, RequiredMessage, None), store, 0)
    else
      var record := RecordOf(body);
      match save
      case Saved => Outcome(Response(201, ReceivedMessage, None), store + [record], 1)
      case SaveFailed(msg) => Outcome(ErrorHandler(msg), store, 1)
  }

  /** The validation is JavaScript falsiness and nothing more: an empty
      string, a missing field, `null`, `0` and `false` are refused, while a
      string of spaces passes (no trimming, no e-mail format check). */
  lemma FalsyFieldRejected(body: Body, key: string, store: Store, save: SaveResult)
    requires key in {"name", "email", "message"}
    requires Property(body, key) in FalsyValues
    ensures HandleContact(body, store, save).response == Response(400, RequiredMessage, None)
    ensures HandleContact(body, store, save).store == store
  {
  }

  /** Any three non-empty strings pass validation, whatever they contain:
      a string of spaces, or an `email` that is not an e-mail address. */
  lemma NonEmptyStringsAccepted(body: Body, store: Store, save: SaveResult)
    requires Property(body, "name").Str? && Property(body, "name").s != ""
    requires Property(body, "email").Str? && Property(body, "email").s != ""
    requires Property(body, "message").Str? && Property(body, "message").s != ""
    ensures HandleContact(body, store, save).response.status != 400
    ensures HandleContact(body, store, save).saveCalls == 1
  {
  }
}
