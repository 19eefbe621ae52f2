/** One `POST /api/contact` request as the application serves it: the CORS
    middleware runs first (server.js lines 17-27), then the contact handler
    (lines 57-73); a CORS rejection is an error passed to `next`, which the
    global error handler (lines 76-79) turns into a 500 response. A run of
    requests is served one after another against the same store. */
module Server {
  import opened Wrappers
  import opened JsValues
  import Config
  import Cors
  import opened ContactRoute

  /** A contact submission: its `Origin` header, its parsed JSON body, and
      the outcome `save()` would have if it were called. */
  datatype Request = Request(origin: Option<string>, body: Body, save: SaveResult)

  /** Serves one request under the resolved settings. */
  function Serve(cfg: Config.Settings, store: Store, req: Request): (o: Outcome)
    ensures Cors.CheckOrigin(req.origin, cfg.frontendUrl).Reject? ==>
      && o.response == Response(500, ServerErrorMessage, Some(Cors.NotAllowedMessage))
      && o.store == store
      && o.saveCalls == 0
    ensures Cors.CheckOrigin(req.origin, cfg.frontendUrl).Admit? ==>
      o == HandleContact(req.body, store, req.save)
  {
    match Cors.CheckOrigin(req.origin, cfg.frontendUrl)
    case Reject(reason) => Outcome(ErrorHandler(reason), store, 0)
    case Admit => HandleContact(req.body, store, req.save)
  }

  /** The responses to a run of requests and the store left at its end. */
  datatype Trace = Trace(responses: seq<Response>, store: Store)

  /** Serves the requests in order, each seeing the store the previous one
      left. The store only ever grows at its end, and it keeps the invariant
      that every record has three truthy fields. */
  function Run(cfg: Config.Settings, store: Store, reqs: seq<Request>): (t: Trace)
    ensures |t.responses| == |reqs|
    ensures store <= t.store
    ensures ValidStore(store) ==> ValidStore(t.store)
    decreases |reqs|
  {
    if |reqs| == 0 then
      Trace([], store)
    else
      var o := Serve(cfg, store, reqs[0]);
      var rest := Run(cfg, o.store, reqs[1..]);
      Trace([o.response] + rest.responses, rest.store)
  }

  /** The number of 201 responses in a sequence. */
  function Created(responses: seq<Response>): (n: nat)
    ensures n <= |responses|
  {
    if |responses| == 0 then 0
    else (if responses[0].status == 201 then 1 else 0) + Created(responses[1..])
  }

  /** Exactly one record is added per 201 response, and none otherwise. */
  lemma {:induction false} RunGrowth(cfg: Config.Settings, store: Store, reqs: seq<Request>)
    ensures |Run(cfg, store, reqs).store| == |store| + Created(Run(cfg, store, reqs).responses)
    decreases |reqs|
  {
    if |reqs| > 0 {
      var o := Serve(cfg, store, reqs[0]);
      var t := Run(cfg, store, reqs);
      RunGrowth(cfg, o.store, reqs[1..]);
      assert t.responses[1..] == Run(cfg, o.store, reqs[1..]).responses;
    }
  }

  /** The records of the requests answered 201, in request order. */
  function Accepted(reqs: seq<Request>, responses: seq<Response>): (rs: seq<Record>)
    requires |reqs| == |responses|
    ensures |rs| == Created(responses)
  {
    if |reqs| == 0 then []
    else
      (if responses[0].status == 201 then [RecordOf(reqs[0].body)] else [])
      + Accepted(reqs[1..], responses[1..])
  }

  /** After a run, the store is the starting store followed by the record of
      each request answered 201, in the order the requests came. */
  lemma {:induction false} RunContents(cfg: Config.Settings, store: Store, reqs: seq<Request>)
    ensures Run(cfg, store, reqs).store == store + Accepted(reqs, Run(cfg, store, reqs).responses)
    decreases |reqs|
  {
    if |reqs| > 0 {
      var o := Serve(cfg, store, reqs[0]);
      var rest := Run(cfg, o.store, reqs[1..]);
      var t := Run(cfg, store, reqs);
      RunContents(cfg, o.store, reqs[1..]);
      assert t.responses[1..] == rest.responses;
      assert t.responses[0] == o.response;
      if o.response.status == 201 {
        assert o.store == store + [RecordOf(reqs[0].body)];
        assert t.store == store + ([RecordOf(reqs[0].body)] + Accepted(reqs[1..], rest.responses));
      } else {
        assert o.store == store;
      }
    }
  }

  /** There is no deduplication: serving the same admitted, valid payload
      twice with successful saves stores two identical records. */
  lemma {:induction false} NoDeduplication(cfg: Config.Settings, store: Store, req: Request)
    requires Cors.CheckOrigin(req.origin, cfg.frontendUrl).Admit?
    requires FieldsPresent(req.body) && req.save == Saved
    ensures Run(cfg, store, [req, req]).store == store + [RecordOf(req.body), RecordOf(req.body)]
    ensures Run(cfg, store, [req, req]).responses == [Response(201, ReceivedMessage, None), Response(201, ReceivedMessage, None)]
  {
    var o1 := Serve(cfg, store, req);
    var o2 := Serve(cfg, o1.store, req);
    assert [req, req][1..] == [req];
    assert [req][1..] == [];
    assert Run(cfg, o2.store, []) == Trace([], o2.store);
    assert Run(cfg, o1.store, [req]) == Trace([o2.response], o2.store);
  }
}
