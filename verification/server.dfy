/** The four routes of the Express server: the two proxies to the Python data
    engine (`/api/telemetry`, which also auto-saves the run, and
    `/api/stints`) and the two archive routes over the `Comparison` store.
    Each route is a pure function from the request, the outcome of the one
    outbound call it makes, and the store, to the response and the new store. */
module Server {
  import opened Values
  import opened ComparisonModel

  /** How the `axios.get` to the engine settled: resolved with a body; rejected
      with a response (`err.response`); rejected after the request went out
      but before any response (`err.request`); or rejected while setting the
      request up. */
  datatype Upstream = Ok(data: Json) | Rejected(status: int, data: Json) | NoResponse | SetupFault

  /** The outbound call: engine path and query parameters. */
  datatype EngineRequest = EngineRequest(path: string, params: Fields)

  /** What a route writes: `res.json(value)` of an engine body, a message
      object or stored documents, or `res.send(text)`. */
  datatype Body =
    | JsonBody(json: Json)
    | TextBody(text: string)
    | RecordBody(record: Comparison)
    | RecordsBody(records: seq<Comparison>)

  datatype Response = Response(status: int, body: Body)

  /** A response together with the store the route leaves behind. */
  datatype Handled = Handled(response: Response, store: Store)

  const TelemetryPath := "/telemetry"
  const StintsPath := "/stints"
  const UnreachableMsg := "Python Data Engine not reachable"
  const ServerErrorMsg := "Server Error"

  /** The five query keys the proxies destructure and pass on. */
  const QueryKeys: set<string> := {"year", "race", "session", "driver1", "driver2"}

  /** The `{ msg: ... }` object of the proxies' error responses. */
  function MsgBody(msg: string): Json {
    JObj([("msg", JStr(msg))])
  }

  /** The engine parameters built from `req.query`: the five named keys
      only, with their values unchanged; an absent key is not sent. */
  function Forwarded(q: Fields): (p: Fields)
    ensures p.Keys == q.Keys * QueryKeys
    ensures forall k :: k in p ==> p[k] == q[k]
  {
    map k | k in q && k in QueryKeys :: q[k]
  }

  function TelemetryRequest(q: Fields): EngineRequest {
    EngineRequest(TelemetryPath, Forwarded(q))
  }

  function StintsRequest(q: Fields): EngineRequest {
    EngineRequest(StintsPath, Forwarded(q))
  }

  /** The proxies' `catch` block: mirror the engine's response if there was
      one, 503 if the request went unanswered, 500 otherwise. */
  function ClassifyFailure(o: Upstream): (r: Response)
    requires !o.Ok?
    ensures o.Rejected? ==> r == Response(o.status, JsonBody(o.data))
    ensures o.NoResponse? ==> r == Response(503, JsonBody(MsgBody(UnreachableMsg)))
    ensures o.SetupFault? ==> r == Response(500, JsonBody(MsgBody(ServerErrorMsg)))
  {
    match o
    case Rejected(status, data) => Response(status, JsonBody(data))
    case NoResponse => Response(503, JsonBody(MsgBody(UnreachableMsg)))
    case SetupFault => Response(500, JsonBody(MsgBody(ServerErrorMsg)))
  }

  /** The body key each required path is read from. */
  function FieldName(p: Path): string {
    match p
    case TitlePath => "title"
    case YearPath => "year"
    case RacePath => "race"
    case SessionPath => "session"
    case Driver1Path => "driver1"
    case Driver2Path => "driver2"
  }

  /** The auto-saved run's title, as the template literal prints it: year,
      race and the two drivers as given, and `undefined` for a missing one. */
  function Title(q: Fields): (t: string)
    ensures "year" in q && "race" in q && "driver1" in q && "driver2" in q ==>
      t == q["year"] + " " + q["race"] + " - " + q["driver1"] + " vs " + q["driver2"]
    ensures "year" !in q ==> |t| >= 10 && t[..10] == "undefined "
  {
    Interpolate(Lookup(q, "year")) + " " + Interpolate(Lookup(q, "race")) + " - "
      + Interpolate(Lookup(q, "driver1")) + " vs " + Interpolate(Lookup(q, "driver2"))
  }

  /** The document the telemetry proxy tries to save after the engine
      answered: the generated title, each other path read from the query key
      of its own name, and no `createdAt`. */
  function AutoSaveDraft(q: Fields): (d: Draft)
    ensures d.title == Some(Title(q))
    ensures forall p :: p != TitlePath ==> Given(d, p) == Lookup(q, FieldName(p))
    ensures d.createdAt.None?
  {
    Draft(Some(Title(q)), Lookup(q, "year"), Lookup(q, "race"), Lookup(q, "session"),
          Lookup(q, "driver1"), Lookup(q, "driver2"), None)
  }

  /** A stored document is the auto-save of query `q` made at `env`. */
  ghost predicate AutoSavedFrom(c: Comparison, q: Fields, env: StoreEnv) {
    && c.title == Title(q)
    && Lookup(q, "year").Some? && env.castNumber(q["year"]) == Some(c.year)
    && Lookup(q, "race") == Some(c.race)
    && Lookup(q, "session") == Some(c.session)
    && Lookup(q, "driver1") == Some(c.driver1)
    && Lookup(q, "driver2") == Some(c.driver2)
    && c.createdAt == env.now
  }

  /** The auto-save passes validation exactly when all five query keys are
      present and `year` casts to a Number; the generated title is always there. */
  lemma AutoSaveAcceptable(q: Fields, castNumber: string -> Option<real>)
    ensures Acceptable(AutoSaveDraft(q), castNumber) <==> QueryKeys <= q.Keys && castNumber(q["year"]).Some?
  {
  }

  /** Whether the best-effort auto-save of query `q` goes through. */
  predicate AutoSaveSucceeds(q: Fields, env: StoreEnv) {
    Acceptable(AutoSaveDraft(q), env.castNumber) && env.reachable
  }

  /** `GET /api/telemetry`. When the engine answers, its body is returned
      with 200 whatever happens to the auto-save; the auto-save adds at most
      one document and is attempted only after the engine answered. */
  function TelemetryRoute(q: Fields, o: Upstream, env: StoreEnv, s: Store): (h: Handled)
    ensures o.Ok? ==> h.response == Response(200, JsonBody(o.data))
    ensures !o.Ok? ==> h.response == ClassifyFailure(o)
    ensures !o.Ok? || !AutoSaveSucceeds(q, env) ==> h.store == s
    ensures o.Ok? && AutoSaveSucceeds(q, env) ==>
      && |h.store.records| == |s.records| + 1
      && h.store.records[..|s.records|] == s.records
      && h.store.records[|s.records|].id == s.nextId
      && AutoSavedFrom(h.store.records[|s.records|], q, env)
      && h.store.nextId == s.nextId + 1
  {
    match o
    case Ok(data) =>
      var after := match Create(s, AutoSaveDraft(q), env)
        case Success((_, saved)) => saved
        case Failure(_) => s;
      Handled(Response(200, JsonBody(data)), after)
    case _ =>
      Handled(ClassifyFailure(o), s)
  }

  /** `GET /api/stints`: the same proxy without any store access. */
  function StintsRoute(q: Fields, o: Upstream): (r: Response)
    ensures o.Ok? ==> r == Response(200, JsonBody(o.data))
    ensures !o.Ok? ==> r == ClassifyFailure(o)
  {
    match o
    case Ok(data) => Response(200, JsonBody(data))
    case _ => ClassifyFailure(o)
  }

  /** The document `POST /api/comparisons` builds from the six body keys it
      destructures: each path read from the key of its own name, and no
      `createdAt`. */
  function PostDraft(body: Fields): (d: Draft)
    ensures forall p :: Given(d, p) == Lookup(body, FieldName(p))
    ensures d.createdAt.None?
  {
    Draft(Lookup(body, "title"), Lookup(body, "year"), Lookup(body, "race"),
          Lookup(body, "session"), Lookup(body, "driver1"), Lookup(body, "driver2"), None)
  }

  /** `POST /api/comparisons`: the saved document, with its identifier and
      time, on success; a plain-text 500 when validation or the write fails. */
  function PostComparison(body: Fields, env: StoreEnv, s: Store): (h: Handled)
    ensures h.response.status == 200 <==> Create(s, PostDraft(body), env).Success?
    ensures h.response.status == 200 ==>
      && h.response.body.RecordBody?
      && h.response.body.record.id == s.nextId
      && Carries(h.response.body.record, PostDraft(body), env)
      && h.store == Store(s.records + [h.response.body.record], s.nextId + 1)
    ensures h.response.status != 200 ==>
      h.response == Response(500, TextBody(ServerErrorMsg)) && h.store == s
  {
    match Create(s, PostDraft(body), env)
    case Success((saved, after)) => Handled(Response(200, RecordBody(saved)), after)
    case Failure(_) => Handled(Response(500, TextBody(ServerErrorMsg)), s)
  }

  /** `GET /api/comparisons`: every stored document, newest first, or a
      plain-text 500 when the store cannot be read. */
  function ListComparisons(env: StoreEnv, s: Store): (r: Response)
    ensures env.reachable ==>
      && r.status == 200 && r.body.RecordsBody?
      && NewestFirst(r.body.records)
      && multiset(r.body.records) == multiset(s.records)
    ensures !env.reachable ==> r == Response(500, TextBody(ServerErrorMsg))
  {
    match ListRecent(s, env)
    case Success(rs) => Response(200, RecordsBody(rs))
    case Failure(_) => Response(500, TextBody(ServerErrorMsg))
  }
}
