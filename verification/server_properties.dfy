/** Properties that relate several calls of the server's routes: what the
    response does not depend on, what the store keeps across routes, and the
    concrete scenarios of the proxy's contract. */
module ServerProperties {
  import opened Values
  import opened ComparisonModel
  import opened Server

  /** The telemetry response is decided by the engine's outcome alone: neither
      the store's contents nor whether the auto-save goes through changes it. */
  lemma TelemetryResponseIgnoresStore(q: Fields, o: Upstream, env1: StoreEnv, env2: StoreEnv, s1: Store, s2: Store)
    ensures TelemetryRoute(q, o, env1, s1).response == TelemetryRoute(q, o, env2, s2).response
  {
  }

  /** Both proxies answer alike for the same engine outcome. */
  lemma ProxiesAgree(q: Fields, o: Upstream, env: StoreEnv, s: Store)
    ensures StintsRoute(q, o) == TelemetryRoute(q, o, env, s).response
  {
  }

  /** Only the five named query keys matter: two queries that agree on them
      send the same engine requests and leave the same store behind. */
  lemma OnlyQueryKeysMatter(q1: Fields, q2: Fields, o: Upstream, env: StoreEnv, s: Store)
    requires forall k :: k in QueryKeys ==> Lookup(q1, k) == Lookup(q2, k)
    ensures TelemetryRequest(q1) == TelemetryRequest(q2)
    ensures StintsRequest(q1) == StintsRequest(q2)
    ensures TelemetryRoute(q1, o, env, s) == TelemetryRoute(q2, o, env, s)
  {
  }

  /** A telemetry query without `year` still gets the engine's data, and its
      auto-save is attempted with the title `undefined ...` but never stored,
      because `year` is required. */
  lemma MissingYearIsNeverSaved(q: Fields, data: Json, env: StoreEnv, s: Store)
    requires "year" !in q
    ensures TelemetryRoute(q, Ok(data), env, s) == Handled(Response(200, JsonBody(data)), s)
    ensures Title(q)[..10] == "undefined "
  {
  }

  /** An engine that itself answers 503 with the unreachable message cannot be
      told apart, by the client, from an engine that never answered. */
  lemma RejectionCanMimicUnreachable(q: Fields, env: StoreEnv, s: Store)
    ensures TelemetryRoute(q, Rejected(503, MsgBody(UnreachableMsg)), env, s)
         == TelemetryRoute(q, NoResponse, env, s)
  {
  }

  /** A document saved through `POST /api/comparisons` is in the list a later
      `GET /api/comparisons` returns. */
  lemma SavedRunIsListed(body: Fields, env: StoreEnv, later: StoreEnv, s: Store)
    requires later.reachable
    ensures var h := PostComparison(body, env, s);
      h.response.status == 200 ==>
        h.response.body.record in ListComparisons(later, h.store).body.records
  {
    var h := PostComparison(body, env, s);
    if h.response.status == 200 {
      var saved := h.response.body.record;
      var listed := ListComparisons(later, h.store).body.records;
      assert h.store.records[|s.records|] == saved;
      assert saved in multiset(h.store.records);
      assert saved in multiset(listed);
    }
  }

  /** Nothing is unique: posting the same body twice stores two documents that
      differ only in identifier (and time, when the clock moved). */
  lemma RepeatedRunsAreStored(body: Fields, env1: StoreEnv, env2: StoreEnv, s: Store)
    requires env2.reachable && env2.castNumber == env1.castNumber
    ensures var first := PostComparison(body, env1, s);
      first.response.status == 200 ==>
        var second := PostComparison(body, env2, first.store);
        && second.response.status == 200
        && |second.store.records| == |s.records| + 2
        && second.response.body.record.id != first.response.body.record.id
        && second.response.body.record.(id := 0, createdAt := 0)
           == first.response.body.record.(id := 0, createdAt := 0)
  {
  }

  /** Keys other than the six the handler destructures are ignored. */
  lemma PostIgnoresOtherKeys(b1: Fields, b2: Fields, env: StoreEnv, s: Store)
    requires forall k :: k in {"title", "year", "race", "session", "driver1", "driver2"} ==>
      Lookup(b1, k) == Lookup(b2, k)
    ensures PostComparison(b1, env, s) == PostComparison(b2, env, s)
  {
  }

  const SilverstoneQuery: Fields :=
    map["year" := "2024", "race" := "Silverstone", "session" := "Q", "driver1" := "VER", "driver2" := "NOR"]

  /** The engine answers the Silverstone query: the client gets the data and
      exactly one run titled `2024 Silverstone - VER vs NOR` is stored. */
  lemma SilverstoneRunIsAutoSaved(data: Json, env: StoreEnv, s: Store)
    requires env.reachable && env.castNumber("2024") == Some(2024.0)
    ensures var h := TelemetryRoute(SilverstoneQuery, Ok(data), env, s);
      && h.response == Response(200, JsonBody(data))
      && h.store.records == s.records + [Comparison(s.nextId, "2024 Silverstone - VER vs NOR", 2024.0,
                                                    "Silverstone", "Q", "VER", "NOR", env.now)]
  {
    var h := TelemetryRoute(SilverstoneQuery, Ok(data), env, s);
    assert Title(SilverstoneQuery) == "2024 Silverstone - VER vs NOR";
    assert Acceptable(AutoSaveDraft(SilverstoneQuery), env.castNumber);
    assert h.store.records == s.records + [h.store.records[|s.records|]];
  }

  /** The engine cannot be reached: 503 with the fixed message, nothing stored. */
  lemma SilverstoneUnreachable(env: StoreEnv, s: Store)
    ensures TelemetryRoute(SilverstoneQuery, NoResponse, env, s)
         == Handled(Response(503, JsonBody(JObj([("msg", JStr("Python Data Engine not reachable"))]))), s)
  {
  }

  /** The engine rejects the race: its status and body are passed through, nothing stored. */
  lemma SilverstoneRejected(env: StoreEnv, s: Store)
    ensures var body := JObj([("msg", JStr("unknown race"))]);
      TelemetryRoute(SilverstoneQuery, Rejected(404, body), env, s) == Handled(Response(404, JsonBody(body)), s)
  {
  }
}
