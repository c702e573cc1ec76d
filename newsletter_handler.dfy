/**
 * The `send-blog-newsletter` request handler: preflight, configuration checks, routing on
 * the path, and the `/send` and `/unsubscribe` routes. The effects the handler has are
 * collected in a `World`: the subscriber table, the send-results table, the messages
 * posted to the provider and the pauses taken.
 */
module NewsletterHandler {
  import opened Js
  import opened Edge
  import opened Batching
  import opened NewsletterMessage
  import opened NewsletterDispatch
  import opened NewsletterPersist
  import opened NewsletterUnsubscribe

  /** The fields of the JSON body the routes read. */
  datatype Payload = Payload(blogPost: Option<PostInput>, token: Option<string>)

  /** `await req.json()`: the payload, or the error that parsing threw. */
  datatype RequestBody = Parsed(payload: Payload) | Unparsable(message: string)

  datatype Request = Request(verb: string, path: string, body: RequestBody)

  datatype Body =
    | PreflightOk
    | Error(error: string)
    | NoSubscribers(message: string, sent: nat)
    | Initiated(message: string, total: nat, sent: nat, failed: nat, summarySuccess: nat, summaryFailed: nat)
    | Removed(message: string, email: string)

  datatype Response = Response(status: nat, body: Body)

  /** A response, or the `/welcome` route, whose behaviour is not part of this model. */
  datatype Reply = Responded(response: Response) | Welcome

  /** The answer to the active-subscriber query. */
  datatype QueryReply = ActiveRows(rows: seq<Subscriber>) | QueryFailed(message: string)

  /** The services the handler calls, as oracles. */
  datatype Services = Services(
    provider: Provider,
    activeQuery: Store -> QueryReply,
    insert: Inserter,
    lookupFails: bool,
    updateFails: bool)

  datatype World = World(subscribers: Store, sendResults: seq<SendResultRow>, outbox: seq<Email>, delays: nat)

  datatype Route = SendRoute | WelcomeRoute | UnsubscribeRoute | NoRoute

  /** The path with its trailing slashes removed, matched by suffix, for POST only. */
  function RouteOf(verb: string, path: string): (r: Route)
    ensures r != NoRoute ==> verb == "POST"
    ensures r == SendRoute <==> verb == "POST" && EndsWith(StripTrailingSlashes(path), "/send")
  {
    var p := StripTrailingSlashes(path);
    if verb == "POST" && EndsWith(p, "/send") then SendRoute
    else if verb == "POST" && EndsWith(p, "/welcome") then WelcomeRoute
    else if verb == "POST" && EndsWith(p, "/unsubscribe") then UnsubscribeRoute
    else NoRoute
  }

  /** The two configuration checks, in order. */
  function ConfigError(env: Env): (e: Option<string>)
    ensures e.None? <==> Truthy(EnvGet(env, "RESEND_API_KEY")) && Truthy(EnvGet(env, "SUPABASE_URL"))
                         && Truthy(EnvGet(env, "SUPABASE_SERVICE_ROLE_KEY"))
  {
    if !Truthy(EnvGet(env, "RESEND_API_KEY")) then Some("RESEND_API_KEY is not set")
    else if !Truthy(EnvGet(env, "SUPABASE_URL")) || !Truthy(EnvGet(env, "SUPABASE_SERVICE_ROLE_KEY")) then
      Some("SUPABASE_URL or SUPABASE_SERVICE_ROLE_KEY is not set")
    else None
  }

  function UnsubscribeResponse(o: UnsubscribeOutcome): Response {
    match o
    case MissingToken => Response(400, Error("Missing token"))
    case NotFound => Response(404, Error("Invalid token or subscriber not found"))
    case UpdateFailed => Response(500, Error("Failed to unsubscribe"))
    case Unsubscribed(email) => Response(200, Removed("Unsubscribed", email))
  }

  const MissingPostData := "Missing required blog post data (title, slug)"

  /** The summary the `/send` route answers with. */
  function Summary(total: nat, results: seq<SendResult>): Response {
    var sent, failed := CountSuccess(results), CountFailure(results);
    Response(200, Initiated("Newsletter send initiated", total, sent, failed, sent, failed))
  }

  /** The `/send` route once the post is valid. */
  function SendSpec(c: Campaign, settings: Settings, svc: Services, w: World): (Reply, World) {
    match svc.activeQuery(w.subscribers)
    case QueryFailed(m) => (Responded(Response(500, Error(m))), w)
    case ActiveRows(subs) =>
      if subs == [] then (Responded(Response(200, NoSubscribers("No active subscribers found", 0))), w)
      else
        var run := RunBatches(settings, c, svc.provider, Chunks(subs, BatchSize));
        var w1 := w.(outbox := w.outbox + run.outbox, delays := w.delays + run.delays);
        if run.aborted.Some? then (Responded(Response(500, Error(run.aborted.value))), w1)
        else
          var p := PersistChunks(w.sendResults, Chunks(ToPersist(c.slug, run.results), ChunkSize), svc.insert);
          (Responded(Summary(|subs|, run.results)), w1.(sendResults := p.table))
  }

  /** The handler: the specification of `Handle`. */
  function HandleSpec(req: Request, env: Env, svc: Services, w: World): (Reply, World) {
    if req.verb == "OPTIONS" then (Responded(Response(200, PreflightOk)), w)
    else if ConfigError(env).Some? then (Responded(Response(500, Error(ConfigError(env).value))), w)
    else match RouteOf(req.verb, req.path)
      case SendRoute =>
        (match req.body
         case Unparsable(m) => (Responded(Response(500, Error(m))), w)
         case Parsed(p) =>
           if !IsValidPost(p.blogPost) then (Responded(Response(400, Error(MissingPostData))), w)
           else SendSpec(CampaignOf(p.blogPost), SettingsOf(env), svc, w))
      case WelcomeRoute => (Welcome, w)
      case UnsubscribeRoute =>
        (match req.body
         case Unparsable(m) => (Responded(Response(500, Error(m))), w)
         case Parsed(p) =>
           var (o, store) := Unsubscribe(w.subscribers, p.token, svc.lookupFails, svc.updateFails);
           (Responded(UnsubscribeResponse(o)), w.(subscribers := store)))
      case NoRoute => (Responded(Response(404, Error("Not found"))), w)
  }

  /**
   * The handler, running the send loop and the insert loop; the write of the results is
   * taken to finish, and nothing in the response depends on it.
   */
  method Handle(req: Request, env: Env, svc: Services, w: World) returns (reply: Reply, w': World)
    ensures (reply, w') == HandleSpec(req, env, svc, w)
  {
    if req.verb == "OPTIONS" {
      return Responded(Response(200, PreflightOk)), w;
    }
    var config := ConfigError(env);
    if config.Some? {
      return Responded(Response(500, Error(config.value))), w;
    }
    var route := RouteOf(req.verb, req.path);
    if route == WelcomeRoute {
      return Welcome, w;
    }
    if route == NoRoute {
      return Responded(Response(404, Error("Not found"))), w;
    }
    if req.body.Unparsable? {
      return Responded(Response(500, Error(req.body.message))), w;
    }
    var payload := req.body.payload;
    if route == UnsubscribeRoute {
      var (o, store) := Unsubscribe(w.subscribers, payload.token, svc.lookupFails, svc.updateFails);
      return Responded(UnsubscribeResponse(o)), w.(subscribers := store);
    }
    if !IsValidPost(payload.blogPost) {
      return Responded(Response(400, Error(MissingPostData))), w;
    }
    var c := CampaignOf(payload.blogPost);
    var query := svc.activeQuery(w.subscribers);
    if query.QueryFailed? {
      return Responded(Response(500, Error(query.message))), w;
    }
    var subs := query.rows;
    if subs == [] {
      return Responded(Response(200, NoSubscribers("No active subscribers found", 0))), w;
    }
    var run := Dispatch(SettingsOf(env), c, svc.provider, subs);
    w' := w.(outbox := w.outbox + run.outbox, delays := w.delays + run.delays);
    if run.aborted.Some? {
      return Responded(Response(500, Error(run.aborted.value))), w';
    }
    var persisted := Persist(w.sendResults, ToPersist(c.slug, run.results), svc.insert);
    reply := Responded(Summary(|subs|, run.results));
    w' := w'.(sendResults := persisted.table);
  }

  // ---------------------------------------------------------------------------
  // Properties

  /**
   * Rejections that happen before any query or message: a preflight, a missing configuration
   * value, and a `/send` request without a post, a title or a slug.
   */
  lemma UpFrontRejection(req: Request, env: Env, svc: Services, w: World)
    ensures req.verb == "OPTIONS" ==> HandleSpec(req, env, svc, w) == (Responded(Response(200, PreflightOk)), w)
    ensures req.verb != "OPTIONS" && !Truthy(EnvGet(env, "RESEND_API_KEY")) ==>
              HandleSpec(req, env, svc, w) == (Responded(Response(500, Error("RESEND_API_KEY is not set"))), w)
    ensures req.verb != "OPTIONS" && Truthy(EnvGet(env, "RESEND_API_KEY"))
            && !(Truthy(EnvGet(env, "SUPABASE_URL")) && Truthy(EnvGet(env, "SUPABASE_SERVICE_ROLE_KEY"))) ==>
              HandleSpec(req, env, svc, w)
              == (Responded(Response(500, Error("SUPABASE_URL or SUPABASE_SERVICE_ROLE_KEY is not set"))), w)
    ensures ConfigError(env).None? && RouteOf(req.verb, req.path) == SendRoute && req.body.Parsed?
            && !IsValidPost(req.body.payload.blogPost) ==>
              HandleSpec(req, env, svc, w) == (Responded(Response(400, Error(MissingPostData))), w)
  {
  }

  /** A POST to a path that is none of the three routes is answered 404 and changes nothing. */
  lemma NotFoundRoute(req: Request, env: Env, svc: Services, w: World)
    requires req.verb != "OPTIONS" && ConfigError(env).None?
    requires !EndsWith(StripTrailingSlashes(req.path), "/send") && !EndsWith(StripTrailingSlashes(req.path), "/welcome")
    requires !EndsWith(StripTrailingSlashes(req.path), "/unsubscribe")
    ensures HandleSpec(req, env, svc, w) == (Responded(Response(404, Error("Not found"))), w)
  {
  }

  /** A valid post on the send route is handled by `SendSpec`, so the lemmas about `SendSpec` are promises of the handler. */
  lemma SendViaHandler(req: Request, env: Env, svc: Services, w: World)
    requires req.verb != "OPTIONS" && ConfigError(env).None? && RouteOf(req.verb, req.path) == SendRoute
    requires req.body.Parsed? && IsValidPost(req.body.payload.blogPost)
    ensures HandleSpec(req, env, svc, w) == SendSpec(CampaignOf(req.body.payload.blogPost), SettingsOf(env), svc, w)
  {
  }

  /** With no active subscriber the route answers `sent: 0` and posts nothing. */
  lemma ZeroSubscribers(c: Campaign, settings: Settings, svc: Services, w: World)
    requires svc.activeQuery(w.subscribers) == ActiveRows([])
    ensures SendSpec(c, settings, svc, w) == (Responded(Response(200, NoSubscribers("No active subscribers found", 0))), w)
  {
  }

  /**
   * A campaign in which no `fetch` throws: every subscriber is posted to, in order, with
   * ceil(N/50) - 1 pauses, and the summary's counts add up to the number of subscribers,
   * `sent` being the number of ok responses.
   */
  lemma {:induction false} SendSummary(c: Campaign, settings: Settings, svc: Services, w: World, subs: seq<Subscriber>)
    requires svc.activeQuery(w.subscribers) == ActiveRows(subs) && subs != []
    requires NoneThrow(settings, c, svc.provider, subs)
    ensures var (reply, w') := SendSpec(c, settings, svc, w);
      && reply.Responded? && reply.response.status == 200 && reply.response.body.Initiated?
      && reply.response.body.total == |subs|
      && reply.response.body.sent + reply.response.body.failed == |subs|
      && reply.response.body.sent == CountOk(RepliesTo(EmailsFor(settings, c, subs), svc.provider))
      && reply.response.body.summarySuccess == reply.response.body.sent
      && reply.response.body.summaryFailed == reply.response.body.failed
      && w'.outbox == w.outbox + EmailsFor(settings, c, subs)
      && w'.delays == w.delays + (|subs| + BatchSize - 1) / BatchSize - 1
      && w'.subscribers == w.subscribers
  {
    DispatchSummary(settings, c, svc.provider, subs);
  }

  /**
   * A `fetch` that throws ends the route with 500 and its message, and nothing is written: the
   * batches before the throwing one and that whole batch are posted, and no later batch.
   */
  lemma {:induction false} ThrownSendAborts(c: Campaign, settings: Settings, svc: Services, w: World, subs: seq<Subscriber>)
    requires svc.activeQuery(w.subscribers) == ActiveRows(subs)
    requires !NoneThrow(settings, c, svc.provider, subs)
    ensures var (reply, w') := SendSpec(c, settings, svc, w);
      && reply.Responded? && reply.response.status == 500 && reply.response.body.Error?
      && w'.sendResults == w.sendResults && w'.subscribers == w.subscribers
      && w.outbox <= w'.outbox
    ensures var batches := Chunks(subs, BatchSize);
      var run := RunBatches(settings, c, svc.provider, batches);
      var (reply, w') := SendSpec(c, settings, svc, w);
      && run.aborted.Some?
      && reply == Responded(Response(500, Error(run.aborted.value)))
      && w' == w.(outbox := w.outbox + run.outbox, delays := w.delays + run.delays)
      && exists b :: 0 <= b < |batches| && AbortedAt(settings, c, svc.provider, batches, b, run)
  {
    ChunksFlatten(subs, BatchSize);
    RunAbortsIff(settings, c, svc.provider, Chunks(subs, BatchSize));
    RunAbortShape(settings, c, svc.provider, Chunks(subs, BatchSize));
  }

  /** The response never depends on how the write of the results goes. */
  lemma ResponseIgnoresInsert(req: Request, env: Env, svc: Services, w: World, other: Inserter)
    ensures HandleSpec(req, env, svc, w).0 == HandleSpec(req, env, svc.(insert := other), w).0
    ensures var (_, w1) := HandleSpec(req, env, svc, w);
      var (_, w2) := HandleSpec(req, env, svc.(insert := other), w);
      w1.(sendResults := w2.sendResults) == w2
  {
    if req.verb != "OPTIONS" && ConfigError(env).None? && RouteOf(req.verb, req.path) == SendRoute
       && req.body.Parsed? && IsValidPost(req.body.payload.blogPost) {
      SendIgnoresInsert(CampaignOf(req.body.payload.blogPost), SettingsOf(env), svc, w, other);
    }
  }

  lemma SendIgnoresInsert(c: Campaign, settings: Settings, svc: Services, w: World, other: Inserter)
    ensures SendSpec(c, settings, svc, w).0 == SendSpec(c, settings, svc.(insert := other), w).0
    ensures var (_, w1) := SendSpec(c, settings, svc, w);
      var (_, w2) := SendSpec(c, settings, svc.(insert := other), w);
      w1.(sendResults := w2.sendResults) == w2
  {
  }

  /** The unsubscribe route answers with the outcome's status and changes the subscriber table only. */
  lemma UnsubscribeViaHandler(req: Request, env: Env, svc: Services, w: World)
    requires req.verb != "OPTIONS" && ConfigError(env).None? && RouteOf(req.verb, req.path) == UnsubscribeRoute
    requires req.body.Parsed?
    ensures var (o, store) := Unsubscribe(w.subscribers, req.body.payload.token, svc.lookupFails, svc.updateFails);
      var (reply, w') := HandleSpec(req, env, svc, w);
      && reply == Responded(UnsubscribeResponse(o))
      && w' == w.(subscribers := store)
      && (reply.response.status == 400 <==> !Truthy(req.body.payload.token))
      && (reply.response.status == 200 <==> o.Unsubscribed?)
  {
  }

  /**
   * Posting a subscriber's token to `/unsubscribe`: with unique tokens, it deactivates exactly
   * that subscriber, and later campaigns, whatever order the query lists the active
   * subscribers in, no longer reach them.
   */
  lemma {:induction false} TokenPostUnsubscribes(settings: Settings, env: Env, svc: Services, w: World, id: nat, path: string)
    requires ConfigError(env).None? && !svc.lookupFails && !svc.updateFails
    requires RouteOf("POST", path) == UnsubscribeRoute
    requires TokensUnique(w.subscribers) && id in w.subscribers
    requires w.subscribers[id].unsubscribeToken.Some? && w.subscribers[id].unsubscribeToken.value != ""
    ensures var row := w.subscribers[id];
      var t := row.unsubscribeToken.value;
      var (reply, w') := HandleSpec(Request("POST", path, Parsed(Payload(None, Some(t)))), env, svc, w);
      && reply == Responded(Response(200, Removed("Unsubscribed", row.email)))
      && w'.subscribers == w.subscribers[id := row.(isActive := false)]
      && (forall rows: seq<Subscriber> :: ListsActive(w'.subscribers, rows) ==> forall s :: s in rows ==> s.unsubscribeToken != Some(t))
  {
    var row := w.subscribers[id];
    var t := row.unsubscribeToken.value;
    var found := FindByToken(w.subscribers, t);
    assert found == Some(id);
    forall rows: seq<Subscriber> | ListsActive(Unsubscribe(w.subscribers, Some(t), false, false).1, rows)
      ensures forall s :: s in rows ==> s.unsubscribeToken != Some(t)
    {
      NoLongerListed(w.subscribers, t, rows);
    }
  }
}
