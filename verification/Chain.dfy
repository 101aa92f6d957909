/**
The objects that serve one request: the filters with their `blocked` flags, the GatewayHandler at the end of
the chain, and the upstream client it starts.
*/
module Chain {
  import opened Prelude
  import opened Config
  import opened Http
  import opened Printing
  import opened Layers
  import opened Upstream

  /** What Proxygen delivers for one request. */
  datatype ClientEvent = Request(msg: HttpMessage) | Chunk(bytes: Bytes) | End | Upgrading

  // ---------------------------------------------------------------- the upstream request

  function HostHeader(rewrite: Option<RewriteConfig>, protocol: string, target: Target): string {
    if rewrite.Some? && rewrite.value.host != "" then rewrite.value.host
    else HostFor(protocol, target.host, target.port)
  }

  /** The request GatewayHandler::onEOM builds. */
  function BuildUpstream(dest: RouterDestination, protocol: string, target: Target, msg: HttpMessage): UpstreamRequest {
    UpstreamRequest(
      msg.verb,
      UpstreamUrl(dest.rewrite, msg.url, msg.query),
      Set(msg.headers, HOST, HostHeader(dest.rewrite, protocol, target)))
  }

  /** For every client request that gets through, the upstream server sees the client's headers in order and
      with duplicates on all names but Host, the two ids and those the JWT layer edits; Host and the ids
      have one value each, the ids are not empty, and the identity headers are exactly the accepted token's or the
      client's. */
  lemma UpstreamHeaders(env: Surroundings, caches: seq<JwksCache>, dest: RouterDestination, protocol: string,
                        target: Target, msg: HttpMessage, out: Headers)
    requires Through(env, ChainOf(caches), msg.headers) == Reached(out)
    ensures var sent := BuildUpstream(dest, protocol, target, msg.(headers := out)).headers;
            var edited := EditedNames(TokenVerdict(env, caches, msg.headers)) + {Lower(HOST)};
            && Without(sent, edited) == Without(msg.headers, edited)
            && Values(sent, HOST) == [HostHeader(dest.rewrite, protocol, target)]
            && |Values(sent, REQUEST_ID)| == 1 && Values(sent, REQUEST_ID)[0] != ""
            && |Values(sent, TRACE_ID)| == 1 && Values(sent, TRACE_ID)[0] != ""
            && Identified(TokenVerdict(env, caches, msg.headers), msg.headers, sent)
  {
    var names := EditedNames(TokenVerdict(env, caches, msg.headers));
    var host := HostHeader(dest.rewrite, protocol, target);
    TerminalHeaders(env, caches, msg.headers, out);
    SetOutside(out, HOST, host, names + {Lower(HOST)});
    WithoutTwice(out, names, {Lower(HOST)});
    WithoutTwice(msg.headers, names, {Lower(HOST)});
    NamesDistinct();
    SetValues(out, HOST, host, HOST);
    SetValues(out, HOST, host, REQUEST_ID);
    SetValues(out, HOST, host, TRACE_ID);
    HostKeepsIdentity(out, host);
  }

  /** `req` is the client's request `msg` for this destination: its own method; its own URL or the rewritten one; the
      configured Host if there is one; and its other headers in order, but for the ids and the identity. */
  ghost predicate Forwards(env: Surroundings, caches: seq<JwksCache>, dest: RouterDestination, msg: HttpMessage,
                           req: UpstreamRequest)
  {
    var rewrite, verdict := dest.rewrite, TokenVerdict(env, caches, msg.headers);
    var edited := EditedNames(verdict) + {Lower(HOST)};
    && req.verb == msg.verb
    && req.url == (if rewrite.None? || rewrite.value.path == "" then msg.url
                   else if msg.query == "" then rewrite.value.path
                   else rewrite.value.path + "?" + msg.query)
    && (rewrite.Some? && rewrite.value.host != "" ==> Values(req.headers, "Host") == [rewrite.value.host])
    && Without(req.headers, edited) == Without(msg.headers, edited)
    && Identified(verdict, msg.headers, req.headers)
  }

  lemma BuiltForwards(env: Surroundings, caches: seq<JwksCache>, dest: RouterDestination, protocol: string,
                      target: Target, msg: HttpMessage, out: Headers)
    requires Through(env, ChainOf(caches), msg.headers) == Reached(out)
    ensures Forwards(env, caches, dest, msg, BuildUpstream(dest, protocol, target, msg.(headers := out)))
  {
    UpstreamHeaders(env, caches, dest, protocol, target, msg, out);
  }

  /** The issuer a policy configures is the one the upstream server reads. */
  lemma BuiltNamesIssuer(env: Surroundings, caches: seq<JwksCache>, dest: RouterDestination, protocol: string,
                         target: Target, msg: HttpMessage, out: Headers, meantFor: (Token, string) -> bool)
    requires Through(env, ChainOf(caches), msg.headers) == Reached(out) && Demanding(env.lib, meantFor)
    ensures forall cache | cache in caches && cache.cfg.issuer != "" ::
              Values(BuildUpstream(dest, protocol, target, msg.(headers := out)).headers, "x-jwt-issuer")
              == [cache.cfg.issuer]
  {
    if caches != [] {
      var first := caches[0];
      assert caches == [first] by { ReachesTerminalIff(env, caches, msg.headers); }
      assert first.cfg.issuer != "" ==> Values(out, "x-jwt-issuer") == [first.cfg.issuer] by {
        DemandsEnforced(env, caches, msg.headers, out, meantFor);
      }
      HostKeepsIdentity(out, HostHeader(dest.rewrite, protocol, target));
    }
  }

  lemma HostKeepsIdentity(hs: Headers, host: string)
    ensures SameIdentity(hs, Set(hs, HOST, host))
  {
    NamesDistinct();
    SetValues(hs, HOST, host, JWT_SUBJECT);
    SetValues(hs, HOST, host, JWT_ISSUER);
    SetValues(hs, HOST, host, AUTH_METHOD);
    SetValues(hs, HOST, host, AUTHORIZATION);
  }

  // ---------------------------------------------------------------- GatewayHandler

  datatype Dial = Dial(client: UpstreamClient, addr: Address)

  /** Where connection attempts are started. */
  class EventBase {
    var dials: seq<Dial>

    constructor ()
      ensures dials == []
    {
      dials := [];
    }

    method Connect(client: UpstreamClient, addr: Address)
      modifies this
      ensures dials == old(dials) + [Dial(client, addr)]
    {
      dials := dials + [Dial(client, addr)];
    }
  }

  const BAD_REQUEST := [SendHeaders(ResponseHead(400, [])), SendEOM]

  /** The state of a GatewayHandler: the stored request and body, the events it has seen, and all that has
      been sent to its client. */
  datatype Front = Front(headers: Option<HttpMessage>, body: Option<Bytes>, seen: seq<ClientEvent>, sent: seq<Send>)

  /** One more chunk of body. */
  function Append(body: Option<Bytes>, bytes: Bytes): Option<Bytes> {
    if body.Some? then Some(body.value + bytes) else Some(bytes)
  }

  /** What one event does to it. */
  function Absorb(t: Front, e: ClientEvent): Front {
    var t' := t.(seen := t.seen + [e]);
    match e
    case Request(msg) => t'.(headers := Some(msg))
    case Chunk(bytes) => t'.(body := Append(t.body, bytes))
    case End => t'.(body := None)
    case Upgrading => t'.(sent := t.sent + BAD_REQUEST)
  }

  class GatewayHandler {
    const router: RouterConfig
    const service: ServiceConfig
    const upstreamAddr: Address
    const downstream: ResponseHandler
    const evb: EventBase
    var requestHeaders: Option<HttpMessage>
    var requestBody: Option<Bytes>
    ghost var seen: seq<ClientEvent>

    /** onEOM indexes the first destination and the first target without a check. */
    predicate Dispatchable() {
      router.destinations != [] && service.targets != []
    }

    function Upstream(msg: HttpMessage): UpstreamRequest
      requires Dispatchable()
    {
      BuildUpstream(router.destinations[0], service.protocol, service.targets[0], msg)
    }

    /** One attempt has been added to `before`: to this handler's address, by a client that has sent nothing
        yet and holds the request built from `msg` with the whole body. */
    ghost predicate Dialled(before: seq<Dial>, msg: HttpMessage, body: Option<Bytes>)
      requires Dispatchable()
      reads evb, set d | d in evb.dials :: d.client
    {
      && |evb.dials| == |before| + 1 && evb.dials[..|before|] == before
      && var dial := evb.dials[|before|];
         && dial.addr == upstreamAddr
         && dial.client.downstream == downstream && dial.client.upstreamReq == Upstream(msg)
         && dial.client.requestBody == body && !dial.client.headersSent
         && dial.client.txn == null && dial.client.deletions == 0
    }

    constructor (router: RouterConfig, service: ServiceConfig, addr: Address, downstream: ResponseHandler,
                 evb: EventBase)
      ensures this.router == router && this.service == service && upstreamAddr == addr
      ensures this.downstream == downstream && this.evb == evb
      ensures requestHeaders == None && requestBody == None && seen == []
    {
      this.router, this.service, upstreamAddr := router, service, addr;
      this.downstream, this.evb := downstream, evb;
      requestHeaders, requestBody, seen := None, None, [];
    }

    ghost function View(): Front
      reads this, downstream
    {
      Front(requestHeaders, requestBody, seen, downstream.sent)
    }

    method OnRequest(msg: HttpMessage)
      modifies this
      ensures View() == Absorb(old(View()), Request(msg))
    {
      requestHeaders := Some(msg);
      seen := seen + [Request(msg)];
    }

    method OnBody(bytes: Bytes)
      modifies this
      ensures View() == Absorb(old(View()), Chunk(bytes))
    {
      if requestBody.None? {
        requestBody := Some(bytes);
      } else {
        requestBody := Some(requestBody.value + bytes);
      }
      seen := seen + [Chunk(bytes)];
    }

    method OnEOM()
      requires requestHeaders.Some? && Dispatchable()
      modifies this, evb
      ensures View() == Absorb(old(View()), End)
      ensures Dialled(old(evb.dials), requestHeaders.value, old(requestBody))
      ensures fresh(evb.dials[|old(evb.dials)|].client)
    {
      var msg, dest, target := requestHeaders.value, router.destinations[0], service.targets[0];
      var url: string;
      if dest.rewrite.Some? && dest.rewrite.value.path != "" {
        url := dest.rewrite.value.path;
        if msg.query != "" {
          url := url + "?" + msg.query;
        }
      } else {
        url := msg.url;
      }
      var headers: Headers := [];
      for i := 0 to |msg.headers|
        invariant headers == msg.headers[..i]
      {
        headers := Add(headers, msg.headers[i].name, msg.headers[i].value);
      }
      assert headers == msg.headers;
      headers := Set(headers, HOST, HostHeader(dest.rewrite, service.protocol, target));
      var client := new UpstreamClient(downstream, UpstreamRequest(msg.verb, url, headers), requestBody);
      requestBody := None;
      seen := seen + [End];
      evb.Connect(client, upstreamAddr);
    }

    method OnUpgrade()
      modifies this`seen, downstream
      ensures View() == Absorb(old(View()), Upgrading)
    {
      seen := seen + [Upgrading];
      downstream.Emit(BAD_REQUEST);
    }
  }

  // ---------------------------------------------------------------- the filters

  /** A full answer by a filter. */
  function Refuse(t: Front, status: nat, body: Bytes): Front {
    t.(sent := t.sent + FullResponse(status, body))
  }

  /** A RequestHandler: another filter, or the end of the chain. */
  datatype Handler = FilterHandler(f: Filter) | TerminalHandler(g: GatewayHandler)

  class Filter {
    const layer: Layer
    const env: Surroundings
    const downstream: ResponseHandler
    const next: Handler
    var blocked: bool
    ghost const inner: seq<Filter>
    ghost const terminal: GatewayHandler

    /** The links are fixed at construction: `inner` are the filters behind this one, outermost first. */
    ghost predicate Valid()
      decreases |inner|
    {
      && terminal.downstream == downstream
      && this !in inner
      && match next
         case TerminalHandler(g) => inner == [] && terminal == g
         case FilterHandler(f) =>
           && inner == [f] + f.inner && f.terminal == terminal
           && f.downstream == downstream && f.env == env && f.Valid()
    }

    ghost function Layers(): (r: seq<Layer>)
      requires Valid()
      ensures |r| == |inner| + 1
      decreases |inner|
    {
      [layer] + if next.FilterHandler? then next.f.Layers() else []
    }

    /** The `blocked` flags from this filter inwards. */
    ghost function Flags(): (r: seq<bool>)
      reads this, inner
      ensures |r| == |inner| + 1
    {
      [blocked] + seq(|inner|, i requires 0 <= i < |inner| reads inner => inner[i].blocked)
    }

    ghost predicate Open()
      reads this, inner
    {
      true !in Flags()
    }

    lemma InnerFlags()
      requires Valid() && next.FilterHandler?
      ensures Flags() == [blocked] + next.f.Flags()
      ensures Open() <==> !blocked && next.f.Open()
    {
      var f := next.f;
      assert forall i | 0 <= i < |f.inner| :: inner[i + 1] == f.inner[i];
      assert Flags() == [blocked] + f.Flags();
    }

    lemma InnerFilters()
      requires Valid() && next.FilterHandler?
      ensures next.f in inner && (set f | f in next.f.inner) <= set f | f in inner
    {
      assert inner[0] == next.f;
      assert forall i | 0 <= i < |next.f.inner| :: inner[i + 1] == next.f.inner[i];
    }

    constructor (layer: Layer, env: Surroundings, next: Handler)
      requires next.FilterHandler? ==> next.f.Valid() && next.f.env == env
      ensures Valid() && !blocked
      ensures this.layer == layer && this.env == env && this.next == next
      ensures next.FilterHandler? ==>
        inner == [next.f] + next.f.inner && terminal == next.f.terminal && downstream == next.f.downstream
      ensures next.TerminalHandler? ==> inner == [] && terminal == next.g && downstream == next.g.downstream
    {
      this.layer, this.env, this.next := layer, env, next;
      downstream := if next.FilterHandler? then next.f.downstream else next.g.downstream;
      inner := if next.FilterHandler? then [next.f] + next.f.inner else [];
      terminal := if next.FilterHandler? then next.f.terminal else next.g;
      blocked := false;
    }

    /** Exactly this filter is marked, and one full answer goes out. */
    method BlockRequest(status: nat, body: Bytes)
      requires Valid()
      modifies this`blocked, downstream
      ensures Flags() == old(Flags())[0 := true]
      ensures terminal.View() == Refuse(old(terminal.View()), status, body)
    {
      blocked := true;
      downstream.Emit(FullResponse(status, body));
    }

    ghost function RestLayers(): seq<Layer>
      requires Valid()
    {
      if next.FilterHandler? then next.f.Layers() else []
    }

    /** Filter::onRequest: hand the request to the next handler. */
    method Forward(msg: HttpMessage)
      requires Valid() && Open()
      modifies (set f | f in inner), terminal, downstream
      ensures var r := Through(env, RestLayers(), msg.headers);
              if r.Reached? then
                && Flags() == old(Flags())
                && terminal.View() == Absorb(old(terminal.View()), Request(msg.(headers := r.headers)))
              else
                && Flags() == old(Flags())[r.k + 1 := true]
                && terminal.View() == Refuse(old(terminal.View()), r.status, r.body)
      decreases |inner|, 0
    {
      match next
      case TerminalHandler(g) =>
        g.OnRequest(msg);
      case FilterHandler(f) =>
        InnerFlags();
        InnerFilters();
        f.OnRequest(msg);
        InnerFlags();
    }

    /** Either the request reaches the terminal with the headers the layers leave it, or exactly the filter that
        refuses it is marked and one full answer goes out. */
    method OnRequest(msg: HttpMessage)
      requires Valid() && Open()
      modifies this, (set f | f in inner), terminal, downstream
      ensures var r := Through(env, Layers(), msg.headers);
              if r.Reached? then
                && Flags() == old(Flags())
                && terminal.View() == Absorb(old(terminal.View()), Request(msg.(headers := r.headers)))
              else
                && Flags() == old(Flags())[r.k := true]
                && terminal.View() == Refuse(old(terminal.View()), r.status, r.body)
      decreases |inner|, 1
    {
      ThroughOne(env, layer, RestLayers(), msg.headers);
      var r := RunLayer(env, layer, msg.headers);
      if r.Block? {
        BlockRequest(r.status, r.body);
      } else {
        Forward(msg.(headers := r.headers));
      }
    }

    /** A filter that has answered a request drops all that follows it. */
    method OnBody(bytes: Bytes)
      requires Valid()
      modifies terminal
      ensures terminal.View() == if Open() then Absorb(old(terminal.View()), Chunk(bytes)) else old(terminal.View())
      decreases |inner|
    {
      if next.FilterHandler? { InnerFlags(); }
      if !blocked {
        match next
        case TerminalHandler(g) => g.OnBody(bytes);
        case FilterHandler(f) => f.OnBody(bytes);
      }
    }

    method OnEOM()
      requires Valid() && terminal.Dispatchable()
      requires Open() ==> terminal.requestHeaders.Some?
      modifies terminal, terminal.evb
      ensures terminal.View() == if Open() then Absorb(old(terminal.View()), End) else old(terminal.View())
      ensures Open() ==>
        && terminal.Dialled(old(terminal.evb.dials), old(terminal.requestHeaders).value, old(terminal.requestBody))
        && fresh(terminal.evb.dials[|old(terminal.evb.dials)|].client)
      ensures !Open() ==> unchanged(terminal.evb)
      decreases |inner|
    {
      if next.FilterHandler? { InnerFlags(); }
      if !blocked {
        match next
        case TerminalHandler(g) => g.OnEOM();
        case FilterHandler(f) => f.OnEOM();
      }
    }

    method OnUpgrade()
      requires Valid()
      modifies terminal`seen, downstream
      ensures terminal.View() == if Open() then Absorb(old(terminal.View()), Upgrading) else old(terminal.View())
      decreases |inner|
    {
      if next.FilterHandler? { InnerFlags(); }
      if !blocked {
        match next
        case TerminalHandler(g) => g.OnUpgrade();
        case FilterHandler(f) => f.OnUpgrade();
      }
    }
  }

  // ---------------------------------------------------------------- a whole request

  /** One request as Proxygen has delivered it so far: the message, the chunks and upgrades after it, and
      whether its end has come. */
  datatype Exchange = Exchange(msg: HttpMessage, middle: seq<ClientEvent>, ended: bool) {
    ghost predicate Valid() {
      forall e | e in middle :: e.Chunk? || e.Upgrading?
    }

    /** The request body: the chunks in order, or none at all. */
    function Body(): Option<Bytes> {
      Joined(FilterMap(ChunkIn(), middle))
    }

    /** All its events, with `hs` for the headers of the message. */
    function Events(hs: Headers): seq<ClientEvent> {
      [Request(msg.(headers := hs))] + middle + if ended then [End] else []
    }
  }

  function ChunkIn(): ClientEvent -> Option<Bytes> {
    (e: ClientEvent) => if e.Chunk? then Some(e.bytes) else None
  }

  function Joined(chunks: seq<Bytes>): Option<Bytes> {
    if chunks == [] then None else Some(Flatten(chunks))
  }

  function AnswerTo(): ClientEvent -> Option<seq<Send>> {
    (e: ClientEvent) => if e.Upgrading? then Some(BAD_REQUEST) else None
  }

  function AbsorbAll(t: Front, events: seq<ClientEvent>): Front {
    if events == [] then t else Absorb(AbsorbAll(t, events[..|events| - 1]), events[|events| - 1])
  }

  lemma {:induction false} AbsorbedSeen(t: Front, events: seq<ClientEvent>)
    requires forall e | e in events :: !e.Request?
    ensures AbsorbAll(t, events).headers == t.headers
    ensures AbsorbAll(t, events).seen == t.seen + events
  {
    if events == [] {
    } else {
      assert events == events[..|events| - 1] + [events[|events| - 1]];
      AbsorbedSeen(t, events[..|events| - 1]);
    }
  }

  lemma {:induction false} AbsorbedChunks(t: Front, events: seq<ClientEvent>)
    requires t.body == None && End !in events
    ensures AbsorbAll(t, events).body == Joined(FilterMap(ChunkIn(), events))
  {
    if events == [] {
    } else {
      var init, e := events[..|events| - 1], events[|events| - 1];
      var chunks := FilterMap(ChunkIn(), init);
      assert e in events;
      AbsorbedChunks(t, init);
      if e.Chunk? {
        assert FilterMap(ChunkIn(), events) == chunks + [e.bytes];
        FlattenSnoc(chunks, e.bytes);
        assert chunks == [] ==> Flatten(chunks) + e.bytes == e.bytes;
      } else {
        assert FilterMap(ChunkIn(), events) == chunks;
      }
    }
  }

  lemma {:induction false} AbsorbedAnswers(t: Front, events: seq<ClientEvent>)
    ensures AbsorbAll(t, events).sent == t.sent + Flatten(FilterMap(AnswerTo(), events))
  {
    if events == [] {
    } else {
      var init, e := events[..|events| - 1], events[|events| - 1];
      AbsorbedAnswers(t, init);
      if e.Upgrading? {
        var answers := FilterMap(AnswerTo(), init);
        FlattenSnoc(answers, BAD_REQUEST);
        assert FilterMap(AnswerTo(), events) == answers + [BAD_REQUEST];
        assert AbsorbAll(t, events).sent == AbsorbAll(t, init).sent + BAD_REQUEST;
      } else {
        assert FilterMap(AnswerTo(), events) == FilterMap(AnswerTo(), init);
      }
    }
  }

  /** Proxygen delivering the events between a request and its end. */
  method DeliverBody(head: Filter, events: seq<ClientEvent>)
    requires head.Valid()
    requires forall e | e in events :: e.Chunk? || e.Upgrading?
    modifies head.terminal, head.downstream
    ensures head.terminal.View() ==
            if head.Open() then AbsorbAll(old(head.terminal.View()), events) else old(head.terminal.View())
  {
    ghost var start := head.terminal.View();
    for i := 0 to |events|
      invariant head.terminal.View() == if head.Open() then AbsorbAll(start, events[..i]) else start
    {
      assert events[..i + 1][..i] == events[..i] && events[i] in events;
      if events[i].Chunk? {
        head.OnBody(events[i].bytes);
      } else {
        head.OnUpgrade();
      }
    }
    assert events[..|events|] == events;
  }

  function AbsorbRest(t: Front, x: Exchange): Front {
    var before := AbsorbAll(t, x.middle);
    if x.ended then Absorb(before, End) else before
  }

  /** The terminal after a whole exchange that reached it. */
  function Absorbed(t: Front, x: Exchange, hs: Headers): Front {
    AbsorbRest(Absorb(t, Request(x.msg.(headers := hs))), x)
  }

  /** It has seen the events of the exchange, and answered each upgrade among them. */
  lemma AbsorbedIs(t: Front, x: Exchange, hs: Headers)
    requires x.Valid()
    ensures Absorbed(t, x, hs).seen == t.seen + x.Events(hs)
    ensures Absorbed(t, x, hs).sent == t.sent + Flatten(FilterMap(AnswerTo(), x.middle))
  {
    AbsorbedSeen(Absorb(t, Request(x.msg.(headers := hs))), x.middle);
    AbsorbedAnswers(Absorb(t, Request(x.msg.(headers := hs))), x.middle);
  }

  /** The upstream server is sent the bytes of the client's chunks in order, however they were cut. */
  lemma RequestBytesConserved(req: UpstreamRequest, x: Exchange)
    ensures Flatten(FilterMap(BytesIn(), RequestParts(req, x.Body()))) == Flatten(FilterMap(ChunkIn(), x.middle))
  {
    RequestIsWhole(req, x.Body());
  }

  /** Proxygen delivering all that follows a request. */
  method DeliverRest(head: Filter, x: Exchange)
    requires head.Valid() && head.terminal.Dispatchable() && x.Valid()
    requires head.Open() ==> head.terminal.requestHeaders.Some? && head.terminal.requestBody == None
    modifies head.terminal, head.downstream, head.terminal.evb
    ensures head.terminal.View() ==
            if head.Open() then AbsorbRest(old(head.terminal.View()), x) else old(head.terminal.View())
    ensures head.Open() && x.ended ==>
      && head.terminal.Dialled(old(head.terminal.evb.dials), old(head.terminal.requestHeaders).value, x.Body())
      && fresh(head.terminal.evb.dials[|old(head.terminal.evb.dials)|].client)
    ensures !head.Open() || !x.ended ==> unchanged(head.terminal.evb)
  {
    ghost var begun := head.terminal.View();
    DeliverBody(head, x.middle);
    if x.ended {
      AbsorbedSeen(begun, x.middle);
      if head.Open() { AbsorbedChunks(begun, x.middle); }
      head.OnEOM();
    }
  }

  /** Proxygen delivering one request to the head of a chain. Either some filter refuses the request: exactly
      its flag is set, one full answer goes out and the terminal sees nothing. Or no flag is set and the
      terminal sees the same events, the message with the headers the layers leave it; when the request
      ends, one client is started with the joined chunks as its body. */
  method RunClient(head: Filter, x: Exchange)
    requires head.Valid() && head.Open() && head.terminal.Dispatchable() && x.Valid()
    requires head.terminal.requestBody == None
    modifies head, (set f | f in head.inner), head.terminal, head.downstream, head.terminal.evb
    ensures var r := Through(head.env, head.Layers(), x.msg.headers);
            if r.Reached? then
              && head.Open()
              && head.terminal.View() == Absorbed(old(head.terminal.View()), x, r.headers)
            else
              && head.Flags() == old(head.Flags())[r.k := true]
              && head.terminal.View() == Refuse(old(head.terminal.View()), r.status, r.body)
    ensures var r := Through(head.env, head.Layers(), x.msg.headers);
            if r.Reached? && x.ended then
              && head.terminal.Dialled(old(head.terminal.evb.dials), x.msg.(headers := r.headers), x.Body())
              && fresh(head.terminal.evb.dials[|old(head.terminal.evb.dials)|].client)
            else unchanged(head.terminal.evb)
  {
    ghost var r := Through(head.env, head.Layers(), x.msg.headers);
    head.OnRequest(x.msg);
    assert head.Open() == r.Reached? by { assert r.BlockedAt? ==> head.Flags()[r.k]; }
    DeliverRest(head, x);
  }

  // ---------------------------------------------------------------- upgrades

  function Upgrades(x: Exchange): nat {
    |FilterMap(AnswerTo(), x.middle)|
  }

  /** What the client is sent by the terminal itself, and what the upstream call adds. */
  function UpgradeAnswers(x: Exchange): seq<Send> {
    Flatten(FilterMap(AnswerTo(), x.middle))
  }

  function Relayed(x: Exchange, req: UpstreamRequest, es: seq<Callback>): seq<Send> {
    if x.ended then Run(Fresh(req, x.Body()), es).down else []
  }

  lemma {:induction false} NothingAfterComplete(sent: seq<Send>, more: seq<Send>)
    requires more != [] && WireAfter(sent) != Some(Idle) && WireAfter(sent) != Some(Streaming)
    ensures WireAfter(sent + more) == None
  {
    var init, s := more[..|more| - 1], more[|more| - 1];
    assert sent + more == (sent + init) + [s];
    WireAfterSnoc(sent + init, s);
    if init != [] {
      NothingAfterComplete(sent, init);
    } else {
      assert sent + init == sent;
    }
  }

  lemma WireAfterBadRequest(sent: seq<Send>)
    ensures WireAfter(sent + BAD_REQUEST) == if WireAfter(sent) == Some(Idle) then Some(Complete) else None
  {
    WireAfterSnoc(sent, BAD_REQUEST[0]);
    WireAfterSnoc(sent + [BAD_REQUEST[0]], BAD_REQUEST[1]);
    assert sent + BAD_REQUEST == sent + [BAD_REQUEST[0]] + [BAD_REQUEST[1]];
  }

  lemma {:induction false} WireAfterAnswers(middle: seq<ClientEvent>)
    ensures var answers := FilterMap(AnswerTo(), middle);
            WireAfter(Flatten(answers)) ==
            if |answers| == 0 then Some(Idle) else if |answers| == 1 then Some(Complete) else None
  {
    if middle == [] {
    } else {
      var init := middle[..|middle| - 1];
      var answers := FilterMap(AnswerTo(), init);
      WireAfterAnswers(init);
      if middle[|middle| - 1].Upgrading? {
        FlattenSnoc(answers, BAD_REQUEST);
        WireAfterBadRequest(Flatten(answers));
        assert FilterMap(AnswerTo(), middle) == answers + [BAD_REQUEST];
      }
    }
  }

  lemma BadRequestCode(sent: seq<Send>)
    ensures Codes(sent + BAD_REQUEST) == Codes(sent) + [400]
  {
    FilterMapSnoc(CodeIn(), sent, BAD_REQUEST[0]);
    FilterMapSnoc(CodeIn(), sent + [BAD_REQUEST[0]], BAD_REQUEST[1]);
    assert sent + BAD_REQUEST == sent + [BAD_REQUEST[0]] + [BAD_REQUEST[1]];
  }

  /** Each upgrade is answered 400. */
  lemma {:induction false} UpgradeCodes(middle: seq<ClientEvent>)
    ensures var answers := FilterMap(AnswerTo(), middle);
            Codes(Flatten(answers)) == seq(|answers|, i => 400)
  {
    if middle == [] {
    } else {
      var init := middle[..|middle| - 1];
      var answers := FilterMap(AnswerTo(), init);
      UpgradeCodes(init);
      if middle[|middle| - 1].Upgrading? {
        FlattenSnoc(answers, BAD_REQUEST);
        BadRequestCode(Flatten(answers));
        assert FilterMap(AnswerTo(), middle) == answers + [BAD_REQUEST];
      } else {
        assert FilterMap(AnswerTo(), middle) == answers;
      }
    }
  }

  /** The upstream call has had no occasion to send anything. */
  ghost predicate Quiet(x: Exchange, es: seq<Callback>) {
    !x.ended || Silent(es)
  }

  /** At most one response has begun. */
  ghost predicate Sound(x: Exchange, es: seq<Callback>) {
    Upgrades(x) == 0 || (Upgrades(x) == 1 && Quiet(x, es))
  }

  /** Exactly one response has been completed. */
  ghost predicate Finished(x: Exchange, es: seq<Callback>) {
    (Upgrades(x) == 0 && x.ended && (FailedEarly(es) || Eom in es)) || (Upgrades(x) == 1 && Quiet(x, es))
  }

  /** GatewayHandler::onUpgrade answers 400 without stopping the later onEOM. So for a request that reached the terminal
      the response is well formed exactly when there was no upgrade, or one and the upstream call has sent nothing, and
      complete exactly when that one answer is all, or the upstream call alone has ended. */
  lemma UpgradeSpoilsResponse(x: Exchange, req: UpstreamRequest, es: seq<Callback>)
    requires PhaseAfter(es).Some?
    ensures WellFormed(UpgradeAnswers(x) + Relayed(x, req, es)) <==> Sound(x, es)
    ensures WireAfter(UpgradeAnswers(x) + Relayed(x, req, es)) == Some(Complete) <==> Finished(x, es)
  {
    var answers, relayed := UpgradeAnswers(x), Relayed(x, req, es);
    WireAfterAnswers(x.middle);
    SilentIff(req, x.Body(), es);
    EveryRunIsOneResponse(req, x.Body(), es);
    if Upgrades(x) == 0 {
      assert answers + relayed == relayed;
    } else if relayed == [] {
      assert answers + relayed == answers;
    } else {
      NothingAfterComplete(answers, relayed);
    }
  }

  /** One upgrade and a refused connection already send the client two responses. */
  lemma UpgradeSpoilsWitness(msg: HttpMessage, req: UpstreamRequest) returns (x: Exchange, es: seq<Callback>)
    ensures x == Exchange(msg, [Upgrading], true) && es == [ConnectError]
    ensures x.Valid() && PhaseAfter(es).Some? && !WellFormed(UpgradeAnswers(x) + Relayed(x, req, es))
  {
    x, es := Exchange(msg, [Upgrading], true), [ConnectError];
    assert PhaseAfter([]) == Some(Connecting) && es[..0] == [];
    assert x.middle == [] + [Upgrading];
    FilterMapSnoc(AnswerTo(), [], Upgrading);
    UpgradeSpoilsResponse(x, req, es);
  }

  // ---------------------------------------------------------------- one request, both sides

  /** The status codes the client of an exchange reads: that of the refusal; or 400 for each upgrade, and then, once the
      request has ended, 502 for an early failure and else the upstream server's own. */
  lemma SentCodes(r: ChainResult, x: Exchange, req: UpstreamRequest, es: seq<Callback>)
    requires PhaseAfter(es).Some?
    ensures Codes(SentFor(r, x, req, es)) ==
            if r.BlockedAt? then [r.status]
            else
              seq(Upgrades(x), i => 400)
              + if !x.ended then [] else if FailedEarly(es) then [502] else FilterMap(CodeOf(), es)
  {
    if r.BlockedAt? {
      FullResponseReads(r.status, r.body);
    } else {
      UpgradeCodes(x.middle);
      RunCodes(req, x.Body(), es);
      FilterMapConcat(CodeIn(), UpgradeAnswers(x), Relayed(x, req, es));
    }
  }

  /** One more attempt has been started, to this address. */
  ghost predicate OneMoreDial(before: seq<Dial>, after: seq<Dial>, addr: Address) {
    |after| == |before| + 1 && after[..|before|] == before && after[|before|].addr == addr
  }

  /** What the client of an exchange is sent in all. */
  function SentFor(r: ChainResult, x: Exchange, req: UpstreamRequest, es: seq<Callback>): seq<Send> {
    if r.BlockedAt? then FullResponse(r.status, r.body) else UpgradeAnswers(x) + Relayed(x, req, es)
  }

  lemma SentState(r: ChainResult, x: Exchange, req: UpstreamRequest, es: seq<Callback>)
    requires PhaseAfter(es).Some?
    ensures WellFormed(SentFor(r, x, req, es)) <==> r.BlockedAt? || Sound(x, es)
    ensures WireAfter(SentFor(r, x, req, es)) == Some(Complete) <==> r.BlockedAt? || Finished(x, es)
  {
    if r.BlockedAt? {
      OneFullResponse(r.status, r.body);
    } else {
      UpgradeSpoilsResponse(x, req, es);
    }
  }

  /** A request from its first event to the last callback of its upstream call, whatever the chain, the request, its
      chunking and the upstream run. The client is sent the answer of the filter that refuses the request, or the
      answers to its upgrades and what the upstream run relays. The upstream server is sent the edited request with
      all the bytes of the body. The terminal's address is dialled once, for a request that reached it and ended, and
      no other. */
  method ServeTraffic(head: Filter, evb: EventBase, session: Transaction, x: Exchange, es: seq<Callback>)
    requires evb == head.terminal.evb
    requires head.Valid() && head.Open() && head.terminal.Dispatchable() && x.Valid()
    requires head.terminal.requestBody == None && head.downstream.sent == [] && session.egress == []
    requires PhaseAfter(es).Some?
    modifies head, (set f | f in head.inner), head.terminal, head.downstream, evb, session
    ensures var r := Through(head.env, head.Layers(), x.msg.headers);
            if r.BlockedAt? then head.downstream.sent == FullResponse(r.status, r.body) && session.egress == []
            else
              var req := head.terminal.Upstream(x.msg.(headers := r.headers));
              && head.downstream.sent == UpgradeAnswers(x) + Relayed(x, req, es)
              && session.egress == if x.ended && ConnectSuccess in es then RequestParts(req, x.Body()) else []
    ensures if Through(head.env, head.Layers(), x.msg.headers).Reached? && x.ended
            then OneMoreDial(old(evb.dials), evb.dials, head.terminal.upstreamAddr)
            else evb.dials == old(evb.dials)
  {
    ghost var r := Through(head.env, head.Layers(), x.msg.headers);
    var n := |evb.dials|;
    ghost var start := head.terminal.View();
    RunClient(head, x);
    if r.Reached? {
      AbsorbedIs(start, x, r.headers);
      assert head.downstream.sent == UpgradeAnswers(x);
    }
    if n < |evb.dials| {
      var client := evb.dials[n].client;
      EveryRunIsOneResponse(client.upstreamReq, client.requestBody, es);
      DeliverAll(client, session, es);
    }
  }

  /** The same, with what it makes of the response: well formed just when a filter refused the request or at most one
      response has begun, and complete just when exactly one has ended. */
  method Serve(head: Filter, evb: EventBase, session: Transaction, x: Exchange, es: seq<Callback>)
    requires evb == head.terminal.evb
    requires head.Valid() && head.Open() && head.terminal.Dispatchable() && x.Valid()
    requires head.terminal.requestBody == None && head.downstream.sent == [] && session.egress == []
    requires PhaseAfter(es).Some?
    modifies head, (set f | f in head.inner), head.terminal, head.downstream, evb, session
    ensures var r := Through(head.env, head.Layers(), x.msg.headers);
            && (WellFormed(head.downstream.sent) <==> r.BlockedAt? || Sound(x, es))
            && (WireAfter(head.downstream.sent) == Some(Complete) <==> r.BlockedAt? || Finished(x, es))
            && if r.BlockedAt? then head.downstream.sent == FullResponse(r.status, r.body) && session.egress == []
               else
                 var req := head.terminal.Upstream(x.msg.(headers := r.headers));
                 && head.downstream.sent == UpgradeAnswers(x) + Relayed(x, req, es)
                 && session.egress == if x.ended && ConnectSuccess in es then RequestParts(req, x.Body()) else []
    ensures if Through(head.env, head.Layers(), x.msg.headers).Reached? && x.ended
            then OneMoreDial(old(evb.dials), evb.dials, head.terminal.upstreamAddr)
            else evb.dials == old(evb.dials)
  {
    ghost var r := Through(head.env, head.Layers(), x.msg.headers);
    ghost var hs := if r.Reached? then r.headers else [];
    SentState(r, x, head.terminal.Upstream(x.msg.(headers := hs)), es);
    ServeTraffic(head, evb, session, x, es);
  }
}
