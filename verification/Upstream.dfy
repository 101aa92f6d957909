/**
UpstreamClient as a machine over the callbacks Proxygen makes, with everything it sends in either direction
recorded, and the class whose methods are those callbacks.
*/
module Upstream {
  import opened Prelude
  import opened Http

  /** The request built for the upstream server. */
  datatype UpstreamRequest = UpstreamRequest(verb: string, url: string, headers: Headers)

  /** What goes out on the upstream transaction. */
  datatype Egress = EgressHeaders(req: UpstreamRequest) | EgressBody(bytes: Bytes) | EgressEOM

  datatype Callback =
    | ConnectSuccess
    | ConnectError
    | HeadersComplete(head: ResponseHead)
    | Body(bytes: Bytes)
    | Trailers
    | Eom
    | Upgrade
    | EgressPaused
    | EgressResumed
    | Error
    | Detach

  /** The client object and all it has sent: `down` to the gateway's client, `up` to the upstream server. */
  datatype Client = Client(
    req: UpstreamRequest,
    body: Option<Bytes>,
    headersSent: bool,
    deletions: nat,
    down: seq<Send>,
    up: seq<Egress>)

  function Fresh(req: UpstreamRequest, body: Option<Bytes>): Client {
    Client(req, body, false, 0, [], [])
  }

  const CONNECT_FAILED := "{\"error\":\"bad_gateway\",\"message\":\"upstream connect failed\"}"
  const UPSTREAM_ERROR := "{\"error\":\"bad_gateway\",\"message\":\"upstream error\"}"

  function RequestParts(req: UpstreamRequest, body: Option<Bytes>): seq<Egress> {
    [EgressHeaders(req)] + (if body.Some? then [EgressBody(body.value)] else []) + [EgressEOM]
  }

  function Step(c: Client, e: Callback): Client {
    match e
    case ConnectSuccess => c.(up := c.up + RequestParts(c.req, c.body), body := None)
    case ConnectError => c.(down := c.down + FullResponse(502, CONNECT_FAILED), deletions := c.deletions + 1)
    case HeadersComplete(head) => c.(headersSent := true, down := c.down + [SendHeaders(head)])
    case Body(bytes) => c.(down := c.down + [SendBody(bytes)])
    case Eom => c.(down := c.down + [SendEOM])
    case Error => if c.headersSent then c else c.(down := c.down + FullResponse(502, UPSTREAM_ERROR))
    case Detach => c.(deletions := c.deletions + 1)
    case Trailers | Upgrade | EgressPaused | EgressResumed => c
  }

  function Run(c: Client, es: seq<Callback>): Client {
    if es == [] then c else Step(Run(c, es[..|es| - 1]), es[|es| - 1])
  }

  // ---------------------------------------------------------------- the environment

  /** Where the connection attempt and the transaction stand. */
  datatype Phase = Connecting | AwaitingHeaders | Responding | Responded | Failed | Gone

  /** What Proxygen may do next: one connect outcome; one final header block, then body and trailers, then
      EOM; an error ends ingress; detachTransaction comes last and once. */
  function Next(p: Phase, e: Callback): Option<Phase> {
    if e.EgressPaused? || e.EgressResumed? then (if p.Connecting? || p.Gone? then None else Some(p)) else
    match (p, e)
    case (Connecting, ConnectSuccess) => Some(AwaitingHeaders)
    case (Connecting, ConnectError) => Some(Gone)
    case (AwaitingHeaders, HeadersComplete(_)) => Some(Responding)
    case (AwaitingHeaders, Error) => Some(Failed)
    case (Responding, Body(_)) => Some(Responding)
    case (Responding, Trailers) => Some(Responding)
    case (Responding, Upgrade) => Some(Responding)
    case (Responding, Eom) => Some(Responded)
    case (Responding, Error) => Some(Failed)
    case (Responded, Error) => Some(Failed)
    case (Responded, Detach) => Some(Gone)
    case (Failed, Detach) => Some(Gone)
    case _ => None
  }

  /** The phase after a run the environment allows; None when it does not allow the run. */
  function PhaseAfter(es: seq<Callback>): Option<Phase> {
    if es == [] then Some(Connecting)
    else
      var p := PhaseAfter(es[..|es| - 1]);
      if p.None? then None else Next(p.value, es[|es| - 1])
  }

  // ---------------------------------------------------------------- what a response may look like

  /** The stages of a response on the wire. */
  datatype Wire = Idle | Streaming | Complete

  function WireNext(w: Wire, s: Send): Option<Wire> {
    match (w, s)
    case (Idle, SendHeaders(_)) => Some(Streaming)
    case (Streaming, SendBody(_)) => Some(Streaming)
    case (Streaming, SendEOM) => Some(Complete)
    case _ => None
  }

  /** How far a response has got; None when it is not a prefix of headers, body*, EOM. */
  function WireAfter(sent: seq<Send>): Option<Wire> {
    if sent == [] then Some(Idle)
    else
      var w := WireAfter(sent[..|sent| - 1]);
      if w.None? then None else WireNext(w.value, sent[|sent| - 1])
  }

  predicate WellFormed(sent: seq<Send>) {
    WireAfter(sent).Some?
  }

  lemma WireAfterSnoc(sent: seq<Send>, s: Send)
    ensures WireAfter(sent + [s]) == if WireAfter(sent).None? then None else WireNext(WireAfter(sent).value, s)
  {
    assert (sent + [s])[..|sent|] == sent;
  }

  /** A full response is accepted only on an idle wire, and completes it. */
  lemma WireAfterFull(sent: seq<Send>, status: nat, body: Bytes)
    ensures WireAfter(sent + FullResponse(status, body)) ==
            if WireAfter(sent) == Some(Idle) then Some(Complete) else None
  {
    var parts := FullResponse(status, body);
    WireAfterSnoc(sent, parts[0]);
    WireAfterSnoc(sent + [parts[0]], parts[1]);
    WireAfterSnoc(sent + [parts[0]] + [parts[1]], parts[2]);
    assert sent + parts == sent + [parts[0]] + [parts[1]] + [parts[2]];
  }

  lemma OneFullResponse(status: nat, body: Bytes)
    ensures WireAfter(FullResponse(status, body)) == Some(Complete)
  {
    WireAfterFull([], status, body);
    assert [] + FullResponse(status, body) == FullResponse(status, body);
  }

  /** How far a request has got on the upstream transaction; None when it is not a prefix of headers, body*, EOM. */
  function RequestAfter(up: seq<Egress>): Option<Wire> {
    if up == [] then Some(Idle)
    else
      match (RequestAfter(up[..|up| - 1]), up[|up| - 1])
      case (Some(Idle), EgressHeaders(_)) => Some(Streaming)
      case (Some(Streaming), EgressBody(_)) => Some(Streaming)
      case (Some(Streaming), EgressEOM) => Some(Complete)
      case _ => None
  }

  function BytesIn(): Egress -> Option<Bytes> {
    (e: Egress) => if e.EgressBody? then Some(e.bytes) else None
  }

  /** What is sent for a request is one complete request: its headers, then exactly the bytes of the body, then EOM. */
  lemma RequestIsWhole(req: UpstreamRequest, body: Option<Bytes>)
    ensures var up := RequestParts(req, body);
            && RequestAfter(up) == Some(Complete) && up[0] == EgressHeaders(req)
            && Flatten(FilterMap(BytesIn(), up)) == if body.Some? then body.value else []
  {
    var up := RequestParts(req, body);
    var begun := [EgressHeaders(req)];
    assert begun[..0] == [];
    assert RequestAfter(begun) == Some(Streaming) && FilterMap(BytesIn(), begun) == [];
    var sent := up[..|up| - 1];
    if body.Some? {
      assert sent[..1] == begun;
      assert FilterMap(BytesIn(), sent) == [] + [body.value];
      FlattenSnoc([], body.value);
      assert [] + body.value == body.value;
    } else {
      assert sent == begun;
    }
  }

  /** The status codes a client reads, in order. */
  function Codes(sent: seq<Send>): seq<nat> {
    FilterMap(CodeIn(), sent)
  }

  function CodeIn(): Send -> Option<nat> {
    (s: Send) => if s.SendHeaders? then Some(s.head.status) else None
  }

  /** A full response has its status, its body and one content type. */
  lemma FullResponseReads(status: nat, body: Bytes)
    ensures var sent := FullResponse(status, body);
            && Codes(sent) == [status] && Flatten(FilterMap(BytesOf(), sent)) == body
            && sent[0].SendHeaders? && Values(sent[0].head.headers, "content-type") == ["application/json"]
  {
    var sent := FullResponse(status, body);
    var headers := sent[0].head.headers;
    assert sent[..2][..1][..0] == [] && sent[..2][..1] == [sent[0]] && sent[..2] == [sent[0], sent[1]];
    assert FilterMap(CodeIn(), [sent[0]]) == [] + [status];
    assert FilterMap(BytesOf(), [sent[0]]) == [];
    assert FilterMap(CodeIn(), sent[..2]) == [status];
    assert FilterMap(BytesOf(), sent[..2]) == [] + [body];
    FlattenSnoc([], body);
    assert [] + body == body;
    assert headers[..0] == [];
    assert Lower("Content-Type") == Lower("content-type");
    assert Values(headers, "content-type") == [] + ["application/json"];
  }

  function BytesOf(): Send -> Option<Bytes> {
    (s: Send) => if s.SendBody? then Some(s.bytes) else None
  }

  function ChunkOf(): Callback -> Option<Bytes> {
    (e: Callback) => if e.Body? then Some(e.bytes) else None
  }

  // ---------------------------------------------------------------- every run

  /** The response a run relays: the upstream server's parts as they arrive. */
  function Relay(): Callback -> Option<Send> {
    (e: Callback) =>
      match e
      case HeadersComplete(head) => Some(SendHeaders(head))
      case Body(bytes) => Some(SendBody(bytes))
      case Eom => Some(SendEOM)
      case _ => None
  }

  /** What has happened so far. */
  datatype History = History(connected: bool, headers: bool, eom: bool, refused: bool, broken: bool, relayed: seq<Send>)

  function Observe(h: History, e: Callback): History {
    History(h.connected || e.ConnectSuccess?, h.headers || e.HeadersComplete?, h.eom || e.Eom?,
            h.refused || e.ConnectError?, h.broken || e.Error?,
            h.relayed + (if Relay()(e).Some? then [Relay()(e).value] else []))
  }

  function HistoryOf(es: seq<Callback>): (h: History)
    ensures h.relayed == FilterMap(Relay(), es)
    ensures h.connected <==> ConnectSuccess in es
    ensures h.headers <==> exists i :: 0 <= i < |es| && es[i].HeadersComplete?
    ensures h.eom <==> Eom in es
    ensures h.refused <==> ConnectError in es
    ensures h.broken <==> Error in es
  {
    if es == [] then History(false, false, false, false, false, [])
    else
      var init, e := es[..|es| - 1], es[|es| - 1];
      assert es == init + [e];
      Observe(HistoryOf(init), e)
  }

  /** What the client and its traffic look like in each phase. */
  ghost predicate Inv(req: UpstreamRequest, body: Option<Bytes>, p: Phase, c: Client, h: History) {
    && c.req == req
    && c.headersSent == h.headers
    && c.deletions == (if p.Gone? then 1 else 0)
    && c.up == (if h.connected then RequestParts(req, body) else [])
    && (WireAfter(h.relayed) == Some(Complete) <==> h.eom)
    && (h.refused ==> p.Gone? && !h.broken) && (h.broken ==> p.Failed? || p.Gone?)
    && (p.Failed? ==> h.broken) && (p.Gone? ==> h.refused || h.broken || h.eom)
    && match p
       case Connecting => !h.connected && c.body == body && !h.headers && h.relayed == c.down == []
       case AwaitingHeaders => h.connected && !h.headers && h.relayed == c.down == []
       case Responding => h.headers && c.down == h.relayed && WireAfter(h.relayed) == Some(Streaming)
       case Responded => h.headers && c.down == h.relayed && WireAfter(h.relayed) == Some(Complete)
       case Failed => AfterFailure(c, h)
       case Gone => AfterFailure(c, h)
  }

  /** The one answer to a failure before headers. */
  function BadGateway(refused: bool): seq<Send> {
    FullResponse(502, if refused then CONNECT_FAILED else UPSTREAM_ERROR)
  }

  predicate AfterFailure(c: Client, h: History) {
    if h.headers then c.down == h.relayed && WireAfter(h.relayed).Some?
    else h.relayed == [] && c.down == BadGateway(h.refused)
  }

  /** Every callback the environment allows keeps the invariant. */
  lemma StepKeepsInv(req: UpstreamRequest, body: Option<Bytes>, p: Phase, c: Client, h: History, e: Callback)
    requires Inv(req, body, p, c, h) && Next(p, e).Some?
    ensures Inv(req, body, Next(p, e).value, Step(c, e), Observe(h, e))
  {
    if Relay()(e).Some? {
      WireAfterSnoc(h.relayed, Relay()(e).value);
    } else {
      assert h.relayed + [] == h.relayed;
    }
  }

  lemma {:induction false} EveryRunKeepsInv(req: UpstreamRequest, body: Option<Bytes>, es: seq<Callback>)
    requires PhaseAfter(es).Some?
    ensures Inv(req, body, PhaseAfter(es).value, Run(Fresh(req, body), es), HistoryOf(es))
  {
    if es == [] {
    } else {
      var init := es[..|es| - 1];
      EveryRunKeepsInv(req, body, init);
      StepKeepsInv(req, body, PhaseAfter(init).value, Run(Fresh(req, body), init), HistoryOf(init), es[|es| - 1]);
    }
  }

  ghost predicate GotHeaders(es: seq<Callback>) {
    exists i :: 0 <= i < |es| && es[i].HeadersComplete?
  }

  /** The attempt has failed before any upstream headers. */
  ghost predicate FailedEarly(es: seq<Callback>) {
    !GotHeaders(es) && (ConnectError in es || Error in es)
  }

  /** Over every run the environment allows, what the client has been sent is a prefix of headers, body*, EOM
      with nothing after EOM. A failure before upstream headers gives exactly one 502, and every other run
      relays exactly what arrived; the response is complete just when one of the two ended it. The upstream
      server gets one complete request, when connected, and the object is deleted once, at the end. */
  lemma EveryRunIsOneResponse(req: UpstreamRequest, body: Option<Bytes>, es: seq<Callback>)
    requires PhaseAfter(es).Some?
    ensures var c := Run(Fresh(req, body), es);
            && WellFormed(c.down)
            && c.down == (if FailedEarly(es) then BadGateway(ConnectError in es) else FilterMap(Relay(), es))
            && (WireAfter(c.down) == Some(Complete) <==> FailedEarly(es) || Eom in es)
            && c.up == (if ConnectSuccess in es then RequestParts(req, body) else [])
            && RequestAfter(c.up) == Some(if ConnectSuccess in es then Complete else Idle)
            && (ConnectSuccess in es ==> c.up[0] == EgressHeaders(req))
            && c.deletions == (if PhaseAfter(es).value.Gone? then 1 else 0)
  {
    var c := Run(Fresh(req, body), es);
    assert c.up == (if ConnectSuccess in es then RequestParts(req, body) else [])
           && c.deletions == (if PhaseAfter(es).value.Gone? then 1 else 0) by { EveryRunKeepsInv(req, body, es); }
    RequestIsWhole(req, body);
    DownIsOneResponse(req, body, es);
  }

  lemma DownIsOneResponse(req: UpstreamRequest, body: Option<Bytes>, es: seq<Callback>)
    requires PhaseAfter(es).Some?
    ensures var c := Run(Fresh(req, body), es);
            && WellFormed(c.down)
            && c.down == (if FailedEarly(es) then BadGateway(ConnectError in es) else FilterMap(Relay(), es))
            && (WireAfter(c.down) == Some(Complete) <==> FailedEarly(es) || Eom in es)
  {
    EveryRunKeepsInv(req, body, es);
    OneFullResponse(502, CONNECT_FAILED);
    OneFullResponse(502, UPSTREAM_ERROR);
  }

  /** Nothing has come back yet: no headers and no failure. */
  ghost predicate Silent(es: seq<Callback>) {
    !GotHeaders(es) && ConnectError !in es && Error !in es
  }

  lemma SilentIff(req: UpstreamRequest, body: Option<Bytes>, es: seq<Callback>)
    requires PhaseAfter(es).Some?
    ensures Run(Fresh(req, body), es).down == [] <==> Silent(es)
  {
    EveryRunKeepsInv(req, body, es);
  }

  /** Bytes are conserved on the way back: whatever the chunking, the client is sent the chunks the upstream server
      sent, in order. */
  lemma BytesConserved(req: UpstreamRequest, body: Option<Bytes>, es: seq<Callback>)
    requires PhaseAfter(es).Some? && !FailedEarly(es)
    ensures FilterMap(BytesOf(), Run(Fresh(req, body), es).down) == FilterMap(ChunkOf(), es)
  {
    assert Run(Fresh(req, body), es).down == FilterMap(Relay(), es) by {
      EveryRunIsOneResponse(req, body, es);
    }
    FilterMapCompose(Relay(), BytesOf(), ChunkOf(), es);
  }

  function CodeOf(): Callback -> Option<nat> {
    (e: Callback) => if e.HeadersComplete? then Some(e.head.status) else None
  }

  /** The client of a run reads 502 when the attempt fails early, and else the upstream server's own status. */
  lemma RunCodes(req: UpstreamRequest, body: Option<Bytes>, es: seq<Callback>)
    requires PhaseAfter(es).Some?
    ensures Codes(Run(Fresh(req, body), es).down) == if FailedEarly(es) then [502] else FilterMap(CodeOf(), es)
  {
    var down := Run(Fresh(req, body), es).down;
    if FailedEarly(es) {
      var refused := ConnectError in es;
      assert down == BadGateway(refused) by { EveryRunIsOneResponse(req, body, es); }
      FullResponseReads(502, if refused then CONNECT_FAILED else UPSTREAM_ERROR);
    } else {
      assert down == FilterMap(Relay(), es) by { EveryRunIsOneResponse(req, body, es); }
      FilterMapCompose(Relay(), CodeIn(), CodeOf(), es);
    }
  }

  /** The rule that an error ends ingress is needed: sendErrorResponse leaves headersSent_ as it was, so each
      of `n` errors before headers sends its own 502, and the response is well formed just when there is at
      most one of them. */
  lemma {:induction false} RepeatedErrors(c: Client, n: nat)
    requires !c.headersSent && c.down == []
    ensures var d := Run(c, seq(n, i => Error));
            && !d.headersSent
            && |d.down| == 3 * n
            && WireAfter(d.down) == (if n == 0 then Some(Idle) else if n == 1 then Some(Complete) else None)
  {
    if n == 0 {
    } else {
      RepeatedErrors(c, n - 1);
      assert seq(n, i => Error)[..n - 1] == seq(n - 1, i => Error);
      WireAfterFull(Run(c, seq(n - 1, i => Error)).down, 502, UPSTREAM_ERROR);
    }
  }

  // ---------------------------------------------------------------- the object

  class Transaction {
    var egress: seq<Egress>

    constructor ()
      ensures egress == []
    {
      egress := [];
    }

    method Send(part: Egress)
      modifies this
      ensures egress == old(egress) + [part]
    {
      egress := egress + [part];
    }
  }

  /** Each method is one callback, and does to the object and its traffic what Step says. The object may not
      be called once it is deleted. */
  class UpstreamClient {
    const downstream: ResponseHandler
    const upstreamReq: UpstreamRequest
    var requestBody: Option<Bytes>
    var txn: Transaction?
    var headersSent: bool
    ghost var deletions: nat

    ghost function View(): Client
      reads this, downstream, txn
    {
      Client(upstreamReq, requestBody, headersSent, deletions, downstream.sent, if txn == null then [] else txn.egress)
    }

    constructor (downstream: ResponseHandler, req: UpstreamRequest, body: Option<Bytes>)
      ensures this.downstream == downstream && upstreamReq == req && txn == null
      ensures View() == Fresh(req, body).(down := downstream.sent)
    {
      this.downstream, upstreamReq, requestBody := downstream, req, body;
      txn, headersSent, deletions := null, false, 0;
    }

    /** `session` is the transaction that newTransaction hands out. */
    method ConnectSuccess(session: Transaction)
      requires deletions == 0 && txn == null && session.egress == []
      modifies this, session
      ensures txn == session && View() == Step(old(View()), Callback.ConnectSuccess)
    {
      txn := session;
      session.Send(EgressHeaders(upstreamReq));
      if requestBody.Some? {
        session.Send(EgressBody(requestBody.value));
        requestBody := None;
      }
      session.Send(EgressEOM);
    }

    method ConnectError()
      requires deletions == 0
      modifies this, downstream
      ensures txn == old(txn) && View() == Step(old(View()), Callback.ConnectError)
    {
      SendErrorResponse(502, CONNECT_FAILED);
      deletions := deletions + 1;
    }

    method DetachTransaction()
      requires deletions == 0
      modifies this`deletions
      ensures View() == Step(old(View()), Detach)
    {
      deletions := deletions + 1;
    }

    method OnHeadersComplete(head: ResponseHead)
      requires deletions == 0
      modifies this`headersSent, downstream
      ensures View() == Step(old(View()), HeadersComplete(head))
    {
      headersSent := true;
      downstream.Emit([SendHeaders(head)]);
    }

    method OnBody(bytes: Bytes)
      requires deletions == 0
      modifies downstream
      ensures View() == Step(old(View()), Body(bytes))
    {
      downstream.Emit([SendBody(bytes)]);
    }

    method OnEOM()
      requires deletions == 0
      modifies downstream
      ensures View() == Step(old(View()), Eom)
    {
      downstream.Emit([SendEOM]);
    }

    method OnError()
      requires deletions == 0
      modifies downstream
      ensures View() == Step(old(View()), Error)
    {
      if !headersSent {
        SendErrorResponse(502, UPSTREAM_ERROR);
      }
    }

    method SendErrorResponse(status: nat, body: Bytes)
      modifies downstream
      ensures downstream.sent == old(downstream.sent) + FullResponse(status, body)
    {
      downstream.Emit(FullResponse(status, body));
    }
  }

  /** Proxygen making one callback; trailers, upgrades and egress notices have empty handlers. */
  method Deliver(client: UpstreamClient, session: Transaction, e: Callback)
    requires client.deletions == 0
    requires e.ConnectSuccess? ==> client.txn == null && session.egress == []
    modifies client, client.downstream, session
    ensures client.View() == Step(old(client.View()), e)
    ensures client.txn == if e.ConnectSuccess? then session else old(client.txn)
    ensures !e.ConnectSuccess? ==> session.egress == old(session.egress)
  {
    match e
    case ConnectSuccess => client.ConnectSuccess(session);
    case ConnectError => client.ConnectError();
    case HeadersComplete(head) => client.OnHeadersComplete(head);
    case Body(bytes) => client.OnBody(bytes);
    case Eom => client.OnEOM();
    case Error => client.OnError();
    case Detach => client.DetachTransaction();
    case Trailers =>
    case Upgrade =>
    case EgressPaused =>
    case EgressResumed =>
  }

  /** A whole run of callbacks that the environment allows; no callback reaches a deleted object. */
  method DeliverAll(client: UpstreamClient, session: Transaction, es: seq<Callback>)
    requires client.View() == Fresh(client.upstreamReq, client.requestBody).(down := client.downstream.sent)
    requires client.txn == null && session.egress == [] && PhaseAfter(es).Some?
    modifies client, client.downstream, session
    ensures var c := Run(Fresh(client.upstreamReq, old(client.requestBody)), es);
            && client.View() == c.(down := old(client.downstream.sent) + c.down)
            && session.egress == c.up
  {
    ghost var start := client.View();
    ghost var begun := Fresh(start.req, start.body);
    assert start.down + begun.down == start.down;
    for i := 0 to |es|
      invariant client.View() == Run(start, es[..i])
      invariant i == 0 ==> client.txn == null
      invariant client.txn == session || (client.txn == null && session.egress == [])
    {
      BeforeCallback(start, es, i);
      Deliver(client, session, es[i]);
    }
    assert es[..|es|] == es;
    RunFrames(begun, start.down, es);
  }

  lemma StepFrames(c: Client, d: seq<Send>, e: Callback)
    ensures Step(c.(down := d + c.down), e) == Step(c, e).(down := d + Step(c, e).down)
  {
    var sent := Step(c, e).down[|c.down|..];
    assert Step(c, e).down == c.down + sent;
    assert d + c.down + sent == d + (c.down + sent);
  }

  /** A client neither reads nor disturbs what was sent before it. */
  lemma {:induction false} RunFrames(c: Client, d: seq<Send>, es: seq<Callback>)
    ensures Run(c.(down := d + c.down), es) == Run(c, es).(down := d + Run(c, es).down)
  {
    if es == [] {
    } else {
      RunFrames(c, d, es[..|es| - 1]);
      StepFrames(Run(c, es[..|es| - 1]), d, es[|es| - 1]);
    }
  }

  /** In an allowed run the object is still there when a callback comes, and only the first can be a connect. */
  lemma BeforeCallback(start: Client, es: seq<Callback>, i: nat)
    requires start == Fresh(start.req, start.body).(down := start.down) && PhaseAfter(es).Some? && i < |es|
    ensures Run(start, es[..i]).deletions == 0
    ensures Run(start, es[..i + 1]) == Step(Run(start, es[..i]), es[i])
    ensures es[i].ConnectSuccess? ==> i == 0
  {
    assert es[..i + 1][..i] == es[..i];
    PhasePrefix(es, i + 1);
    EveryRunKeepsInv(start.req, start.body, es[..i]);
    RunFrames(Fresh(start.req, start.body), start.down, es[..i]);
    assert start.down + [] == start.down;
  }

  lemma {:induction false} PhasePrefix(es: seq<Callback>, n: nat)
    requires n <= |es| && PhaseAfter(es).Some?
    ensures PhaseAfter(es[..n]).Some?
  {
    if n < |es| {
      PhasePrefix(es[..|es| - 1], n);
      assert es[..|es| - 1][..n] == es[..n];
    } else {
      assert es[..n] == es;
    }
  }
}
