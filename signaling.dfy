/** The signaling relay served next to the page: an in-memory registry of
    peer descriptions keyed by name, with a registration endpoint and a
    discovery endpoint under `/api/`. */
module Signaling {
  import opened Util

  /** A peer's description, kept as the JSON text the client sent. */
  type Json = string

  /** The parsed body of a registration request. */
  datatype Payload = Payload(name: string, description: Json)

  /** A request: its URL path, its HTTP method and its (parsed) JSON body. */
  datatype Request = Request(path: string, httpMethod: string, payload: Payload)

  /** What the handler answers: nothing (the request is left to the next
      handler), `{ok: true}`, the whole registry, or a 404 with a message. */
  datatype Response = NoResponse | Ok | Peers(peers: map<string, Json>) | NotFound(message: string) {
    function Status(): nat
      requires !NoResponse?
    {
      if NotFound? then 404 else 200
    }
  }

  const ApiPrefix := "/api/"
  const RegisterPath := "/api/register"
  const DiscoverPath := "/api/discover"
  const NotFoundMessage := "Not found"

  /** The branch of the handler a request takes. */
  datatype Route = Outside | Register | Discover | Unknown

  function RouteOf(path: string, httpMethod: string): (r: Route)
    ensures r == Outside <==> !(ApiPrefix <= path)
    ensures r == Register <==> path == RegisterPath && httpMethod == "POST"
    ensures r == Discover <==> path == DiscoverPath
    ensures r == Unknown <==> ApiPrefix <= path && path != DiscoverPath && !(path == RegisterPath && httpMethod == "POST")
  {
    if !(ApiPrefix <= path) then Outside
    else if path == RegisterPath && httpMethod == "POST" then Register
    else if path == DiscoverPath then Discover
    else Unknown
  }

  /** The response and the registry after one request. */
  datatype Outcome = Outcome(response: Response, peers: map<string, Json>)

  /** One request against a registry. */
  function Step(peers: map<string, Json>, req: Request): (r: Outcome)
    ensures RouteOf(req.path, req.httpMethod) == Outside ==> r.response == NoResponse && r.peers == peers
    ensures RouteOf(req.path, req.httpMethod) == Register ==>
      && r.response == Ok && r.response.Status() == 200
      && req.payload.name in r.peers && r.peers[req.payload.name] == req.payload.description
      && r.peers.Keys == peers.Keys + {req.payload.name}
      && forall n | n in peers && n != req.payload.name :: r.peers[n] == peers[n]
    ensures RouteOf(req.path, req.httpMethod) == Discover ==>
      r.response == Peers(peers) && r.response.Status() == 200 && r.peers == peers
    ensures RouteOf(req.path, req.httpMethod) == Unknown ==>
      r.response == NotFound("Not found") && r.response.Status() == 404 && r.peers == peers
  {
    match RouteOf(req.path, req.httpMethod)
    case Outside => Outcome(NoResponse, peers)
    case Register => Outcome(Ok, peers[req.payload.name := req.payload.description])
    case Discover => Outcome(Peers(peers), peers)
    case Unknown => Outcome(NotFound(NotFoundMessage), peers)
  }

  /** The registry after a sequence of requests, handled in order. */
  function Run(peers: map<string, Json>, reqs: seq<Request>): map<string, Json> {
    if reqs == [] then peers else Step(Run(peers, reqs[..|reqs| - 1]), reqs[|reqs| - 1]).peers
  }

  predicate RegistersName(req: Request, name: string) {
    RouteOf(req.path, req.httpMethod) == Register && req.payload.name == name
  }

  /** The description of the last request in `reqs` that registers `name`. */
  function LastRegistered(reqs: seq<Request>, name: string): Option<Json> {
    if reqs == [] then None
    else if RegistersName(reqs[|reqs| - 1], name) then Some(reqs[|reqs| - 1].payload.description)
    else LastRegistered(reqs[..|reqs| - 1], name)
  }

  /** Last write wins: after any sequence of requests, a name maps to the
      description of its last registration, and a name never registered
      keeps its earlier entry (or stays absent). */
  lemma {:induction false} RunLastWriteWins(peers: map<string, Json>, reqs: seq<Request>, name: string)
    ensures LastRegistered(reqs, name).Some? ==>
      name in Run(peers, reqs) && Run(peers, reqs)[name] == LastRegistered(reqs, name).value
    ensures LastRegistered(reqs, name).None? ==>
      (name in Run(peers, reqs) <==> name in peers) &&
      (name in peers ==> Run(peers, reqs)[name] == peers[name])
  {
    if reqs != [] {
      RunLastWriteWins(peers, reqs[..|reqs| - 1], name);
    }
  }

  /** Registration round trip: after registering `name` with `d`, a later
      discovery lists `name` with `d`, provided no request in between
      registers `name` again. */
  lemma RegisterThenDiscover(peers: map<string, Json>, reg: Request, between: seq<Request>, discover: Request)
    requires RouteOf(reg.path, reg.httpMethod) == Register
    requires forall i :: 0 <= i < |between| ==> !RegistersName(between[i], reg.payload.name)
    requires RouteOf(discover.path, discover.httpMethod) == Discover
    ensures var r := Step(Run(peers, [reg] + between), discover).response;
      r.Peers? && reg.payload.name in r.peers && r.peers[reg.payload.name] == reg.payload.description
  {
    var reqs := [reg] + between;
    LastRegisteredSkips(reqs, 1, reg.payload.name);
    assert reqs[..1] == [reg];
    assert [reg][..0] == [];
    RunLastWriteWins(peers, reqs, reg.payload.name);
  }

  /** Requests after position `k` that do not register `name` do not change
      which registration of `name` is the last. */
  lemma {:induction false} LastRegisteredSkips(reqs: seq<Request>, k: nat, name: string)
    requires k <= |reqs|
    requires forall i :: k <= i < |reqs| ==> !RegistersName(reqs[i], name)
    ensures LastRegistered(reqs, name) == LastRegistered(reqs[..k], name)
  {
    if |reqs| > k {
      assert reqs[..|reqs| - 1][..k] == reqs[..k];
      LastRegisteredSkips(reqs[..|reqs| - 1], k, name);
    } else {
      assert reqs[..k] == reqs;
    }
  }

  /** Requests outside `/api/`, discoveries and unknown `/api/` requests
      leave the registry as it was. */
  lemma {:induction false} RunWithoutRegistrations(peers: map<string, Json>, reqs: seq<Request>)
    requires forall i :: 0 <= i < |reqs| ==> RouteOf(reqs[i].path, reqs[i].httpMethod) != Register
    ensures Run(peers, reqs) == peers
  {
    if reqs != [] {
      RunWithoutRegistrations(peers, reqs[..|reqs| - 1]);
    }
  }

  /** The module-level `peers` record and the request handler. */
  class Server {
    var peers: map<string, Json>

    constructor ()
      ensures peers == map[]
    {
      peers := map[];
    }

    method Handle(req: Request) returns (response: Response)
      modifies this
      ensures Outcome(response, peers) == Step(old(peers), req)
    {
      if !(ApiPrefix <= req.path) {
        return NoResponse;
      }
      if req.path == RegisterPath && req.httpMethod == "POST" {
        var payload := req.payload;
        peers := peers[payload.name := payload.description];
        return Ok;
      }
      if req.path == DiscoverPath {
        return Peers(peers);
      }
      return NotFound(NotFoundMessage);
    }
  }

  /** The server handling a sequence of requests, one at a time: the
      registry ends as `Run` describes. */
  method HandleAll(server: Server, reqs: seq<Request>)
    modifies server
    ensures server.peers == Run(old(server.peers), reqs)
  {
    for i := 0 to |reqs|
      invariant server.peers == Run(old(server.peers), reqs[..i])
    {
      assert reqs[..i + 1][..i] == reqs[..i];
      var _ := server.Handle(reqs[i]);
    }
    assert reqs[..|reqs|] == reqs;
  }

  /** A client of the server: two peers register, one re-registers, and
      discovery shows the latest description of each. */
  method ServerScenario(a: Json, b: Json, a2: Json)
  {
    var server := new Server();
    assert !(ApiPrefix <= "/index.html") by { assert ApiPrefix[1] != "/index.html"[1]; }
    var r := server.Handle(Request("/index.html", "GET", Payload("", "")));
    assert r == NoResponse && server.peers == map[];
    r := server.Handle(Request("/api/register", "POST", Payload("caller", a)));
    assert r == Ok;
    r := server.Handle(Request("/api/register", "POST", Payload("callee", b)));
    r := server.Handle(Request("/api/register", "GET", Payload("callee", a2)));
    assert r.Status() == 404;
    r := server.Handle(Request("/api/register", "POST", Payload("caller", a2)));
    r := server.Handle(Request("/api/discover", "GET", Payload("", "")));
    assert r == Peers(map["caller" := a2, "callee" := b]);
  }
}
