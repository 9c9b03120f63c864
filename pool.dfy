/**
 * HTTPPool (http.go): the peer table and ring a process routes keys with,
 * the once-only constructor, and the HTTP handler that serves other peers.
 */
module Pool {
  import opened Outcomes
  import opened Text
  import opened Config
  import opened Wire
  import opened Routing
  import opened Client
  import CH = ConsistentHash

  const STATUS_BAD_REQUEST := 400
  const STATUS_NOT_FOUND := 404
  const STATUS_INTERNAL_SERVER_ERROR := 500
  const METHOD_DELETE := "DELETE"

  /** An inbound request: its method and its (decoded) URL path. */
  datatype Request = Request(httpMethod: string, path: string)

  /** The body of a 200 answer: nothing, one GetResponse, or a GetMultiResponse's list. */
  datatype Body = NoBody | One(response: GetResponse) | Many(responses: seq<GetResponse>)

  /** What the handler does with a request: panic, answer with an error status, or answer 200. */
  datatype Response = Panic(message: string) | HttpError(status: int, message: string) | Ok(body: Body)

  /** A call the handler makes into a local group. */
  datatype GroupCall =
    | LocalGet(group: string, key: string)
    | LocalBatchGet(group: string, peerKey: string, keys: seq<string>)
    | LocalRemove(group: string, key: string)

  /**
   * Group.Get into an allocating byte sink, then the sink's view: a view, or
   * the error either step returned. The groups themselves are not part of
   * this model.
   */
  type GetFn = (string, string) -> Result<ByteView, string>

  /** Group.BatchGet into one allocating sink per key: the error it returned, or each sink's view. */
  type BatchGetFn = (string, string, seq<string>) -> Result<seq<Result<ByteView, string>>, string>

  /**
   * The process-wide group registry as the handler sees it: the registered
   * groups with their ServerRequests counters, and the calls made into them.
   */
  class Groups {
    var serverRequests: map<string, nat>
    var calls: seq<GroupCall>

    constructor (names: set<string>)
      ensures serverRequests.Keys == names
      ensures forall g :: g in serverRequests ==> serverRequests[g] == 0
      ensures calls == []
    {
      serverRequests := map g | g in names :: 0;
      calls := [];
    }
  }

  /** The view of sink `i`; a sink the batch loader left unset views as an empty value that never expires. */
  function SinkView(views: seq<Result<ByteView, string>>, i: nat): Result<ByteView, string> {
    if i < |views| then views[i] else Success(ByteView([], ZeroTime))
  }

  /** The views of the `n` sinks the handler allocates, one per requested key. */
  function Sinks(views: seq<Result<ByteView, string>>, n: nat): (sinks: seq<Result<ByteView, string>>)
    ensures |sinks| == n
    ensures forall i :: 0 <= i < n ==> sinks[i] == SinkView(views, i)
  {
    seq(n, i requires 0 <= i < n => SinkView(views, i))
  }

  /**
   * The per-key response list: one GetResponse per sink, in order, or the
   * error of the first sink whose view failed.
   */
  function Responses(sinks: seq<Result<ByteView, string>>): (r: Result<seq<GetResponse>, string>)
    ensures r.Success? <==> forall i :: 0 <= i < |sinks| ==> sinks[i].Success?
    ensures r.Success? ==> |r.value| == |sinks|
    ensures r.Success? ==> forall i :: 0 <= i < |sinks| ==> r.value[i] == ToResponse(sinks[i].value)
    ensures r.Failure? ==> exists j :: 0 <= j < |sinks| && sinks[j] == Failure(r.error)
                                       && forall i :: 0 <= i < j ==> sinks[i].Success?
  {
    if sinks == [] then Success([])
    else
      match sinks[0]
      case Failure(e) => Failure(e)
      case Success(v) =>
        var rest := Responses(sinks[1..]);
        assert forall i :: 1 <= i < |sinks| ==> sinks[i] == sinks[1..][i - 1];
        if rest.Failure? then
          var j :| 0 <= j < |sinks| - 1 && sinks[1..][j] == Failure(rest.error)
                   && forall i :: 0 <= i < j ==> sinks[1..][i].Success?;
          assert sinks[j + 1] == Failure(rest.error);
          rest
        else
          Success([ToResponse(v)] + rest.value)
  }

  /**
   * The handler's loop over the sinks (http.go, the valueList loop): fills
   * one response per key and stops at the first view that fails.
   */
  method AssembleResponses(sinks: seq<Result<ByteView, string>>) returns (r: Result<seq<GetResponse>, string>)
    ensures r == Responses(sinks)
  {
    var valueList := new GetResponse[|sinks|];
    var i := 0;
    while i < |sinks|
      invariant 0 <= i <= |sinks|
      invariant forall j :: 0 <= j < i ==> sinks[j].Success? && valueList[j] == ToResponse(sinks[j].value)
    {
      match sinks[i]
      case Failure(e) =>
        ghost var expected := Responses(sinks);
        assert expected.Failure?;
        return Failure(e);
      case Success(v) =>
        valueList[i] := ToResponse(v);
      i := i + 1;
    }
    assert valueList[..] == Responses(sinks).value;
    return Success(valueList[..]);
  }

  /** A request that parses and names a registered group: the only ones the handler serves and counts. */
  predicate Admitted(route: Route, registered: set<string>) {
    (route.MultiKey? || route.SingleKey?) && route.group in registered
  }

  /**
   * ServerRequests after a request: the counter of the request's group goes
   * up by one exactly when the request is admitted, DELETE included; no
   * other counter moves.
   */
  function Bump(counters: map<string, nat>, route: Route): (r: map<string, nat>)
    ensures r.Keys == counters.Keys
    ensures forall g :: g in counters ==>
      r[g] == counters[g] + if Admitted(route, counters.Keys) && g == route.group then 1 else 0
  {
    if Admitted(route, counters.Keys) then counters[route.group := counters[route.group] + 1] else counters
  }

  /**
   * The calls the handler makes into the group: none unless the request is
   * admitted; a DELETE never reads, a single-key DELETE removes its key and a
   * multi-key DELETE does nothing.
   */
  function CallsMade(route: Route, httpMethod: string, registered: set<string>): (calls: seq<GroupCall>)
    ensures |calls| <= 1
    ensures calls != [] ==> Admitted(route, registered)
    ensures Admitted(route, registered) && route.SingleKey? ==>
      calls == [if httpMethod == METHOD_DELETE then LocalRemove(route.group, route.key) else LocalGet(route.group, route.key)]
    ensures Admitted(route, registered) && route.MultiKey? ==>
      calls == if httpMethod == METHOD_DELETE then [] else [LocalBatchGet(route.group, route.peerKey, route.keys)]
  {
    if !Admitted(route, registered) then []
    else if route.SingleKey? then
      if httpMethod == METHOD_DELETE then [LocalRemove(route.group, route.key)] else [LocalGet(route.group, route.key)]
    else if httpMethod == METHOD_DELETE then []
    else [LocalBatchGet(route.group, route.peerKey, route.keys)]
  }

  /**
   * The handler's answer. A path under neither prefix panics, a malformed
   * one answers 400, an unknown group 404; an admitted DELETE answers an
   * empty 200; a read answers 500 with the loader's error or 200 with one
   * GetResponse per requested key, in request order.
   */
  function Answer(route: Route, httpMethod: string, path: string, registered: set<string>,
                  get: GetFn, batchGet: BatchGetFn): (resp: Response)
    ensures resp.Panic? <==> route.UnexpectedPath?
    ensures resp == HttpError(STATUS_BAD_REQUEST, "bad request") <==> route.BadRequest?
    ensures (resp.HttpError? && resp.status == STATUS_NOT_FOUND) <==>
      (route.SingleKey? || route.MultiKey?) && route.group !in registered
    ensures resp.Ok? ==> Admitted(route, registered)
    ensures Admitted(route, registered) && httpMethod == METHOD_DELETE ==> resp == Ok(NoBody)
    ensures route.SingleKey? && resp.Ok? && httpMethod != METHOD_DELETE ==>
      && resp.body.One?
      && get(route.group, route.key).Success?
      && resp.body.response == ToResponse(get(route.group, route.key).value)
    ensures route.MultiKey? && resp.Ok? && httpMethod != METHOD_DELETE ==>
      && resp.body.Many?
      && |resp.body.responses| == |route.keys|
      && batchGet(route.group, route.peerKey, route.keys).Success?
      && forall i :: 0 <= i < |route.keys| ==>
           var view := SinkView(batchGet(route.group, route.peerKey, route.keys).value, i);
           view.Success? && resp.body.responses[i] == ToResponse(view.value)
    ensures Admitted(route, registered) && route.SingleKey? && httpMethod != METHOD_DELETE ==>
      var loaded := get(route.group, route.key);
      && (loaded.Success? ==> resp == Ok(One(ToResponse(loaded.value))))
      && (loaded.Failure? ==> resp == HttpError(STATUS_INTERNAL_SERVER_ERROR, loaded.error))
    ensures Admitted(route, registered) && route.MultiKey? && httpMethod != METHOD_DELETE ==>
      var loaded := batchGet(route.group, route.peerKey, route.keys);
      && (loaded.Failure? ==> resp == HttpError(STATUS_INTERNAL_SERVER_ERROR, loaded.error))
      && (loaded.Success? ==>
            var list := Responses(Sinks(loaded.value, |route.keys|));
            && (list.Success? ==> resp == Ok(Many(list.value)))
            && (list.Failure? ==> resp == HttpError(STATUS_INTERNAL_SERVER_ERROR, list.error)))
  {
    match route
    case UnexpectedPath => Panic("HTTPPool serving unexpected path: " + path)
    case BadRequest => HttpError(STATUS_BAD_REQUEST, "bad request")
    case MultiKey(g, peerKey, keys) =>
      if g !in registered then HttpError(STATUS_NOT_FOUND, "no such group: " + g)
      else if httpMethod == METHOD_DELETE then Ok(NoBody)
      else
        match batchGet(g, peerKey, keys) {
          case Failure(e) => HttpError(STATUS_INTERNAL_SERVER_ERROR, e)
          case Success(views) =>
            match Responses(Sinks(views, |keys|)) {
              case Failure(e) => HttpError(STATUS_INTERNAL_SERVER_ERROR, e)
              case Success(list) => Ok(Many(list))
            }
        }
    case SingleKey(g, key) =>
      if g !in registered then HttpError(STATUS_NOT_FOUND, "no such group: " + g)
      else if httpMethod == METHOD_DELETE then Ok(NoBody)
      else
        match get(g, key)
        case Failure(e) => HttpError(STATUS_INTERNAL_SERVER_ERROR, e)
        case Success(view) => Ok(One(ToResponse(view)))
  }

  /**
   * A listing of the getter table by a duplicate-free enumeration of its
   * keys holds every getter, and holds none twice when each getter is the
   * one its peer gets.
   */
  lemma EnumeratedGetters(getters: map<string, HttpGetter>, done: seq<string>, res: seq<HttpGetter>, opts: Options)
    requires |res| == |done|
    requires forall j :: 0 <= j < |done| ==> done[j] in getters && res[j] == getters[done[j]]
    requires forall j, k :: 0 <= j < k < |done| ==> done[j] != done[k]
    requires forall p :: p in getters ==> p in done
    ensures forall g :: g in res <==> g in getters.Values
    ensures (forall p :: p in getters ==> getters[p] == GetterFor(p, opts)) ==>
      forall i, j :: 0 <= i < j < |res| ==> res[i] != res[j]
  {
    forall g | g in getters.Values ensures g in res {
      var p :| p in getters && getters[p] == g;
      var j :| 0 <= j < |done| && done[j] == p;
      assert res[j] == g;
    }
    if forall p :: p in getters ==> getters[p] == GetterFor(p, opts) {
      forall i, j | 0 <= i < j < |res| ensures res[i] != res[j] {
        GetterForInjective(done[i], done[j], opts);
      }
    }
  }

  class HTTPPool {
    /** This peer's base URL. */
    const self: string
    var opts: Options
    var ring: CH.Ring
    /** The getter of each peer, keyed by the peer's base URL. */
    var getters: map<string, HttpGetter>

    /** The ring and the getter table come from one peer list, with this pool's options. */
    ghost predicate Valid()
      reads this
    {
      && ring.replicas == opts.replicas
      && ring.hash == CH.HashOrDefault(opts.hashFn)
      && (forall p :: p in getters <==> p in ring.peers)
      && (forall p :: p in getters ==> getters[p] == GetterFor(p, opts))
    }

    /** The struct literal in NewHTTPPoolOpts: no options yet, an empty getter table. */
    constructor (self: string)
      ensures this.self == self && opts == ZERO_OPTIONS && getters == map[]
      ensures ring == CH.New(0, None)
      ensures Valid()
    {
      this.self := self;
      opts := ZERO_OPTIONS;
      getters := map[];
      ring := CH.New(0, None);
    }

    /**
     * Set: replaces the ring and the getter table wholesale with ones built
     * from `peers`; nothing of the previous table survives.
     */
    method Set(peers: seq<string>)
      modifies this
      ensures opts == old(opts)
      ensures ring == CH.Add(CH.New(opts.replicas, opts.hashFn), peers)
      ensures getters.Keys == set p | p in peers
      ensures forall p :: p in getters ==> getters[p] == GetterFor(p, opts)
      ensures Valid()
    {
      ring := CH.New(opts.replicas, opts.hashFn);
      ring := CH.Add(ring, peers);
      getters := map[];
      for i := 0 to |peers|
        invariant opts == old(opts) && ring == CH.Add(CH.New(opts.replicas, opts.hashFn), peers)
        invariant getters.Keys == set j | 0 <= j < i :: peers[j]
        invariant forall p :: p in getters ==> getters[p] == GetterFor(p, opts)
      {
        getters := getters[peers[i] := GetterFor(peers[i], opts)];
      }
      assert getters.Keys == set p | p in peers;
    }

    /** GetAll: every getter of the table once, in the map's iteration order. */
    method GetAll() returns (res: seq<HttpGetter>)
      ensures |res| == |getters|
      ensures forall g :: g in res <==> g in getters.Values
      ensures Valid() ==> forall i, j :: 0 <= i < j < |res| ==> res[i] != res[j]
    {
      var a := new HttpGetter[|getters|];
      var i := 0;
      var rest := getters.Keys;
      ghost var done: seq<string> := [];
      while rest != {}
        invariant rest <= getters.Keys
        invariant i == |done| && i + |rest| == |getters|
        invariant forall j :: 0 <= j < i ==> done[j] in getters && done[j] !in rest && a[j] == getters[done[j]]
        invariant forall j, k :: 0 <= j < k < i ==> done[j] != done[k]
        invariant forall p :: p in getters && p !in rest ==> p in done
        decreases |rest|
      {
        var k :| k in rest;
        a[i] := getters[k];
        done := done + [k];
        rest := rest - {k};
        i := i + 1;
      }
      res := a[..];
      EnumeratedGetters(getters, done, res, opts);
    }

    /**
     * PickPeer: no peer when the ring is empty or owns the key itself;
     * otherwise the owner's getter, which is always in the table and never
     * this process's own.
     */
    function PickPeer(key: string): (r: Option<HttpGetter>)
      reads this
      requires Valid()
      ensures r.None? <==> CH.IsEmpty(ring) || CH.Get(ring, key) == self
      ensures r.Some? ==> CH.Get(ring, key) in getters && r.value == getters[CH.Get(ring, key)]
      ensures r.Some? ==> r.value in getters.Values && r.value != GetterFor(self, opts)
    {
      if CH.IsEmpty(ring) then None
      else
        var peer := CH.Get(ring, key);
        if peer != self then
          GetterForInjective(peer, self, opts);
          Some(getters[peer])
        else None
    }

    /**
     * ServeHTTP: parse the path, look the group up, count the request, then
     * remove, get or batch-get. Malformed paths answer 400, unknown groups
     * 404, failing loads 500; a path under neither prefix panics.
     */
    method ServeHTTP(req: Request, groups: Groups, get: GetFn, batchGet: BatchGetFn) returns (resp: Response)
      modifies groups
      ensures var route := ParsePath(opts.basePath, opts.multiPath, req.path);
        && resp == Answer(route, req.httpMethod, req.path, old(groups.serverRequests).Keys, get, batchGet)
        && groups.calls == old(groups.calls) + CallsMade(route, req.httpMethod, old(groups.serverRequests).Keys)
        && groups.serverRequests == Bump(old(groups.serverRequests), route)
    {
      var route := ParsePath(opts.basePath, opts.multiPath, req.path);
      match route
      case UnexpectedPath =>
        return Panic("HTTPPool serving unexpected path: " + req.path);
      case BadRequest =>
        return HttpError(STATUS_BAD_REQUEST, "bad request");
      case MultiKey(_, _, _) =>
        resp := ServeMulti(req, route, groups, get, batchGet);
      case SingleKey(_, _) =>
        resp := ServeSingle(req, route, groups, get, batchGet);
    }

    /** The multi-key branch of ServeHTTP, once the path has parsed. */
    static method ServeMulti(req: Request, route: Route, groups: Groups, get: GetFn, batchGet: BatchGetFn)
      returns (resp: Response)
      requires route.MultiKey?
      modifies groups
      ensures resp == Answer(route, req.httpMethod, req.path, old(groups.serverRequests).Keys, get, batchGet)
      ensures groups.calls == old(groups.calls) + CallsMade(route, req.httpMethod, old(groups.serverRequests).Keys)
      ensures groups.serverRequests == Bump(old(groups.serverRequests), route)
    {
      var groupName, peerKey, keys, httpMethod := route.group, route.peerKey, route.keys, req.httpMethod;
      if groupName !in groups.serverRequests {
        return HttpError(STATUS_NOT_FOUND, "no such group: " + groupName);
      }
      groups.serverRequests := groups.serverRequests[groupName := groups.serverRequests[groupName] + 1];
      if httpMethod == METHOD_DELETE {
        return Ok(NoBody);
      }
      groups.calls := groups.calls + [LocalBatchGet(groupName, peerKey, keys)];
      match batchGet(groupName, peerKey, keys) {
        case Failure(e) =>
          return HttpError(STATUS_INTERNAL_SERVER_ERROR, e);
        case Success(views) =>
          var valueList := AssembleResponses(Sinks(views, |keys|));
          match valueList {
            case Failure(e) =>
              return HttpError(STATUS_INTERNAL_SERVER_ERROR, e);
            case Success(list) =>
              return Ok(Many(list));
          }
      }
    }

    /** The single-key branch of ServeHTTP, once the path has parsed. */
    static method ServeSingle(req: Request, route: Route, groups: Groups, get: GetFn, batchGet: BatchGetFn)
      returns (resp: Response)
      requires route.SingleKey?
      modifies groups
      ensures resp == Answer(route, req.httpMethod, req.path, old(groups.serverRequests).Keys, get, batchGet)
      ensures groups.calls == old(groups.calls) + CallsMade(route, req.httpMethod, old(groups.serverRequests).Keys)
      ensures groups.serverRequests == Bump(old(groups.serverRequests), route)
    {
      var groupName, key, httpMethod := route.group, route.key, req.httpMethod;
      if groupName !in groups.serverRequests {
        return HttpError(STATUS_NOT_FOUND, "no such group: " + groupName);
      }
      groups.serverRequests := groups.serverRequests[groupName := groups.serverRequests[groupName] + 1];
      if httpMethod == METHOD_DELETE {
        groups.calls := groups.calls + [LocalRemove(groupName, key)];
        return Ok(NoBody);
      }
      groups.calls := groups.calls + [LocalGet(groupName, key)];
      match get(groupName, key) {
        case Failure(e) =>
          return HttpError(STATUS_INTERNAL_SERVER_ERROR, e);
        case Success(view) =>
          return Ok(One(ToResponse(view)));
      }
    }
  }

  /** The package-level state: whether a pool has been made in this process. */
  class Runtime {
    var httpPoolMade: bool

    constructor ()
      ensures !httpPoolMade
    {
      httpPoolMade := false;
    }

    /**
     * NewHTTPPoolOpts: the first call makes a pool with the given options
     * (none: all blank) after defaulting; every later call panics (null)
     * without making one.
     */
    method NewHTTPPoolOpts(self: string, o: Option<Options>) returns (p: HTTPPool?)
      modifies this
      ensures httpPoolMade
      ensures old(httpPoolMade) <==> p == null
      ensures p != null ==>
        && fresh(p)
        && p.self == self
        && p.opts == WithDefaults(if o.Some? then o.value else ZERO_OPTIONS)
        && p.ring == CH.New(p.opts.replicas, p.opts.hashFn)
        && p.getters == map[]
        && p.Valid()
    {
      if httpPoolMade {
        return null;
      }
      httpPoolMade := true;
      p := new HTTPPool(self);
      if o.Some? {
        p.opts := o.value;
      }
      if p.opts.basePath == "" {
        p.opts := p.opts.(basePath := DEFAULT_BASE_PATH);
      }
      if p.opts.multiPath == "" {
        p.opts := p.opts.(multiPath := DEFAULT_MULTI_PATH);
      }
      if p.opts.replicas == 0 {
        p.opts := p.opts.(replicas := DEFAULT_REPLICAS);
      }
      p.ring := CH.New(p.opts.replicas, p.opts.hashFn);
    }
  }
}
