/**
 * The client half of the peer protocol (httpGetter in http.go): the URL a
 * request is sent to, and what the receiving pool reads back from it.
 *
 * url.QueryEscape and the server's path decoding are library code and enter
 * as the parameters `esc` and `unesc`; the round trip is proved only under
 * the properties stated for them below and the side conditions on the
 * request's components.
 */
module Client {
  import opened Text
  import opened Config
  import opened Routing

  /** groupcachepb.GetRequest: group, key, the batch routing key and the Multi flag. */
  datatype GetRequest = GetRequest(group: string, key: string, peerKey: string, multi: bool)

  /** httpGetter: the two URL templates of one peer. */
  datatype HttpGetter = HttpGetter(baseURL: string, multiURL: string)

  /** The getter HTTPPool.Set makes for `peer`. */
  function GetterFor(peer: string, opts: Options): (h: HttpGetter)
    ensures HasPrefix(h.baseURL, peer) && h.baseURL[|peer|..] == opts.basePath
    ensures HasPrefix(h.multiURL, peer) && h.multiURL[|peer|..] == opts.multiPath
  {
    HttpGetter(peer + opts.basePath, peer + opts.multiPath)
  }

  /** Different peers get different getters: the peer is the getter's URL minus the shared path. */
  lemma GetterForInjective(p: string, q: string, opts: Options)
    ensures GetterFor(p, opts) == GetterFor(q, opts) ==> p == q
  {
  }

  /** The template a request is built on: the multi one exactly when Multi is set. */
  function Template(h: HttpGetter, req: GetRequest): string {
    if req.multi then h.multiURL else h.baseURL
  }

  /** The request's path components, in URL order: group, [peerKey,] key. */
  function Parts(req: GetRequest): (ps: seq<string>)
    ensures |ps| == if req.multi then 3 else 2
  {
    if req.multi then [req.group, req.peerKey, req.key] else [req.group, req.key]
  }

  /** Each string escaped (or decoded) on its own. */
  function Each(f: string -> string, parts: seq<string>): (cs: seq<string>)
    ensures |cs| == |parts|
    ensures forall i :: 0 <= i < |parts| ==> cs[i] == f(parts[i])
  {
    seq(|parts|, i requires 0 <= i < |parts| => f(parts[i]))
  }

  /** The escaped path components that follow the template, in order. */
  function Components(req: GetRequest, esc: string -> string): seq<string> {
    Each(esc, Parts(req))
  }

  /** QueryEscape never emits '/' (it writes "%2F"). */
  ghost predicate NoSlashOut(esc: string -> string) {
    forall s :: '/' !in esc(s)
  }

  /** Path decoding undoes QueryEscape on every string without a space (a space becomes '+', which stays '+'). */
  ghost predicate Inverts(esc: string -> string, unesc: string -> string) {
    forall s :: ' ' !in s ==> unesc(esc(s)) == s
  }

  /**
   * httpGetter.makeRequest's URL: `baseURL + esc(group)/esc(key)`, or with
   * Multi set `multiURL + esc(group)/esc(peerKey)/esc(key)`: the template
   * followed by the escaped components joined with '/'.
   */
  function RequestURL(h: HttpGetter, req: GetRequest, esc: string -> string): (u: string)
    ensures HasPrefix(u, Template(h, req))
    ensures u[|Template(h, req)|..] == Join(Components(req, esc), '/')
  {
    var cs := Components(req, esc);
    var u := if req.multi then h.multiURL + (cs[0] + "/" + cs[1] + "/" + cs[2])
             else h.baseURL + (cs[0] + "/" + cs[1]);
    if req.multi then
      assert cs == [cs[0], cs[1], cs[2]];
      Join3(cs[0], cs[1], cs[2], '/'); u
    else
      assert cs == [cs[0], cs[1]];
      Join2(cs[0], cs[1], '/'); u
  }

  /** With escaping that never emits '/', SplitN of the joined components gives them back. */
  lemma ComponentsSplit(req: GetRequest, esc: string -> string)
    requires NoSlashOut(esc)
    ensures SplitN(Join(Components(req, esc), '/'), '/', |Components(req, esc)|) == Components(req, esc)
  {
    var cs := Components(req, esc);
    assert forall i :: 0 <= i < |cs| ==> '/' !in cs[i];
    SplitNJoin(cs, '/');
  }

  /**
   * What the receiving pool's handler sees as the part after its prefix:
   * the raw remainder split at '/', each segment path-decoded, rejoined.
   */
  function DecodePath(unesc: string -> string, raw: string): string {
    Join(Each(unesc, Split(raw, '/')), '/')
  }

  /** The path a peer with the same options receives for a request built by `h`. */
  function ReceivedPath(opts: Options, h: HttpGetter, req: GetRequest, unesc: string -> string, esc: string -> string): string {
    var prefix := if req.multi then opts.multiPath else opts.basePath;
    prefix + DecodePath(unesc, RequestURL(h, req, esc)[|Template(h, req)|..])
  }

  /** Escape each part, join with '/', decode: the parts come back joined with '/'. */
  lemma {:induction false} DecodeJoined(parts: seq<string>, esc: string -> string, unesc: string -> string)
    requires |parts| >= 1
    requires NoSlashOut(esc) && Inverts(esc, unesc)
    requires forall i :: 0 <= i < |parts| ==> ' ' !in parts[i]
    ensures DecodePath(unesc, Join(Each(esc, parts), '/')) == Join(parts, '/')
  {
    var cs := Each(esc, parts);
    assert forall i :: 0 <= i < |cs| ==> '/' !in cs[i];
    SplitJoin(cs, '/');
    assert Each(unesc, cs) == parts;
  }

  /**
   * Single-key round trip: the pool that receives a single-key request reads
   * back its group and key, provided the group holds no '/', no component
   * holds a space, and the pool's two prefixes diverge.
   */
  lemma {:induction false} SingleRoundTrip(opts: Options, peer: string, req: GetRequest, esc: string -> string, unesc: string -> string)
    requires !req.multi
    requires NoSlashOut(esc) && Inverts(esc, unesc)
    requires '/' !in req.group && ' ' !in req.group && ' ' !in req.key
    requires Diverge(opts.basePath, opts.multiPath)
    ensures ParsePath(opts.basePath, opts.multiPath, ReceivedPath(opts, GetterFor(peer, opts), req, unesc, esc))
      == SingleKey(req.group, req.key)
  {
    var h := GetterFor(peer, opts);
    DecodeJoined(Parts(req), esc, unesc);
    Join2(req.group, req.key, '/');
    var path := opts.basePath + (req.group + "/" + req.key);
    assert ReceivedPath(opts, h, req, unesc, esc) == path;
    assert path[..|opts.basePath|] == opts.basePath;
    DivergeExcludes(opts.basePath, opts.multiPath, path);
    ParseSingle(opts.basePath, opts.multiPath, req.group, req.key);
  }

  /**
   * Batch round trip: the pool that receives a multi-key request for the
   * ','-joined list `keys` reads back the group, the peer key and exactly
   * `keys`, provided group and peer key hold no '/', no key holds ',' and no
   * component holds a space.
   */
  lemma {:induction false} BatchRoundTrip(opts: Options, peer: string, group: string, peerKey: string, keys: seq<string>,
                                           esc: string -> string, unesc: string -> string)
    requires NoSlashOut(esc) && Inverts(esc, unesc)
    requires |keys| >= 1 && forall i :: 0 <= i < |keys| ==> ',' !in keys[i]
    requires '/' !in group && '/' !in peerKey
    requires ' ' !in group && ' ' !in peerKey && ' ' !in Join(keys, ',')
    ensures var req := GetRequest(group, Join(keys, ','), peerKey, true);
      ParsePath(opts.basePath, opts.multiPath, ReceivedPath(opts, GetterFor(peer, opts), req, unesc, esc))
        == MultiKey(group, peerKey, keys)
  {
    var req := GetRequest(group, Join(keys, ','), peerKey, true);
    var h := GetterFor(peer, opts);
    DecodeJoined(Parts(req), esc, unesc);
    Join3(group, peerKey, req.key, '/');
    assert ReceivedPath(opts, h, req, unesc, esc) == opts.multiPath + (group + "/" + peerKey + "/" + req.key);
    ParseMulti(opts.basePath, opts.multiPath, group, peerKey, req.key);
    SplitJoin(keys, ',');
  }

  /**
   * Why the side condition on spaces is needed: QueryEscape turns " " into
   * "+", and path decoding leaves "+" alone, so the key " " arrives as "+".
   */
  lemma SpaceArrivesAsPlus(opts: Options, peer: string, group: string, esc: string -> string, unesc: string -> string)
    requires NoSlashOut(esc) && Inverts(esc, unesc)
    requires esc(" ") == "+" && unesc("+") == "+"
    requires '/' !in group && ' ' !in group
    requires Diverge(opts.basePath, opts.multiPath)
    ensures ParsePath(opts.basePath, opts.multiPath,
                      ReceivedPath(opts, GetterFor(peer, opts), GetRequest(group, " ", "", false), unesc, esc))
      == SingleKey(group, "+")
  {
    var req := GetRequest(group, " ", "", false);
    var h := GetterFor(peer, opts);
    var cs := Components(req, esc);
    assert '/' !in cs[0] && '/' !in cs[1];
    SplitJoin(cs, '/');
    assert Each(unesc, cs) == [group, "+"];
    Join2(group, "+", '/');
    var path := opts.basePath + (group + "/" + "+");
    assert ReceivedPath(opts, h, req, unesc, esc) == path;
    assert path[..|opts.basePath|] == opts.basePath;
    DivergeExcludes(opts.basePath, opts.multiPath, path);
    ParseSingle(opts.basePath, opts.multiPath, group, "+");
  }
}
