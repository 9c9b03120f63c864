# groupcache HTTP peer transport, modelled in Dafny

This project models `http.go` of groupcache, a distributed cache in which each
process owns part of the key space. The file holds two halves:

- **HTTPPool**, the server side. It keeps the peer list on a consistent-hash
  ring, with one `httpGetter` per peer. It picks the peer that owns a key, and
  its `ServeHTTP` answers other peers' requests. A request names a group and
  a key (`basePath + group/key`), or a group, a peer key and a comma-separated
  key list (`multiPath + group/peerKey/k1,k2,...`).
- **httpGetter**, the client side. It builds the URL for a single-key or a
  multi-key request.

Modules, in dependency order:

- `Outcomes`: `Option` and `Result`.
- `Text`: Go's `strings.HasPrefix`, `SplitN`, `Split`, `Join` and
  `strconv.Itoa`, with the split/join laws.
- `ConsistentHash`: the ring the pool routes with. It covers `New`, `Add`,
  `IsEmpty` and `Get`, and uses CRC-32 (IEEE) when no hash is given. The pool
  relies only on `Get`'s contract: on a non-empty ring the owner is one of the
  peers.
- `Config`: `HTTPPoolOptions`, the default values, and the defaulting done by
  `NewHTTPPoolOpts`.
- `Wire`: `ByteView` and `GetResponse`, and how an expiry travels. The zero
  time goes as 0; any other time goes as its Unix nanoseconds.
- `Routing`: how `ServeHTTP` parses a path. The multi prefix is tested first.
  `SplitN` is applied with limit 3 or 2, and the key list is split at `,`.
- `Client`: `httpGetter` and the URL `makeRequest` builds. It also carries the
  round-trip lemmas. Take a peer with the same options that serves both
  prefixes with its pool. Its handler parses back the group, the key, the
  peer key and the key list that were sent, under these conditions:
  - the group and the peer key hold no `/`, because the server's path
    decoding turns `QueryEscape`'s `%2F` back into `/`;
  - for a single-key request, the two prefixes diverge (neither is a prefix
    of the other), because otherwise the multi prefix claims the path first;
  - for a multi-key request, no key in the list holds `,`;
  - no component holds a space.
- `Pool`: the `HTTPPool` class (`Set`, `GetAll`, `PickPeer`, `ServeHTTP`), the
  package's once-only flag (`Runtime.NewHTTPPoolOpts`), and the group
  registry as the handler sees it (`Groups`).

How Go behaviour is represented:

- A Go `panic` becomes a `null` pool, or the `Panic` response.
- `http.Error` becomes `HttpError(status, message)`.
- A successful write becomes `Ok` with the decoded message. Proto
  serialisation is not modelled.
- `Group.Get`, `Group.BatchGet` and the sinks' `view()` become the function
  parameters `get` and `batchGet`.
- `url.QueryEscape` and the server's path decoding become the parameters
  `esc` and `unesc`. The round trip is proved under the properties these
  library functions have:
  - `esc` never emits `/`;
  - `unesc` undoes `esc` on strings without a space.

  `Client.SpaceArrivesAsPlus` shows that the space condition cannot be
  dropped. `QueryEscape` writes a space as `+`, and path decoding keeps the
  `+`, so a key of one space arrives as `"+"`.

`ServerRequests` follows the code. The counter is bumped for every admitted
request, and this happens before the DELETE test, so DELETE requests are
counted too. A multi-key DELETE is counted and answered 200, and nothing is
removed.

## Model

| member | source | states |
|---|---|---|
| Text.HasPrefix | http.go:172-178 | a path has a prefix exactly when it is at least as long and agrees with the prefix character by character; the path is then the prefix followed by the rest |
| Text.SplitN | http.go:179 | at most `n` pieces that join back to the input; no separator in any piece but the last, and none in the last either when fewer than `n` pieces came out |
| Text.SplitNShort | http.go:179-183 | SplitN returns fewer than `n` pieces exactly when the input holds fewer than `n - 1` separators (when the handler answers 400) |
| Text.SplitNJoin | http.go:179 | splitting the join of separator-free pieces with the number of pieces as limit gives the pieces back |
| Text.Split | http.go:187 | one more piece than separators, the pieces join back to the input and none holds the separator |
| Text.SplitJoin | http.go:187 | splitting the join of separator-free pieces gives the pieces back |
| ConsistentHash.Get | http.go:161-165 | on a non-empty ring the owner of any key is one of the peers the ring was built from |
| ConsistentHash.New | http.go:120 | an empty ring with the given replica count and the given hash, or CRC-32 (IEEE) when none is given |
| ConsistentHash.IsEmpty | http.go:161 | the ring is empty exactly when it has no peers or a replica count of zero or less |
| ConsistentHash.Add | http.go:133 | the new peers follow those already on the ring; every existing virtual node stays and the new peers' nodes follow them; replicas and hash unchanged |
| ConsistentHash.PositionsAppend | http.go:132-133 | the virtual nodes of two peer lists in a row are those of the first followed by those of the second |
| ConsistentHash.Positions | http.go:161 | the ring is empty exactly when it has no peers or no replicas, and each virtual node stands for a peer |
| Config.WithDefaults | http.go:108-119 | a blank base path, blank multi path or zero replica count takes its default ("/_groupcache/", "/_groupcachemulti/", 50); every other field is kept |
| Config.DivergeExcludes | http.go:172-178 | when neither prefix extends the other, no path starts with both |
| Config.DefaultPathsDiverge | http.go:35-37 | the two default prefixes diverge, so a default single-key path is never read as a multi-key one |
| Wire.ExpireNanos | http.go:228-233 | the zero time is sent as 0, any other expiry as its Unix nanoseconds |
| Wire.ToResponse | http.go:228-233 | the response carries the view's bytes, and the receiving side reads its expiry back as the view's own (except the instant at the Unix epoch) |
| Wire.ExpireFromNanos | http.go:228-233 | the receiving side's assumed reading of a wire expiry, which http.go does not contain: 0 is no expiry, any other value the instant with those Unix nanoseconds |
| Routing.ParseMultiRest | http.go:179-187 | 400 exactly when fewer than two '/' follow the multi prefix; otherwise group and peer key hold no '/', the key list is non-empty, no key holds ',' and the pieces rebuild the input |
| Routing.ParseSingleRest | http.go:247-253 | 400 exactly when no '/' follows the base prefix; otherwise the group holds no '/' and group + "/" + key is the input |
| Routing.ParsePath | http.go:172-187 | panic exactly when the path has neither prefix; the multi prefix wins; each route rebuilds the path it came from; the 400 condition for each prefix |
| Routing.ParseSingle | http.go:247-253 | every path `basePath + group/key` with '/'-free group not under the multi prefix parses to that group and key |
| Routing.ParseMulti | http.go:178-187 | every path `multiPath + group/peerKey/list` with '/'-free group and peer key parses to them and the ','-pieces of the list |
| Client.GetterFor | http.go:136-140 | a peer's getter has URL templates peer + basePath and peer + multiPath |
| Client.GetterForInjective | http.go:135-141 | distinct peers get distinct getters |
| Client.RequestURL | http.go:322-339 | the URL is the single or multi template followed by the escaped group, [peer key,] key joined with '/' |
| Client.ComponentsSplit | http.go:322-339 | with an escaper that never emits '/', splitting the URL tail with the component count as limit gives back the escaped components |
| Client.DecodeJoined | http.go:322-339 | escaping, joining with '/' and path-decoding space-free components gives the components joined with '/' |
| Client.SingleRoundTrip | http.go:322-330 | a single-key request whose group holds no '/' and whose group and key hold no space is read back by a peer with the same options, whose two prefixes diverge, as exactly its group and key |
| Client.BatchRoundTrip | http.go:331-338 | a multi-key request whose group and peer key hold no '/', whose keys hold no ',' and whose components hold no space is read back as its group, peer key and exactly that key list |
| Client.SpaceArrivesAsPlus | http.go:328-329 | a key of one space arrives at the peer as "+" |
| Pool.Sinks | http.go:209-213 | one sink per requested key, in order; sink `i` holds the loader's view `i`, or an empty value with no expiry when the loader left it unset |
| Pool.Responses | http.go:220-235 | success exactly when every sink's view succeeded, one response per key in order; otherwise the error of the first failing sink |
| Pool.AssembleResponses | http.go:220-235 | the handler's loop over the sinks computes Responses |
| Pool.Bump | http.go:202-268 | the registered groups are unchanged; the request's group counter rises by exactly one when the request is admitted, DELETE included; no other counter moves |
| Pool.CallsMade | http.go:202-279 | no group call unless admitted; a single-key DELETE removes its key, a single-key read gets it, a multi-key read batch-gets, a multi-key DELETE calls nothing |
| Pool.Answer | http.go:170-303 | panic exactly on an unexpected path, 400 exactly on a bad request, 404 exactly on an unknown group; admitted DELETE answers an empty 200; an admitted single-key read answers 200 with the view when Get succeeds and 500 with its error when it fails; an admitted multi-key read answers 500 with BatchGet's error, 500 with the first failing sink's error, or 200 with one response per key in order |
| Pool.Groups.constructor | http.go:190-192 | a registry of the named groups with zero counters and no calls |
| Pool.HTTPPool.constructor | http.go:104-107 | a pool for `self` with blank options and an empty getter table, which satisfies the pool invariant |
| Pool.HTTPPool.Set | http.go:129-142 | the ring is rebuilt from scratch with the options and the peers; the getter table holds exactly the peers, each with its getter; the pool is valid |
| Pool.HTTPPool.GetAll | http.go:145-156 | one entry per table entry, exactly the table's getters, no getter twice |
| Pool.EnumeratedGetters | http.go:149-155 | listing the table by a duplicate-free enumeration of its keys yields exactly its getters, none twice when every getter is its peer's |
| Pool.HTTPPool.PickPeer | http.go:158-168 | no peer exactly when the ring is empty or owns the key itself; otherwise the owner's getter from the table, never this process's own |
| Pool.HTTPPool.ServeHTTP | http.go:170-303 | the response is Answer of the parsed route, the group calls are CallsMade, the counters are Bump |
| Pool.HTTPPool.ServeMulti | http.go:178-245 | the multi-key branch: Answer, CallsMade and Bump for a multi-key route |
| Pool.HTTPPool.ServeSingle | http.go:247-303 | the single-key branch: Answer, CallsMade and Bump for a single-key route |
| Pool.Runtime.constructor | http.go:93 | the process starts with no pool made |
| Pool.Runtime.NewHTTPPoolOpts | http.go:93-124 | the first call makes a fresh valid pool with defaulted options, an empty ring and no getters; every later call panics; the flag is set afterwards |

## Left out

- Network I/O of `httpGetter.Get`, `BatchGet` and `Remove` (the request, the status check, reading and unmarshalling the body) is not modelled. Only the URL they build is.
- Proto marshalling of `GetResponse` and `GetMultiResponse`, and the marshal-failure 500, are not modelled. Responses are kept as decoded values.
- The consistent-hash package is not part of this model. `ConsistentHash` is a stand-in that follows the package's documented lookup rule, and the pool relies only on `Get`'s membership contract.
- `ConsistentHash.ChecksumIEEE` takes each character's code modulo 256 as a byte. UTF-8 encoding of non-ASCII peers and keys is not modelled.
- Group internals (`GetGroup`, `Group.Get`, `Group.BatchGet`, `localRemove`, the sinks) enter as the oracles `get` and `batchGet` and the `Groups` registry. A removal is recorded as a call and not performed.
- The unset sink: the batch loader's sink file is not part of this model. A sink the loader left unset is assumed to view as an empty value with no expiry.
- The mutex, the request context and the `Context` and `Transport` options are not modelled. The model is sequential.
- `http.Handle` registration in `NewHTTPPool` and `RegisterPeerPicker` are left out: they touch process-wide registries outside this file.
- `httpGetter.GetURL` only returns the base URL and has no member.
- `Pool.Answer`: the message of every error answer (the 400 "bad request", the 404 "no such group: …" and the 500 with the loader's error) is kept without the trailing newline `http.Error` appends.
- `Wire.ExpireNanos`: expiry instants outside the int64 nanosecond range are not modelled.
- `Client.RequestURL`: `url.QueryEscape` and path decoding are parameters. Only the properties the round-trip lemmas name are assumed of them.
- `Pool.HTTPPool.PickPeer` requires the pool's invariant `Valid()`. Set and NewHTTPPoolOpts establish it, and nothing else changes the table.
- `Client.SingleRoundTrip`, `Client.BatchRoundTrip`: they assume the receiving pool is the server's handler for both prefixes, as `testhttp/main.go` and `example_batch_test.go` install it. `NewHTTPPool` registers the pool on the default mux under `BasePath` only (http.go:89), so there a multi-key request never reaches `ServeHTTP`. The mux's redirect of unclean paths (a path with an empty, `.` or `..` element, such as an empty group or a decoded key holding `//` or equal to `.`) is not modelled either.
- `Client.ReceivedPath`: a peer's URL is assumed to be a bare origin with no path of its own, so the received path is the option prefix followed by the decoded tail.
- The `Content-Type: application/x-protobuf` header set on successful reads (http.go:242, 301) is not modelled; `Ok` carries only the body.
- `testhttp/main.go` and `example_batch_test.go` are callers and examples, and are not modelled.
