/**
 * How HTTPPool.ServeHTTP reads a request path (http.go): the multi-key
 * prefix is tried first, then the single-key prefix; anything else is a
 * path the pool should never have been handed.
 */
module Routing {
  import opened Text

  datatype Route =
    | MultiKey(group: string, peerKey: string, keys: seq<string>)
    | SingleKey(group: string, key: string)
    | BadRequest
    | UnexpectedPath

  lemma Join2(a: string, b: string, sep: char)
    ensures Join([a, b], sep) == a + [sep] + b
  {
  }

  lemma Join3(a: string, b: string, c: string, sep: char)
    ensures Join([a, b, c], sep) == a + [sep] + b + [sep] + c
  {
    Join2(b, c, sep);
    JoinCons(a, [b, c], sep);
    assert [a] + [b, c] == [a, b, c];
  }

  /** The part of a multi-key path after its prefix: `group/peerKey/keyList`. */
  function ParseMultiRest(rest: string): (r: Route)
    ensures r.MultiKey? || r.BadRequest?
    ensures r.BadRequest? <==> multiset(rest)['/'] < 2
    ensures r.MultiKey? ==>
      && '/' !in r.group && '/' !in r.peerKey
      && |r.keys| >= 1
      && (forall i :: 0 <= i < |r.keys| ==> ',' !in r.keys[i])
      && rest == r.group + "/" + r.peerKey + "/" + Join(r.keys, ',')
  {
    var parts := SplitN(rest, '/', 3);
    SplitNShort(rest, '/', 3);
    if |parts| != 3 then BadRequest
    else
      Join3(parts[0], parts[1], parts[2], '/');
      assert parts == [parts[0], parts[1], parts[2]];
      MultiKey(parts[0], parts[1], Split(parts[2], ','))
  }

  /** The part of a single-key path after its prefix: `group/key`. */
  function ParseSingleRest(rest: string): (r: Route)
    ensures r.SingleKey? || r.BadRequest?
    ensures r.BadRequest? <==> '/' !in rest
    ensures r.SingleKey? ==> '/' !in r.group && rest == r.group + "/" + r.key
  {
    var parts := SplitN(rest, '/', 2);
    SplitNShort(rest, '/', 2);
    if |parts| != 2 then BadRequest
    else
      Join2(parts[0], parts[1], '/');
      assert parts == [parts[0], parts[1]];
      SingleKey(parts[0], parts[1])
  }

  /**
   * A multi-key path is `multiPath + group/peerKey/k1,k2,...`; a single-key
   * path is `basePath + group/key`, where the key may itself hold '/' or be
   * empty. Too few '/' after the prefix is a bad request.
   */
  function ParsePath(basePath: string, multiPath: string, path: string): (r: Route)
    ensures r.UnexpectedPath? <==> !HasPrefix(path, multiPath) && !HasPrefix(path, basePath)
    ensures r.MultiKey? ==>
      && HasPrefix(path, multiPath)
      && '/' !in r.group && '/' !in r.peerKey
      && |r.keys| >= 1
      && (forall i :: 0 <= i < |r.keys| ==> ',' !in r.keys[i])
      && path == multiPath + (r.group + "/" + r.peerKey + "/" + Join(r.keys, ','))
    ensures r.SingleKey? ==>
      && !HasPrefix(path, multiPath) && HasPrefix(path, basePath)
      && '/' !in r.group
      && path == basePath + (r.group + "/" + r.key)
    ensures r.BadRequest? <==>
      if HasPrefix(path, multiPath) then multiset(path[|multiPath|..])['/'] < 2
      else HasPrefix(path, basePath) && '/' !in path[|basePath|..]
  {
    if HasPrefix(path, multiPath) then
      assert path == multiPath + path[|multiPath|..];
      ParseMultiRest(path[|multiPath|..])
    else if HasPrefix(path, basePath) then
      assert path == basePath + path[|basePath|..];
      ParseSingleRest(path[|basePath|..])
    else UnexpectedPath
  }

  /** Every single-key path that no multi-key prefix claims parses back to its group and key. */
  lemma {:induction false} ParseSingle(basePath: string, multiPath: string, group: string, key: string)
    requires '/' !in group
    requires !HasPrefix(basePath + (group + "/" + key), multiPath)
    ensures ParsePath(basePath, multiPath, basePath + (group + "/" + key)) == SingleKey(group, key)
  {
    var path := basePath + (group + "/" + key);
    assert path[..|basePath|] == basePath;
    assert path[|basePath|..] == group + "/" + key;
    Join2(group, key, '/');
    SplitNJoin([group, key], '/');
  }

  /** Every multi-key path parses back to its group, its peer key and the ','-pieces of its key list. */
  lemma {:induction false} ParseMulti(basePath: string, multiPath: string, group: string, peerKey: string, keyList: string)
    requires '/' !in group && '/' !in peerKey
    ensures ParsePath(basePath, multiPath, multiPath + (group + "/" + peerKey + "/" + keyList))
      == MultiKey(group, peerKey, Split(keyList, ','))
  {
    var path := multiPath + (group + "/" + peerKey + "/" + keyList);
    var rest := group + "/" + peerKey + "/" + keyList;
    assert path == multiPath + rest;
    assert path[..|multiPath|] == multiPath;
    assert path[|multiPath|..] == rest;
    Join3(group, peerKey, keyList, '/');
    SplitNJoin([group, peerKey, keyList], '/');
    assert SplitN(rest, '/', 3) == [group, peerKey, keyList];
  }
}
