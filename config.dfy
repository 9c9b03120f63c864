/** HTTPPoolOptions and the defaults the pool fills in for blank options (http.go). */
module Config {
  import opened Outcomes
  import opened Text
  import ConsistentHash

  const DEFAULT_BASE_PATH: string := "/_groupcache/"
  const DEFAULT_MULTI_PATH: string := "/_groupcachemulti/"
  const DEFAULT_REPLICAS: int := 50

  /**
   * The options a pool is configured with. A blank path or a zero replica
   * count means "use the default"; `hashFn == None` means crc32. The client
   * transport and the server context hooks are not modelled.
   */
  datatype Options = Options(
    basePath: string,
    multiPath: string,
    replicas: int,
    hashFn: Option<ConsistentHash.Hash>)

  /** The options a nil `*HTTPPoolOptions` stands for: everything blank. */
  const ZERO_OPTIONS: Options := Options("", "", 0, None)

  /**
   * The defaulting done by NewHTTPPoolOpts: each blank field takes its
   * default, every other field is kept as given.
   */
  function WithDefaults(o: Options): (r: Options)
    ensures r.basePath != "" && r.multiPath != "" && r.replicas != 0
    ensures o.basePath != "" ==> r.basePath == o.basePath
    ensures o.basePath == "" ==> r.basePath == DEFAULT_BASE_PATH
    ensures o.multiPath != "" ==> r.multiPath == o.multiPath
    ensures o.multiPath == "" ==> r.multiPath == DEFAULT_MULTI_PATH
    ensures o.replicas != 0 ==> r.replicas == o.replicas
    ensures o.replicas == 0 ==> r.replicas == DEFAULT_REPLICAS
    ensures r.hashFn == o.hashFn
  {
    var o1 := if o.basePath == "" then o.(basePath := DEFAULT_BASE_PATH) else o;
    var o2 := if o1.multiPath == "" then o1.(multiPath := DEFAULT_MULTI_PATH) else o1;
    if o2.replicas == 0 then o2.(replicas := DEFAULT_REPLICAS) else o2
  }

  /**
   * Two path prefixes diverge when neither is a prefix of the other: then no
   * path can start with both.
   */
  predicate Diverge(a: string, b: string) {
    !HasPrefix(a, b) && !HasPrefix(b, a)
  }

  lemma DivergeExcludes(a: string, b: string, path: string)
    requires Diverge(a, b)
    requires HasPrefix(path, a)
    ensures !HasPrefix(path, b)
  {
  }

  /** The two default prefixes diverge, so a default single-key path is never taken for a multi-key one. */
  lemma DefaultPathsDiverge()
    ensures Diverge(DEFAULT_BASE_PATH, DEFAULT_MULTI_PATH)
  {
    assert DEFAULT_MULTI_PATH[12] != DEFAULT_BASE_PATH[12];
  }
}
