/**
 * The consistent-hash ring the pool routes keys with. Its package is not
 * part of this model; the definition below follows the documented lookup
 * rule (each peer gets `replicas` virtual positions hashed from
 * `Itoa(i) + peer`; a key belongs to the peer at the smallest position at or
 * after the key's hash, wrapping to the smallest position) and the pool
 * relies only on `Get`'s contract: on a non-empty ring it returns one of the
 * peers the ring was built from.
 */
module ConsistentHash {
  import opened Outcomes
  import Text

  /** consistenthash.Hash: maps the bytes of a string to a 32-bit value. */
  type Hash = string -> bv32

  /** One virtual node: its hash (as the ring stores it, an int) and the peer it stands for. */
  datatype Position = Position(hash: nat, peer: string)

  /** A ring: its replica count, its hash function and the peers added, in order. */
  datatype Ring = Ring(replicas: int, hash: Hash, peers: seq<string>)

  const IEEE_POLY: bv32 := 0xEDB8_8320

  /** Eight reflected CRC-32 shift steps over `crc`. */
  function CrcShift(crc: bv32, steps: nat): bv32
    decreases steps
  {
    if steps == 0 then crc
    else CrcShift(if crc & 1 == 1 then (crc >> 1) ^ IEEE_POLY else crc >> 1, steps - 1)
  }

  function CrcUpdate(crc: bv32, s: string): bv32
    decreases |s|
  {
    if s == [] then crc
    else CrcUpdate(CrcShift(crc ^ ((s[0] as int % 256) as bv32), 8), s[1..])
  }

  /** crc32.ChecksumIEEE, the hash used when the options name none. */
  function ChecksumIEEE(s: string): bv32 {
    !CrcUpdate(0xFFFF_FFFF, s)
  }

  function HashOrDefault(fn: Option<Hash>): Hash {
    if fn.Some? then fn.value else ChecksumIEEE
  }

  /** consistenthash.New: an empty ring. */
  function New(replicas: int, fn: Option<Hash>): (r: Ring)
    ensures r.peers == [] && r.replicas == replicas && IsEmpty(r)
    ensures fn.Some? ==> r.hash == fn.value
    ensures fn.None? ==> r.hash == ChecksumIEEE
  {
    Ring(replicas, HashOrDefault(fn), [])
  }

  /**
   * Ring.Add: the peers join the ring after those already present; every
   * existing virtual node stays and each new peer brings its own.
   */
  function Add(r: Ring, peers: seq<string>): (r': Ring)
    ensures r'.peers == r.peers + peers
    ensures r'.replicas == r.replicas && r'.hash == r.hash
    ensures Positions(r'.hash, r'.replicas, r'.peers)
      == Positions(r.hash, r.replicas, r.peers) + Positions(r.hash, r.replicas, peers)
  {
    PositionsAppend(r.hash, r.replicas, r.peers, peers);
    r.(peers := r.peers + peers)
  }

  /** The virtual positions of the ring, peer by peer in insertion order. */
  function Positions(hash: Hash, replicas: int, peers: seq<string>): (ps: seq<Position>)
    ensures forall i :: 0 <= i < |ps| ==> ps[i].peer in peers
    ensures |ps| == 0 <==> peers == [] || replicas <= 0
  {
    if peers == [] || replicas <= 0 then []
    else
      var last := peers[|peers| - 1];
      Positions(hash, replicas, peers[..|peers| - 1])
        + seq(replicas, (i: int) requires 0 <= i => Position(hash(Text.Itoa(i) + last) as nat, last))
  }

  /** The virtual nodes of two peer lists in a row are those of the first followed by those of the second. */
  lemma {:induction false} PositionsAppend(hash: Hash, replicas: int, a: seq<string>, b: seq<string>)
    ensures Positions(hash, replicas, a + b) == Positions(hash, replicas, a) + Positions(hash, replicas, b)
    decreases |b|
  {
    if b == [] {
      assert a + b == a;
    } else if replicas > 0 {
      var init := b[..|b| - 1];
      assert (a + b)[..|a + b| - 1] == a + init;
      assert (a + b)[|a + b| - 1] == b[|b| - 1];
      PositionsAppend(hash, replicas, a, init);
    }
  }

  /** Ring.IsEmpty: no virtual position at all. */
  predicate IsEmpty(r: Ring)
    ensures IsEmpty(r) <==> r.peers == [] || r.replicas <= 0
  {
    |Positions(r.hash, r.replicas, r.peers)| == 0
  }

  /**
   * The position with the smallest hash at or after `h`, the latest added one
   * among equal hashes (the later one overwrites the earlier in the ring's table).
   */
  function Successor(ps: seq<Position>, h: nat): (r: Option<Position>)
    ensures r.Some? ==> r.value in ps && r.value.hash >= h
    ensures r.Some? ==> forall i :: 0 <= i < |ps| && ps[i].hash >= h ==> r.value.hash <= ps[i].hash
    ensures r.None? ==> forall i :: 0 <= i < |ps| ==> ps[i].hash < h
  {
    if ps == [] then None
    else
      var init := ps[..|ps| - 1];
      var best := Successor(init, h);
      var last := ps[|ps| - 1];
      assert forall i :: 0 <= i < |init| ==> ps[i] == init[i];
      assert best.Some? ==> best.value in ps;
      if last.hash < h then best
      else if best.None? || last.hash <= best.value.hash then Some(last)
      else best
  }

  /** The position with the smallest hash, the latest added one among equal hashes. */
  function First(ps: seq<Position>): (r: Position)
    requires ps != []
    ensures r in ps
    ensures forall i :: 0 <= i < |ps| ==> r.hash <= ps[i].hash
  {
    if |ps| == 1 then ps[0]
    else
      var init := ps[..|ps| - 1];
      var best := First(init);
      var last := ps[|ps| - 1];
      assert forall i :: 0 <= i < |init| ==> ps[i] == init[i];
      assert best in ps;
      if last.hash <= best.hash then last else best
  }

  /** Ring.Get: the peer owning `key`, or "" on an empty ring. */
  function Get(r: Ring, key: string): (owner: string)
    ensures !IsEmpty(r) ==> owner in r.peers
    ensures IsEmpty(r) ==> owner == ""
  {
    var ps := Positions(r.hash, r.replicas, r.peers);
    if ps == [] then ""
    else
      match Successor(ps, r.hash(key) as nat)
      case Some(p) => p.peer
      case None => First(ps).peer
  }
}
