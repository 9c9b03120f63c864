/**
 * The values the peer protocol carries: byte views with an expiry, and the
 * `GetResponse` message (value plus expiry in Unix nanoseconds, 0 for none).
 */
module Wire {

  type Byte = bv8

  newtype Int64 = x: int | -0x8000_0000_0000_0000 <= x < 0x8000_0000_0000_0000

  /**
   * A time.Time as the protocol sees it: the zero time (no expiry) or an
   * instant given by its Unix nanoseconds. Instants outside the int64
   * nanosecond range are not modelled.
   */
  datatype Time = ZeroTime | Instant(unixNano: Int64)

  /** A ByteView read back from a sink: the value and its expiry. */
  datatype ByteView = ByteView(value: seq<Byte>, expire: Time)

  /** groupcachepb.GetResponse. */
  datatype GetResponse = GetResponse(value: seq<Byte>, expire: Int64)

  /** The expiry sent on the wire: 0 for the zero time, the Unix nanoseconds otherwise. */
  function ExpireNanos(t: Time): (n: Int64)
    ensures t.ZeroTime? ==> n == 0
    ensures t.Instant? ==> n == t.unixNano
  {
    match t
    case ZeroTime => 0
    case Instant(ns) => ns
  }

  /** The reading the receiving side gives a wire expiry: 0 is "no expiry". */
  function ExpireFromNanos(n: Int64): (t: Time)
    ensures t.ZeroTime? <==> n == 0
    ensures t.Instant? ==> t.unixNano == n
  {
    if n == 0 then ZeroTime else Instant(n)
  }

  /** The message a view is sent as. */
  function ToResponse(v: ByteView): (r: GetResponse)
    ensures r.value == v.value
    ensures r.expire == ExpireNanos(v.expire)
    ensures v.expire != Instant(0) ==> ExpireFromNanos(r.expire) == v.expire
  {
    ExpireRoundTrip(v.expire);
    GetResponse(v.value, ExpireNanos(v.expire))
  }

  /** Every expiry except the instant at the Unix epoch survives the wire unchanged. */
  lemma ExpireRoundTrip(t: Time)
    ensures t != Instant(0) ==> ExpireFromNanos(ExpireNanos(t)) == t
  {
  }

  /** The instant at the Unix epoch is sent exactly like "no expiry". */
  lemma EpochLooksLikeNoExpiry()
    ensures ExpireNanos(Instant(0)) == ExpireNanos(ZeroTime)
    ensures ExpireFromNanos(ExpireNanos(Instant(0))) == ZeroTime
  {
  }
}
