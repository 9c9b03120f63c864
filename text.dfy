/**
 * The string operations of Go's `strings` and `strconv` packages that the
 * peer transport relies on, over `string` = `seq<char>`.
 */
module Text {

  /** strings.HasPrefix */
  predicate HasPrefix(s: string, prefix: string)
    ensures HasPrefix(s, prefix) <==> |prefix| <= |s| && forall i :: 0 <= i < |prefix| ==> s[i] == prefix[i]
    ensures HasPrefix(s, prefix) ==> s == prefix + s[|prefix|..]
  {
    |prefix| <= |s| && s[..|prefix|] == prefix
  }

  /** Position of the first `c` in `s`, or `|s|` when `s` holds no `c`. */
  function IndexOf(s: string, c: char): (i: nat)
    ensures i <= |s|
    ensures i < |s| ==> s[i] == c
    ensures forall j :: 0 <= j < i ==> s[j] != c
  {
    if s == [] then 0
    else if s[0] == c then 0
    else 1 + IndexOf(s[1..], c)
  }

  /** strings.Join with a one-character separator. */
  function Join(parts: seq<string>, sep: char): string {
    if |parts| == 0 then ""
    else if |parts| == 1 then parts[0]
    else parts[0] + [sep] + Join(parts[1..], sep)
  }

  /** strings.SplitN(s, sep, n) for n > 0: at most `n` pieces, the last one holding the unsplit rest. */
  function SplitN(s: string, sep: char, n: nat): (parts: seq<string>)
    requires n >= 1
    ensures 1 <= |parts| <= n
    ensures Join(parts, sep) == s
    ensures forall i :: 0 <= i < |parts| - 1 ==> sep !in parts[i]
    ensures |parts| < n ==> sep !in parts[|parts| - 1]
    decreases n
  {
    var i := IndexOf(s, sep);
    if i == |s| then
      assert sep !in s;
      [s]
    else if n == 1 then
      [s]
    else
      var rest := SplitN(s[i + 1..], sep, n - 1);
      assert sep !in s[..i];
      JoinCons(s[..i], rest, sep);
      assert s == s[..i] + [sep] + s[i + 1..];
      var parts := [s[..i]] + rest;
      assert parts[1..] == rest;
      assert parts[|parts| - 1] == rest[|rest| - 1];
      parts
  }

  /** strings.Split(s, sep): every piece between separators, at least one piece. */
  function Split(s: string, sep: char): (parts: seq<string>)
    ensures |parts| == multiset(s)[sep] + 1
    ensures Join(parts, sep) == s
    ensures forall i :: 0 <= i < |parts| ==> sep !in parts[i]
    decreases |s|
  {
    var i := IndexOf(s, sep);
    if i == |s| then
      CountAbsent(s, sep);
      [s]
    else
      var rest := Split(s[i + 1..], sep);
      CountAt(s, i, sep);
      JoinCons(s[..i], rest, sep);
      [s[..i]] + rest
  }

  /** A string without `sep` counts no `sep`. */
  lemma CountAbsent(s: string, sep: char)
    requires forall j :: 0 <= j < |s| ==> s[j] != sep
    ensures multiset(s)[sep] == 0
  {
  }

  /** Cutting `s` at its first separator `i` leaves one separator fewer in the rest. */
  lemma CountAt(s: string, i: nat, sep: char)
    requires i < |s| && s[i] == sep
    requires forall j :: 0 <= j < i ==> s[j] != sep
    ensures multiset(s)[sep] == multiset(s[i + 1..])[sep] + 1
    ensures s == s[..i] + [sep] + s[i + 1..]
    ensures sep !in s[..i]
  {
    assert s == s[..i] + [sep] + s[i + 1..];
    assert multiset(s) == multiset(s[..i]) + multiset([sep]) + multiset(s[i + 1..]);
    CountAbsent(s[..i], sep);
  }

  /** Joining `head` in front of a non-empty list puts one separator between them. */
  lemma JoinCons(head: string, tail: seq<string>, sep: char)
    requires |tail| >= 1
    ensures Join([head] + tail, sep) == head + [sep] + Join(tail, sep)
  {
  }

  /** If the first piece holds no separator, the first separator of a join is right after it. */
  lemma IndexOfJoin(head: string, rest: string, sep: char)
    requires sep !in head
    ensures IndexOf(head + [sep] + rest, sep) == |head|
  {
    var s := head + [sep] + rest;
    assert s[|head|] == sep;
    assert forall j :: 0 <= j < |head| ==> s[j] == head[j];
  }

  /** SplitN undoes Join when only the last of the `n` pieces may hold the separator. */
  lemma {:induction false} SplitNJoin(parts: seq<string>, sep: char)
    requires |parts| >= 1
    requires forall i :: 0 <= i < |parts| - 1 ==> sep !in parts[i]
    ensures SplitN(Join(parts, sep), sep, |parts|) == parts
    decreases |parts|
  {
    if |parts| > 1 {
      var head, tail := parts[0], parts[1..];
      var rest := Join(tail, sep);
      var s := head + [sep] + rest;
      JoinCons(head, tail, sep);
      assert parts == [head] + tail;
      IndexOfJoin(head, rest, sep);
      assert s[..|head|] == head && s[|head| + 1..] == rest;
      assert SplitN(s, sep, |parts|) == [head] + SplitN(rest, sep, |tail|);
      SplitNJoin(tail, sep);
    }
  }

  /** Split undoes Join when no piece holds the separator. */
  lemma {:induction false} SplitJoin(parts: seq<string>, sep: char)
    requires |parts| >= 1
    requires forall i :: 0 <= i < |parts| ==> sep !in parts[i]
    ensures Split(Join(parts, sep), sep) == parts
    decreases |parts|
  {
    if |parts| == 1 {
      assert sep !in parts[0];
    } else {
      var head, tail := parts[0], parts[1..];
      var rest := Join(tail, sep);
      var s := head + [sep] + rest;
      JoinCons(head, tail, sep);
      assert parts == [head] + tail;
      IndexOfJoin(head, rest, sep);
      assert s[..|head|] == head && s[|head| + 1..] == rest;
      assert Split(s, sep) == [head] + Split(rest, sep);
      SplitJoin(tail, sep);
    }
  }

  /** SplitN stops short of `n` pieces exactly when `s` holds fewer than `n - 1` separators. */
  lemma {:induction false} SplitNShort(s: string, sep: char, n: nat)
    requires n >= 1
    ensures |SplitN(s, sep, n)| < n <==> multiset(s)[sep] < n - 1
    decreases n
  {
    var i := IndexOf(s, sep);
    if i == |s| {
      CountAbsent(s, sep);
    } else if n > 1 {
      CountAt(s, i, sep);
      SplitNShort(s[i + 1..], sep, n - 1);
    }
  }

  /** strconv.Itoa for non-negative values: decimal digits, most significant first. */
  function Itoa(n: nat): (s: string)
    ensures |s| >= 1
    ensures forall i :: 0 <= i < |s| ==> '0' <= s[i] <= '9'
  {
    var digit := ['0' + (n % 10) as char];
    if n < 10 then digit else Itoa(n / 10) + digit
  }
}
