/** The string operations the pipeline is assembled from: Python's prefix
    slice `s[:n]`, `sep.join(parts)`, and, as the inverse of a join on a
    one-character separator, `s.split(c)`. Strings are sequences of
    characters; a Python `str` index counts code points, as `char` does. */
module Text {

  /** Python's `s[:n]` for a non-negative `n`: the longest prefix of `s`
      that is at most `n` characters long. It never fails and may cut a
      word in the middle. */
  function Truncate(s: string, n: nat): (r: string)
    ensures r <= s
    ensures |r| == if |s| <= n then |s| else n
  {
    if |s| <= n then s else s[..n]
  }

  /** Concatenation is associative; stated on bare strings so that a caller
      need not unfold the long literals its own strings are built from. */
  lemma AppendAssoc(a: string, b: string, c: string)
    ensures (a + b) + c == a + (b + c)
  {
  }

  /** The first three of four strings, concatenated, are a prefix of all
      four concatenated from the right; stated on bare strings for the same reason. */
  lemma PrefixOfNested(a: string, b: string, c: string, d: string)
    ensures a + b + c <= a + (b + (c + d))
  {
    assert a + (b + (c + d)) == (a + b + c) + d;
  }

  /** Truncating a string that starts with `a`, where `a` fits the limit,
      keeps `a` whole and spends the remaining budget on the rest. */
  lemma TruncateAfterPrefix(a: string, b: string, n: nat)
    requires |a| <= n
    ensures Truncate(a + b, n) == a + Truncate(b, n - |a|)
  {
  }

  /** Every prefix of the input that fits the limit survives truncation. */
  lemma TruncateKeepsShortPrefix(q: string, s: string, n: nat)
    requires q <= s && |q| <= n
    ensures q <= Truncate(s, n)
  {
  }

  /** Python's `sep.join(parts)`. */
  function Join(sep: string, parts: seq<string>): string
    decreases |parts|
  {
    if |parts| == 0 then ""
    else if |parts| == 1 then parts[0]
    else parts[0] + sep + Join(sep, parts[1..])
  }

  /** Joining one more part appends the separator and that part. */
  lemma {:induction false} JoinSnoc(sep: string, parts: seq<string>, x: string)
    ensures Join(sep, parts + [x]) == if parts == [] then x else Join(sep, parts) + sep + x
    decreases |parts|
  {
    if |parts| > 1 {
      assert (parts + [x])[1..] == parts[1..] + [x];
      JoinSnoc(sep, parts[1..], x);
    } else if |parts| == 1 {
      assert parts + [x] == [parts[0], x];
    }
  }

  /** The length of a join: every part plus one separator between each
      two neighbours. */
  lemma {:induction false} JoinLength(sep: string, parts: seq<string>)
    ensures |Join(sep, parts)| == TotalLength(parts) + (if parts == [] then 0 else (|parts| - 1) * |sep|)
    decreases |parts|
  {
    if |parts| > 1 {
      JoinLength(sep, parts[1..]);
    }
  }

  /** The sum of the lengths of the strings in `parts`. */
  function TotalLength(parts: seq<string>): nat
    decreases |parts|
  {
    if parts == [] then 0 else |parts[0]| + TotalLength(parts[1..])
  }

  /** Python's `s.split(c)` for a one-character separator: the pieces
      between the occurrences of `c`, so there is always at least one
      piece, and there are as many pieces as separators plus one. */
  function Split(s: string, c: char): (r: seq<string>)
    ensures |r| == Count(s, c) + 1
    ensures forall i :: 0 <= i < |r| ==> c !in r[i]
    decreases |s|
  {
    if s == [] then [""]
    else
      var rest := Split(s[1..], c);
      if s[0] == c then [""] + rest
      else [[s[0]] + rest[0]] + rest[1..]
  }

  /** The number of occurrences of `c` in `s`. */
  function Count(s: string, c: char): nat
    decreases |s|
  {
    if s == [] then 0 else (if s[0] == c then 1 else 0) + Count(s[1..], c)
  }

  /** A string without the separator is a single piece. */
  lemma {:induction false} SplitWithoutSeparator(a: string, c: char)
    requires c !in a
    ensures Split(a, c) == [a]
    decreases |a|
  {
    if a != [] {
      assert c !in a[1..];
      SplitWithoutSeparator(a[1..], c);
      assert [a[0]] + a[1..] == a;
    }
  }

  /** Splitting at the first separator: the piece before it, then the pieces
      of what follows. */
  lemma {:induction false} SplitAtFirst(a: string, b: string, c: char)
    requires c !in a
    ensures Split(a + [c] + b, c) == [a] + Split(b, c)
    decreases |a|
  {
    if a == [] {
      assert a + [c] + b == [c] + b;
      assert ([c] + b)[1..] == b;
    } else {
      assert (a + [c] + b)[1..] == a[1..] + [c] + b;
      assert c !in a[1..];
      SplitAtFirst(a[1..], b, c);
      assert [a[0]] + a[1..] == a;
    }
  }

  /** `split` undoes `join` on a one-character separator, provided there is
      at least one part and no part contains the separator. */
  lemma {:induction false} SplitJoin(parts: seq<string>, c: char)
    requires parts != []
    requires forall i :: 0 <= i < |parts| ==> c !in parts[i]
    ensures Split(Join([c], parts), c) == parts
    decreases |parts|
  {
    if |parts| == 1 {
      SplitWithoutSeparator(parts[0], c);
    } else {
      SplitJoin(parts[1..], c);
      SplitAtFirst(parts[0], Join([c], parts[1..]), c);
      assert [parts[0]] + parts[1..] == parts;
    }
  }
}
