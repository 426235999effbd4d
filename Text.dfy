/** String and byte helpers: Python's `str.split` on a one-character separator,
    occurrence counting, `hexdigest()` encoding and the ASCII test that
    `hmac.compare_digest` applies to `str` arguments. */
module Text {
  import opened Wrappers

  newtype byte = x: int | 0 <= x < 256

  /** Number of occurrences of `c` in `s`. */
  function Count(s: string, c: char): nat
  {
    if s == [] then 0 else (if s[0] == c then 1 else 0) + Count(s[1..], c)
  }

  lemma {:induction false} CountAppend(a: string, b: string, c: char)
    ensures Count(a + b, c) == Count(a, c) + Count(b, c)
  {
    if a == [] {
      assert a + b == b;
    } else {
      assert (a + b)[1..] == a[1..] + b;
      CountAppend(a[1..], b, c);
    }
  }

  lemma {:induction false} CountAbsent(s: string, c: char)
    ensures Count(s, c) == 0 <==> c !in s
  {
    if s != [] {
      CountAbsent(s[1..], c);
      assert s == [s[0]] + s[1..];
    }
  }

  /** `s.split(c)` in Python: the maximal `c`-free pieces of `s`, in order;
      an empty string splits into one empty piece. */
  function Split(s: string, c: char): (parts: seq<string>)
    ensures |parts| >= 1
  {
    if s == [] then [[]]
    else
      var rest := Split(s[1..], c);
      if s[0] == c then [[]] + rest
      else [[s[0]] + rest[0]] + rest[1..]
  }

  /** `c.join(parts)` in Python. */
  function Join(parts: seq<string>, c: char): string
    requires |parts| >= 1
  {
    if |parts| == 1 then parts[0] else parts[0] + [c] + Join(parts[1..], c)
  }

  /** Splitting yields one more piece than there are separators. */
  lemma {:induction false} SplitLength(s: string, c: char)
    ensures |Split(s, c)| == Count(s, c) + 1
  {
    if s != [] {
      SplitLength(s[1..], c);
    }
  }

  /** No piece contains the separator. */
  lemma {:induction false} SplitPiecesFree(s: string, c: char)
    ensures forall i :: 0 <= i < |Split(s, c)| ==> c !in Split(s, c)[i]
  {
    if s != [] {
      SplitPiecesFree(s[1..], c);
      var rest := Split(s[1..], c);
      if s[0] != c {
        assert c !in rest[0];
        assert forall i :: 1 <= i < |Split(s, c)| ==> Split(s, c)[i] == rest[i];
      }
    }
  }

  /** Joining the pieces with the separator gives back the original string. */
  lemma {:induction false} SplitJoin(s: string, c: char)
    ensures Join(Split(s, c), c) == s
  {
    if s != [] {
      SplitJoin(s[1..], c);
      var rest := Split(s[1..], c);
      if s[0] == c {
        assert ([[]] + rest)[1..] == rest;
        assert s == [c] + s[1..];
      } else if |rest| == 1 {
        assert s == [s[0]] + s[1..];
      } else {
        var parts := Split(s, c);
        assert parts[1..] == rest[1..];
        assert Join(rest, c) == rest[0] + [c] + Join(rest[1..], c);
        assert s == [s[0]] + s[1..];
      }
    }
  }

  /** A string with exactly one separator splits into the text before it and
      the text after it. */
  lemma SplitOnce(s: string, c: char) returns (i: nat)
    requires Count(s, c) == 1
    ensures i < |s| && s[i] == c
    ensures Split(s, c) == [s[..i], s[i + 1..]]
    ensures c !in s[..i] && c !in s[i + 1..]
  {
    SplitLength(s, c);
    SplitPiecesFree(s, c);
    SplitJoin(s, c);
    var parts := Split(s, c);
    assert Join(parts[1..], c) == parts[1];
    assert s == parts[0] + [c] + parts[1];
    i := |parts[0]|;
    assert s[..i] == parts[0];
    assert s[i + 1..] == parts[1];
  }

  /** The digits of a lower-case hexadecimal rendering. */
  predicate IsHexDigit(ch: char)
  {
    '0' <= ch <= '9' || 'a' <= ch <= 'f'
  }

  function HexDigit(v: int): (ch: char)
    requires 0 <= v < 16
    ensures IsHexDigit(ch)
  {
    if v < 10 then (48 + v) as char else (87 + v) as char
  }

  function HexValue(ch: char): Option<int>
  {
    if '0' <= ch <= '9' then Some(ch as int - 48)
    else if 'a' <= ch <= 'f' then Some(ch as int - 87)
    else None
  }

  /** `hexdigest()`: two lower-case hexadecimal digits per byte, high nibble first. */
  function HexDigest(d: seq<byte>): (h: string)
    ensures |h| == 2 * |d|
    ensures forall i :: 0 <= i < |h| ==> IsHexDigit(h[i])
  {
    if d == [] then []
    else [HexDigit(d[0] as int / 16), HexDigit(d[0] as int % 16)] + HexDigest(d[1..])
  }

  /** Reads a lower-case hexadecimal string back into bytes. */
  function UnHex(h: string): Option<seq<byte>>
  {
    if h == [] then Some([])
    else if |h| == 1 then None
    else
      match (HexValue(h[0]), HexValue(h[1]), UnHex(h[2..]))
      case (Some(hi), Some(lo), Some(rest)) => Some([(hi * 16 + lo) as byte] + rest)
      case _ => None
  }

  /** Decoding a hex digest recovers the digest bytes. */
  lemma {:induction false} UnHexHexDigest(d: seq<byte>)
    ensures UnHex(HexDigest(d)) == Some(d)
  {
    if d != [] {
      var h := HexDigest(d);
      var b := d[0] as int;
      assert h[2..] == HexDigest(d[1..]);
      assert HexValue(h[0]) == Some(b / 16);
      assert HexValue(h[1]) == Some(b % 16);
      UnHexHexDigest(d[1..]);
      assert [d[0]] + d[1..] == d;
    }
  }

  /** Different digests render as different hex strings. */
  lemma HexDigestInjective(d1: seq<byte>, d2: seq<byte>)
    ensures HexDigest(d1) == HexDigest(d2) <==> d1 == d2
  {
    UnHexHexDigest(d1);
    UnHexHexDigest(d2);
  }

  /** A `str` holds only ASCII characters (code points below 128). */
  predicate IsAscii(s: string)
    ensures IsAscii(s) <==> forall ch | ch in s :: ch as int < 128
  {
    assert forall i :: 0 <= i < |s| ==> s[i] in s;
    forall i :: 0 <= i < |s| ==> s[i] as int < 128
  }

  /** A hex digest is ASCII and contains no `=`. */
  lemma HexDigestPlain(d: seq<byte>)
    ensures IsAscii(HexDigest(d))
    ensures Count(HexDigest(d), '=') == 0
  {
    CountAbsent(HexDigest(d), '=');
  }
}
