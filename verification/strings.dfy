/** Text helpers with Rust's semantics: `str::split` on one character and
    its inverse, joining with a separator, and the UTF-8 bytes that
    `str::as_bytes` exposes. */
module Strings {

  /** `s.split(c)`: the pieces between occurrences of `c`; there is always
      at least one piece, and adjacent separators give empty pieces. */
  function Split(s: string, c: char): (r: seq<string>)
    ensures |r| >= 1
    ensures forall i, j :: 0 <= i < |r| && 0 <= j < |r[i]| ==> r[i][j] != c
  {
    if |s| == 0 then [""]
    else
      var rest := Split(s[1..], c);
      if s[0] == c then [""] + rest
      else [[s[0]] + rest[0]] + rest[1..]
  }

  /** The pieces joined back together with `sep` between them. */
  function JoinWith(xs: seq<string>, sep: string): string {
    if |xs| == 0 then ""
    else if |xs| == 1 then xs[0]
    else xs[0] + sep + JoinWith(xs[1..], sep)
  }

  /** Splitting loses nothing: joining the pieces with the separator gives
      the original text back. */
  lemma {:induction false} SplitJoin(s: string, c: char)
    ensures JoinWith(Split(s, c), [c]) == s
  {
    if |s| > 0 {
      var rest := Split(s[1..], c);
      SplitJoin(s[1..], c);
      if s[0] == c {
        assert Split(s, c) == [""] + rest;
        assert ([""] + rest)[1..] == rest;
        assert s == [c] + s[1..];
      } else {
        var r := Split(s, c);
        assert r == [[s[0]] + rest[0]] + rest[1..];
        if |rest| == 1 {
          assert s[1..] == rest[0];
        } else {
          assert r[1..] == rest[1..];
          assert JoinWith(rest, [c]) == rest[0] + [c] + JoinWith(rest[1..], [c]);
        }
      }
    }
  }

  /** Text without the separator is a single piece. */
  lemma {:induction false} SplitNoSeparator(s: string, c: char)
    requires forall j :: 0 <= j < |s| ==> s[j] != c
    ensures Split(s, c) == [s]
  {
    if |s| > 0 {
      SplitNoSeparator(s[1..], c);
      assert [s[0]] + s[1..] == s;
    }
  }

  /** The first piece is the text before the first separator, and the
      remaining pieces are the split of the text after it. */
  lemma {:induction false} SplitAtFirst(a: string, c: char, b: string)
    requires forall j :: 0 <= j < |a| ==> a[j] != c
    ensures Split(a + [c] + b, c) == [a] + Split(b, c)
  {
    if |a| == 0 {
      assert a + [c] + b == [c] + b;
      assert ([c] + b)[1..] == b;
    } else {
      assert (a + [c] + b)[0] == a[0];
      assert (a + [c] + b)[1..] == a[1..] + [c] + b;
      SplitAtFirst(a[1..], c, b);
      assert [a[0]] + a[1..] == a;
    }
  }

  /** Joining pieces that do not contain the separator and splitting
      again gives the pieces back. */
  lemma {:induction false} JoinSplit(xs: seq<string>, c: char)
    requires |xs| >= 1
    requires forall i, j :: 0 <= i < |xs| && 0 <= j < |xs[i]| ==> xs[i][j] != c
    ensures Split(JoinWith(xs, [c]), c) == xs
  {
    if |xs| == 1 {
      SplitNoSeparator(xs[0], c);
    } else {
      JoinSplit(xs[1..], c);
      assert JoinWith(xs, [c]) == xs[0] + [c] + JoinWith(xs[1..], [c]);
      SplitAtFirst(xs[0], c, JoinWith(xs[1..], [c]));
      assert [xs[0]] + xs[1..] == xs;
    }
  }

  /** One byte of UTF-8 text. */
  newtype Octet = b: int | 0 <= b < 0x100

  /** A continuation byte carrying the low six bits of `n`. */
  function Cont(n: nat): (r: Octet)
    ensures 0x80 <= r < 0xC0
  {
    (0x80 + n % 0x40) as Octet
  }

  /** The UTF-8 encoding of one character (a Unicode scalar value): one
      byte below 0x80, then two, three or four bytes, a lead byte followed
      by continuation bytes. */
  function Utf8Char(c: char): (r: seq<Octet>)
    ensures 1 <= |r| <= 4
    ensures |r| == 1 <==> c as int < 0x80
    ensures |r| == 1 ==> r[0] as int == c as int
    ensures forall i :: 1 <= i < |r| ==> 0x80 <= r[i] < 0xC0
  {
    var n := c as int;
    if n < 0x80 then [n as Octet]
    else if n < 0x800 then
      assert n / 0x40 < 0x20;
      [(0xC0 + n / 0x40) as Octet, Cont(n)]
    else if n < 0x1_0000 then
      assert n / 0x1000 < 0x10;
      [(0xE0 + n / 0x1000) as Octet, Cont(n / 0x40), Cont(n)]
    else
      assert n / 0x4_0000 < 0x8;
      [(0xF0 + n / 0x4_0000) as Octet, Cont(n / 0x1000), Cont(n / 0x40), Cont(n)]
  }

  /** `s.as_bytes()`: the characters' encodings one after the other. */
  function Utf8(s: string): (r: seq<Octet>)
    ensures |s| <= |r| <= 4 * |s|
  {
    if |s| == 0 then [] else Utf8Char(s[0]) + Utf8(s[1..])
  }

  /** Encoding distributes over concatenation. */
  lemma {:induction false} Utf8Append(a: string, b: string)
    ensures Utf8(a + b) == Utf8(a) + Utf8(b)
    decreases |a|
  {
    if |a| == 0 {
      assert a + b == b;
    } else {
      var t := a + b;
      assert t[0] == a[0] && t[1..] == a[1..] + b;
      Utf8Append(a[1..], b);
      assert Utf8(t) == Utf8Char(a[0]) + (Utf8(a[1..]) + Utf8(b));
      assert Utf8(a) == Utf8Char(a[0]) + Utf8(a[1..]);
    }
  }

  /** An ASCII text has one byte per character, each the character's
      code. */
  lemma {:induction false} Utf8Ascii(s: string)
    requires forall i :: 0 <= i < |s| ==> s[i] as int < 0x80
    ensures |Utf8(s)| == |s|
    ensures forall i :: 0 <= i < |s| ==> Utf8(s)[i] as int == s[i] as int
  {
    if |s| > 0 {
      Utf8Ascii(s[1..]);
      assert Utf8(s) == Utf8Char(s[0]) + Utf8(s[1..]);
      forall i | 0 <= i < |s|
        ensures Utf8(s)[i] as int == s[i] as int
      {
        if i > 0 {
          assert Utf8(s)[i] == Utf8(s[1..])[i - 1];
          assert s[1..][i - 1] == s[i];
        }
      }
    }
  }
}
