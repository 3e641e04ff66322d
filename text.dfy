/**
 * ASCII models of the Foundation string operations the app relies on:
 * `lowercased`/`uppercased`, `trimmingCharacters(in: .whitespacesAndNewlines)`,
 * `split(separator:)` (which drops empty pieces), `hasPrefix`/`hasSuffix`/`contains`,
 * decimal interpolation of an `Int` and `Int(String)`.
 */
module Text {
  import opened Wrappers

  // ---------------------------------------------------------------- characters

  predicate IsWhitespace(c: char)
  {
    c == ' ' || c == '\t' || c == '\n' || c == '\r' || c == '\U{000B}' || c == '\U{000C}'
  }

  predicate IsDigit(c: char)
  {
    '0' <= c <= '9'
  }

  function LowerChar(c: char): char
  {
    if 'A' <= c <= 'Z' then (c as int + 32) as char else c
  }

  function UpperChar(c: char): char
  {
    if 'a' <= c <= 'z' then (c as int - 32) as char else c
  }

  function Lower(s: string): string
  {
    seq(|s|, i requires 0 <= i < |s| => LowerChar(s[i]))
  }

  function Upper(s: string): string
  {
    seq(|s|, i requires 0 <= i < |s| => UpperChar(s[i]))
  }

  /** `a.caseInsensitiveCompare(b) == .orderedSame`, for ASCII. */
  predicate SameIgnoringCase(a: string, b: string)
  {
    Lower(a) == Lower(b)
  }

  // ---------------------------------------------------------------- substrings

  predicate HasPrefix(s: string, p: string)
  {
    |p| <= |s| && s[..|p|] == p
  }

  predicate HasSuffix(s: string, p: string)
  {
    |p| <= |s| && s[|s| - |p|..] == p
  }

  predicate OccursAt(s: string, sub: string, i: int)
  {
    0 <= i && i + |sub| <= |s| && s[i..i + |sub|] == sub
  }

  predicate Contains(s: string, sub: string)
  {
    exists i :: 0 <= i <= |s| - |sub| && OccursAt(s, sub, i)
  }

  /** A string that does not occur does not occur with anything appended either. */
  lemma ContainsLonger(s: string, a: string, b: string)
    requires !Contains(s, a)
    ensures !Contains(s, a + b)
  {
    forall i | 0 <= i <= |s| - |a + b| ensures !OccursAt(s, a + b, i) {
      assert (a + b)[..|a|] == a;
      assert s[i..i + |a|] == s[i..i + |a + b|][..|a|];
      assert !OccursAt(s, a, i);
    }
  }

  // ---------------------------------------------------------------- trimming

  function TrimStart(s: string): (r: string)
    ensures |r| <= |s| && r == s[|s| - |r|..]
    ensures forall i :: 0 <= i < |s| - |r| ==> IsWhitespace(s[i])
    ensures r == [] || !IsWhitespace(r[0])
  {
    if s != [] && IsWhitespace(s[0]) then TrimStart(s[1..]) else s
  }

  function TrimEnd(s: string): (r: string)
    ensures |r| <= |s| && r == s[..|r|]
    ensures forall i :: |r| <= i < |s| ==> IsWhitespace(s[i])
    ensures r == [] || !IsWhitespace(r[|r| - 1])
  {
    if s != [] && IsWhitespace(s[|s| - 1]) then TrimEnd(s[..|s| - 1]) else s
  }

  /** Leading and trailing whitespace removed; a string without any is its own trim. */
  function Trim(s: string): (r: string)
    ensures |r| <= |s|
    ensures r == [] || (!IsWhitespace(r[0]) && !IsWhitespace(r[|r| - 1]))
    ensures (s == [] || (!IsWhitespace(s[0]) && !IsWhitespace(s[|s| - 1]))) ==> r == s
    ensures exists i :: CutAt(s, r, i)
  {
    var t := TrimStart(s);
    TrimmedCut(s, t, TrimEnd(t));
    TrimEnd(t)
  }

  /** A suffix of `s` after whitespace, cut before trailing whitespace, sits in `s` between whitespace. */
  lemma TrimmedCut(s: string, t: string, r: string)
    requires |t| <= |s| && t == s[|s| - |t|..] && forall k :: 0 <= k < |s| - |t| ==> IsWhitespace(s[k])
    requires |r| <= |t| && r == t[..|r|] && forall k :: |r| <= k < |t| ==> IsWhitespace(t[k])
    ensures CutAt(s, r, |s| - |t|)
  {
    var i := |s| - |t|;
    assert s[i..i + |r|] == r;
    forall k | i + |r| <= k < |s|
      ensures IsWhitespace(s[k])
    {
      assert s[k] == t[k - i];
    }
  }

  /** `r` sits at index `i` of `s` with nothing but whitespace before and after it. */
  predicate CutAt(s: string, r: string, i: int)
  {
    0 <= i <= |s| - |r| && r == s[i..i + |r|] &&
    (forall k :: 0 <= k < i ==> IsWhitespace(s[k])) &&
    (forall k :: i + |r| <= k < |s| ==> IsWhitespace(s[k]))
  }

  // ---------------------------------------------------------------- splitting

  /** Length of the leading run of `s` that does not contain `sep`. */
  function ChunkLength(s: string, sep: char): (n: nat)
    ensures n <= |s|
    ensures forall i :: 0 <= i < n ==> s[i] != sep
    ensures n < |s| ==> s[n] == sep
  {
    if s == [] || s[0] == sep then 0 else 1 + ChunkLength(s[1..], sep)
  }

  /** Swift's `split(separator:)` with its default `omittingEmptySubsequences: true`. */
  function Split(s: string, sep: char): (r: seq<string>)
    ensures forall i :: 0 <= i < |r| ==> r[i] != [] && sep !in r[i]
    decreases |s|
  {
    if s == [] then []
    else if s[0] == sep then Split(s[1..], sep)
    else
      var n := ChunkLength(s, sep);
      [s[..n]] + Split(s[n..], sep)
  }

  lemma {:induction false} ChunkLengthConcat(a: string, sep: char, b: string)
    ensures ChunkLength(a + [sep] + b, sep) == ChunkLength(a, sep)
    decreases |a|
  {
    if a == [] {
    } else if a[0] != sep {
      assert (a + [sep] + b)[1..] == a[1..] + [sep] + b;
      ChunkLengthConcat(a[1..], sep, b);
    }
  }

  /** A separator splits the pieces on its two sides apart and is itself dropped. */
  lemma {:induction false} SplitConcat(a: string, sep: char, b: string)
    ensures Split(a + [sep] + b, sep) == Split(a, sep) + Split(b, sep)
    decreases |a|
  {
    var s := a + [sep] + b;
    if a == [] {
      assert s[1..] == b;
    } else if a[0] == sep {
      assert s[1..] == a[1..] + [sep] + b;
      SplitConcat(a[1..], sep, b);
    } else {
      var n := ChunkLength(a, sep);
      ChunkLengthConcat(a, sep, b);
      assert s[..n] == a[..n];
      assert s[n..] == a[n..] + [sep] + b;
      SplitConcat(a[n..], sep, b);
    }
  }

  /** A non-empty piece without the separator splits to itself. */
  lemma SplitSingle(a: string, sep: char)
    requires a != [] && sep !in a
    ensures Split(a, sep) == [a]
  {
    var n := ChunkLength(a, sep);
    assert n == |a|;
    assert a[..n] == a && a[n..] == [];
    assert Split(a[n..], sep) == [];
  }

  /** The pieces joined with a separator between each two. */
  function JoinWith(parts: seq<string>, sep: char): string
  {
    if parts == [] then []
    else if |parts| == 1 then parts[0]
    else parts[0] + [sep] + JoinWith(parts[1..], sep)
  }

  /** Joining a first piece in front of further pieces puts one separator between them. */
  lemma JoinWithCons(p: string, rest: seq<string>, sep: char)
    requires rest != []
    ensures JoinWith([p] + rest, sep) == p + [sep] + JoinWith(rest, sep)
  {
    assert ([p] + rest)[1..] == rest;
  }

  /** Joining two non-empty runs of pieces is joining each and putting one separator between them. */
  lemma {:induction false} JoinWithAppend(a: seq<string>, b: seq<string>, sep: char)
    requires a != [] && b != []
    ensures JoinWith(a + b, sep) == JoinWith(a, sep) + [sep] + JoinWith(b, sep)
    decreases |a|
  {
    if |a| == 1 {
      JoinWithCons(a[0], b, sep);
      assert a + b == [a[0]] + b;
    } else {
      JoinWithAppend(a[1..], b, sep);
      assert (a + b)[1..] == a[1..] + b;
    }
  }

  /** Joining non-empty pieces free of the separator and splitting again gives the pieces back. */
  lemma {:induction false} SplitJoinWith(parts: seq<string>, sep: char)
    requires forall i :: 0 <= i < |parts| ==> parts[i] != [] && sep !in parts[i]
    ensures Split(JoinWith(parts, sep), sep) == parts
    decreases |parts|
  {
    if |parts| == 1 {
      SplitSingle(parts[0], sep);
    } else if |parts| > 1 {
      SplitJoinWith(parts[1..], sep);
      SplitConcat(parts[0], sep, JoinWith(parts[1..], sep));
      SplitSingle(parts[0], sep);
    }
  }

  /** `sep w sep tail` occurs only where `w` is a whole piece of the split. */
  lemma NotAPiece(s: string, sep: char, w: string, tail: string)
    requires w != [] && sep !in w && w !in Split(s, sep)
    ensures !Contains(s, [sep] + w + [sep] + tail)
  {
    var sub := [sep] + w + [sep] + tail;
    forall i | 0 <= i <= |s| - |sub| ensures !OccursAt(s, sub, i) {
      assert OccursAt(s, sub, i) ==>
        s[i] == sep && s[i + 1..i + 1 + |w|] == w && s[i + 1 + |w|] == sep by {
        if OccursAt(s, sub, i) {
          assert forall j :: 0 <= j < |sub| ==> s[i + j] == s[i..i + |sub|][j] == sub[j];
          assert forall j :: 0 <= j < |w| ==> sub[1 + j] == w[j];
          assert sub[1 + |w|] == sep;
        }
      }
      if i + 1 + |w| < |s| && s[i] == sep && s[i + 1..i + 1 + |w|] == w {
        WordAfterSeparator(s, sep, i, w);
      }
    }
  }

  /** A leading separator-free word lies inside the first piece, which ends where the word ends if a separator follows. */
  lemma {:induction false} ChunkCoversWord(q: string, sep: char, w: string)
    requires sep !in w && |w| <= |q| && q[..|w|] == w
    ensures ChunkLength(q, sep) >= |w|
    ensures |w| == |q| || q[|w|] == sep ==> ChunkLength(q, sep) == |w|
    decreases |w|
  {
    if w != [] {
      assert q[0] == w[0];
      assert q[1..][..|w| - 1] == w[1..];
      ChunkCoversWord(q[1..], sep, w[1..]);
    }
  }

  /**
   * A separator followed by a separator-free word `w` starts a piece of the split
   * that begins with `w`; when another separator or the end follows `w`, the piece is `w`.
   */
  lemma WordAfterSeparator(s: string, sep: char, i: int, w: string)
    requires w != [] && sep !in w
    requires 0 <= i && i + 1 + |w| <= |s| && s[i] == sep && s[i + 1..i + 1 + |w|] == w
    ensures exists piece :: piece in Split(s, sep) && HasPrefix(piece, w) &&
              (i + 1 + |w| == |s| || s[i + 1 + |w|] == sep ==> piece == w)
  {
    var q := s[i + 1..];
    assert s == s[..i] + [sep] + q;
    SplitConcat(s[..i], sep, q);
    assert q[0] == w[0];
    var n := ChunkLength(q, sep);
    ChunkCoversWord(q, sep, w);
    assert Split(q, sep) == [q[..n]] + Split(q[n..], sep);
    var piece := q[..n];
    assert piece in Split(s, sep);
    assert piece[..|w|] == w;
  }

  // ---------------------------------------------------------------- decimal numbers

  const MinInt64: int := -0x8000_0000_0000_0000
  const MaxInt64: int := 0x7FFF_FFFF_FFFF_FFFF

  function DigitChar(d: nat): (c: char)
    requires d < 10
    ensures IsDigit(c) && c as int - '0' as int == d
  {
    ('0' as int + d) as char
  }

  predicate AllDigits(s: string)
  {
    forall i :: 0 <= i < |s| ==> IsDigit(s[i])
  }

  /** Decimal digits of a natural number, most significant first, no leading zeros. */
  function NatToString(n: nat): (s: string)
    ensures s != [] && AllDigits(s) && IsDigit(s[|s| - 1])
    decreases n
  {
    if n < 10 then [DigitChar(n)] else NatToString(n / 10) + [DigitChar(n % 10)]
  }

  /** Swift's `"\(n)"` for an `Int`. */
  function IntToString(n: int): (s: string)
    ensures s != [] && IsDigit(s[|s| - 1])
    ensures forall i :: 0 <= i < |s| ==> IsDigit(s[i]) || s[i] == '-'
  {
    if n < 0 then "-" + NatToString(-n) else NatToString(n)
  }

  function DigitsValue(s: string): nat
    requires AllDigits(s)
  {
    if s == [] then 0 else DigitsValue(s[..|s| - 1]) * 10 + (s[|s| - 1] as int - '0' as int)
  }

  /** An optional sign followed by at least one decimal digit, without a range check. */
  function ParseInteger(s: string): Option<int>
  {
    var signed := |s| > 0 && (s[0] == '-' || s[0] == '+');
    var digits := if signed then s[1..] else s;
    if digits == [] || !AllDigits(digits) then None
    else if signed && s[0] == '-' then Some(0 - DigitsValue(digits) as int)
    else Some(DigitsValue(digits) as int)
  }

  /** Swift's `Int(String)`: `nil` for anything but a sign and digits, or outside 64 bits. */
  function ParseInt(s: string): (r: Option<int>)
    ensures r.Some? ==> MinInt64 <= r.value <= MaxInt64
  {
    match ParseInteger(s)
    case Some(v) => if MinInt64 <= v <= MaxInt64 then Some(v) else None
    case None => None
  }

  lemma {:induction false} DigitsRoundTrip(n: nat)
    ensures DigitsValue(NatToString(n)) == n
    decreases n
  {
    if n >= 10 {
      var s := NatToString(n);
      assert s[..|s| - 1] == NatToString(n / 10);
      DigitsRoundTrip(n / 10);
    }
  }

  /** Reading back the decimal text of any integer gives that integer. */
  lemma IntToStringRoundTrip(n: int)
    ensures ParseInteger(IntToString(n)) == Some(n)
  {
    if n < 0 {
      NegativeRoundTrip(n);
    } else {
      NaturalRoundTrip(n);
    }
  }

  lemma NegativeRoundTrip(n: int)
    requires n < 0
    ensures ParseInteger(IntToString(n)) == Some(n)
  {
    var s := IntToString(n);
    var digits := NatToString(-n);
    assert s[0] == '-' && s[1..] == digits && AllDigits(digits);
    DigitsRoundTrip(-n);
    assert ParseInteger(s) == Some(0 - DigitsValue(digits) as int);
  }

  lemma NaturalRoundTrip(n: nat)
    ensures ParseInteger(IntToString(n)) == Some(n)
  {
    var s := NatToString(n);
    assert s[0] != '-' && s[0] != '+';
    DigitsRoundTrip(n);
    assert ParseInteger(s) == Some(DigitsValue(s) as int);
  }

  /** `Int(String)` inverts interpolation on every 64-bit value. */
  lemma ParseIntRoundTrip(n: int)
    requires MinInt64 <= n <= MaxInt64
    ensures ParseInt(IntToString(n)) == Some(n)
  {
    IntToStringRoundTrip(n);
  }

  lemma IntToStringInjective(a: int, b: int)
    requires IntToString(a) == IntToString(b)
    ensures a == b
  {
    IntToStringRoundTrip(a);
    IntToStringRoundTrip(b);
  }
}
