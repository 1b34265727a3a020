/**
  The JavaScript string primitives the bot relies on, stated on `seq<char>`:
  `trim`, `toLowerCase`, `Array.prototype.join`, `split(/\s+/)`, `indexOf`,
  `startsWith`, `String(n)` on naturals and `padStart(2, '0')`.
*/
module Text {

  /** The characters ECMAScript counts as white space or line terminators (`\s`, `trim`). */
  predicate IsWhitespace(c: char)
  {
    c == '\t' || c == '\n' || c == '\U{000B}' || c == '\U{000C}' || c == '\r' || c == ' '
    || c == '\U{00A0}' || c == '\U{1680}' || ('\U{2000}' <= c <= '\U{200A}')
    || c == '\U{2028}' || c == '\U{2029}' || c == '\U{202F}' || c == '\U{205F}'
    || c == '\U{3000}' || c == '\U{FEFF}'
  }

  predicate NoWhitespace(s: string)
  {
    forall i :: 0 <= i < |s| ==> !IsWhitespace(s[i])
  }

  /** Neither end of `s` is white space: what `trim` produces. */
  predicate IsTrimmed(s: string)
  {
    s == [] || (!IsWhitespace(s[0]) && !IsWhitespace(s[|s| - 1]))
  }

  predicate AllWhitespace(s: string)
  {
    forall i :: 0 <= i < |s| ==> IsWhitespace(s[i])
  }

  function TrimStart(s: string): (r: string)
    ensures |r| <= |s|
  {
    if s != [] && IsWhitespace(s[0]) then TrimStart(s[1..]) else s
  }

  /** What `TrimStart` leaves: a suffix, starting with no whitespace, after only whitespace. */
  lemma {:induction false} TrimStartFacts(s: string)
    ensures var r := TrimStart(s);
      && r == s[|s| - |r|..]
      && (r == [] || !IsWhitespace(r[0]))
      && AllWhitespace(s[..|s| - |r|])
      && (s != [] && IsWhitespace(s[0]) ==> |r| < |s|)
      && (s != [] && !IsWhitespace(s[|s| - 1]) ==> r != [])
  {
    if s != [] && IsWhitespace(s[0]) {
      TrimStartFacts(s[1..]);
    }
  }

  function TrimEnd(s: string): (r: string)
    ensures |r| <= |s|
  {
    if s != [] && IsWhitespace(s[|s| - 1]) then TrimEnd(s[..|s| - 1]) else s
  }

  /** What `TrimEnd` leaves: a prefix, ending with no whitespace, before only whitespace. */
  lemma {:induction false} TrimEndFacts(s: string)
    ensures var r := TrimEnd(s);
      && r == s[..|r|]
      && (r == [] || !IsWhitespace(r[|r| - 1]))
      && AllWhitespace(s[|r|..])
  {
    if s != [] && IsWhitespace(s[|s| - 1]) {
      TrimEndFacts(s[..|s| - 1]);
    }
  }

  /** `String.prototype.trim`. */
  function Trim(s: string): (r: string)
    ensures IsTrimmed(r) && |r| <= |s|
  {
    TrimStartFacts(s);
    TrimEndFacts(TrimStart(s));
    TrimEnd(TrimStart(s))
  }

  lemma {:induction false} TrimStartOfPadded(w: string, t: string)
    requires AllWhitespace(w)
    requires t == [] || !IsWhitespace(t[0])
    ensures TrimStart(w + t) == t
    decreases |w|
  {
    if w != [] {
      assert (w + t)[1..] == w[1..] + t;
      TrimStartOfPadded(w[1..], t);
    } else {
      assert w + t == t;
    }
  }

  lemma {:induction false} TrimEndOfPadded(t: string, w: string)
    requires AllWhitespace(w)
    requires t == [] || !IsWhitespace(t[|t| - 1])
    ensures TrimEnd(t + w) == t
    decreases |w|
  {
    if w != [] {
      assert (t + w)[..|t + w| - 1] == t + w[..|w| - 1];
      TrimEndOfPadded(t, w[..|w| - 1]);
    } else {
      assert t + w == t;
    }
  }

  /** `trim` removes exactly the white space around a trimmed core, and nothing else. */
  lemma TrimOfPadded(w1: string, core: string, w2: string)
    requires AllWhitespace(w1) && AllWhitespace(w2) && IsTrimmed(core)
    ensures Trim(w1 + core + w2) == core
  {
    if core == [] {
      assert w1 + core + w2 == w1 + w2;
      assert AllWhitespace(w1 + w2);
      TrimStartOfPadded(w1 + w2, []);
      assert w1 + w2 + [] == w1 + w2;
    } else {
      assert w1 + core + w2 == w1 + (core + w2);
      TrimStartOfPadded(w1, core + w2);
      TrimEndOfPadded(core, w2);
    }
  }

  lemma TrimmedIsFixed(s: string)
    requires IsTrimmed(s)
    ensures Trim(s) == s
  {
    TrimOfPadded([], s, []);
    assert [] + s + [] == s;
  }

  lemma TrimOfNoWhitespace(s: string)
    requires NoWhitespace(s)
    ensures Trim(s) == s
  {
    TrimmedIsFixed(s);
  }

  // ---------------------------------------------------------------- case

  /**
    `toLowerCase` on one character, for the letters the bot's Portuguese
    card names use: ASCII A-Z and the Latin-1 capitals U+00C0..U+00DE
    (without the multiplication sign U+00D7).
  */
  function LowerChar(c: char): char
  {
    if 'A' <= c <= 'Z' || ('\U{00C0}' <= c <= '\U{00DE}' && c != '\U{00D7}')
    then (c as int + 32) as char
    else c
  }

  /** `String.prototype.toLowerCase`, character by character. */
  function Lower(s: string): (r: string)
    ensures |r| == |s|
    ensures forall i :: 0 <= i < |s| ==> r[i] == LowerChar(s[i])
  {
    seq(|s|, i requires 0 <= i < |s| => LowerChar(s[i]))
  }

  lemma LowerIdempotent(s: string)
    ensures Lower(Lower(s)) == Lower(s)
  {
    forall i | 0 <= i < |s| ensures Lower(Lower(s))[i] == Lower(s)[i] {
      var c := s[i];
      assert LowerChar(LowerChar(c)) == LowerChar(c);
    }
  }

  lemma LowerKeepsWhitespace(c: char)
    ensures IsWhitespace(LowerChar(c)) == IsWhitespace(c)
  {
  }

  lemma {:induction false} LowerTrimStart(s: string)
    ensures TrimStart(Lower(s)) == Lower(TrimStart(s))
    decreases |s|
  {
    if s != [] {
      LowerKeepsWhitespace(s[0]);
      if IsWhitespace(s[0]) {
        assert Lower(s)[1..] == Lower(s[1..]);
        LowerTrimStart(s[1..]);
      }
    }
  }

  lemma {:induction false} LowerTrimEnd(s: string)
    ensures TrimEnd(Lower(s)) == Lower(TrimEnd(s))
    decreases |s|
  {
    if s != [] {
      LowerKeepsWhitespace(s[|s| - 1]);
      if IsWhitespace(s[|s| - 1]) {
        assert Lower(s)[..|s| - 1] == Lower(s[..|s| - 1]);
        LowerTrimEnd(s[..|s| - 1]);
      }
    }
  }

  /** `s.toLowerCase().trim()` and `s.trim().toLowerCase()` agree. */
  lemma LowerTrimCommute(s: string)
    ensures Trim(Lower(s)) == Lower(Trim(s))
  {
    LowerTrimStart(s);
    LowerTrimEnd(TrimStart(s));
  }

  // ---------------------------------------------------------------- join / split

  /** `Array.prototype.join(sep)`. */
  function Join(ts: seq<string>, sep: string): string
  {
    if |ts| == 0 then "" else if |ts| == 1 then ts[0] else ts[0] + sep + Join(ts[1..], sep)
  }

  lemma {:induction false} JoinSnoc(ts: seq<string>, t: string, sep: string)
    requires ts != []
    ensures Join(ts + [t], sep) == Join(ts, sep) + sep + t
    decreases |ts|
  {
    if |ts| == 1 {
      assert (ts + [t])[1..] == [t];
    } else {
      assert (ts + [t])[1..] == ts[1..] + [t];
      JoinSnoc(ts[1..], t, sep);
    }
  }

  /** Index of the first white-space character of `s`, or `|s|`. */
  function FirstWhitespace(s: string): (i: nat)
    ensures i <= |s| && (i < |s| ==> IsWhitespace(s[i]))
    ensures NoWhitespace(s[..i])
    ensures NoWhitespace(s) ==> i == |s|
  {
    if s == [] then 0
    else if IsWhitespace(s[0]) then 0
    else
      var k := FirstWhitespace(s[1..]);
      assert s[..k + 1] == [s[0]] + s[1..][..k];
      k + 1
  }

  /** `s.split(/\s+/)`: the pieces between maximal runs of white space. */
  function SplitWhitespace(s: string): (r: seq<string>)
    ensures |r| >= 1
    decreases |s|
  {
    var i := FirstWhitespace(s);
    if i == |s| then [s]
    else
      var rest := TrimStart(s[i..]);
      assert s[i..][0] == s[i];
      [s[..i]] + SplitWhitespace(rest)
  }

  /**
    On trimmed non-empty text every piece of `split(/\s+/)` is non-empty
    and free of white space.
  */
  lemma {:induction false} SplitWhitespacePieces(s: string)
    requires IsTrimmed(s) && s != []
    ensures forall k :: 0 <= k < |SplitWhitespace(s)| ==>
      SplitWhitespace(s)[k] != [] && NoWhitespace(SplitWhitespace(s)[k])
    decreases |s|
  {
    var i := FirstWhitespace(s);
    if i < |s| {
      var rest := TrimStart(s[i..]);
      SplitRest(s, i);
      SplitWhitespacePieces(rest);
      PiecesCons(s[..i], SplitWhitespace(rest));
      assert SplitWhitespace(s) == [s[..i]] + SplitWhitespace(rest);
    }
  }

  /** After the first word of trimmed text, what is left to split is trimmed, shorter and not empty. */
  lemma SplitRest(s: string, i: nat)
    requires IsTrimmed(s) && s != [] && i == FirstWhitespace(s) && i < |s|
    ensures i > 0 && s[..i] != [] && NoWhitespace(s[..i])
    ensures var rest := TrimStart(s[i..]); rest != [] && IsTrimmed(rest) && |rest| < |s|
  {
    var rest := TrimStart(s[i..]);
    TrimStartFacts(s[i..]);
    assert s[i..][0] == s[i];
    assert s[i..][|s| - i - 1] == s[|s| - 1];
    assert rest[|rest| - 1] == s[|s| - 1];
  }

  lemma PiecesCons(w: string, r: seq<string>)
    requires w != [] && NoWhitespace(w)
    requires forall k :: 0 <= k < |r| ==> r[k] != [] && NoWhitespace(r[k])
    ensures forall k :: 0 <= k < |[w] + r| ==> ([w] + r)[k] != [] && NoWhitespace(([w] + r)[k])
  {
    forall k | 0 <= k < |[w] + r| ensures ([w] + r)[k] != [] && NoWhitespace(([w] + r)[k]) {
      if k > 0 { assert ([w] + r)[k] == r[k - 1]; }
    }
  }

  /** Splitting words joined by single spaces gives the words back. */
  lemma {:induction false} SplitJoinSpaces(ts: seq<string>)
    requires ts != []
    requires forall k :: 0 <= k < |ts| ==> ts[k] != [] && NoWhitespace(ts[k])
    ensures SplitWhitespace(Join(ts, " ")) == ts
    decreases |ts|
  {
    if |ts| > 1 {
      var rest := Join(ts[1..], " ");
      JoinStartsWithWord(ts[1..]);
      SplitAfterWord(ts[0], rest);
      SplitJoinSpaces(ts[1..]);
      assert [ts[0]] + ts[1..] == ts;
    }
  }

  lemma SplitAfterWord(w: string, t: string)
    requires w != [] && NoWhitespace(w)
    requires t == [] || !IsWhitespace(t[0])
    ensures SplitWhitespace(w + " " + t) == [w] + SplitWhitespace(t)
  {
    var s := w + " " + t;
    FirstWhitespaceAfterWord(w, ' ', t);
    assert s[..|w|] == w;
    assert s[|w|..] == " " + t;
    assert AllWhitespace(" ");
    TrimStartOfPadded(" ", t);
    SplitWhitespaceStep(s, |w|);
  }

  /** One step of `split(/\s+/)`: the word before the first white space, then the split of the rest. */
  lemma SplitWhitespaceStep(s: string, i: nat)
    requires i == FirstWhitespace(s) && i < |s|
    ensures SplitWhitespace(s) == [s[..i]] + SplitWhitespace(TrimStart(s[i..]))
  {
  }

  lemma {:induction false} FirstWhitespaceAfterWord(w: string, c: char, t: string)
    requires NoWhitespace(w) && IsWhitespace(c)
    ensures FirstWhitespace(w + [c] + t) == |w|
    decreases |w|
  {
    if w != [] {
      assert (w + [c] + t)[1..] == w[1..] + [c] + t;
      FirstWhitespaceAfterWord(w[1..], c, t);
    }
  }

  lemma {:induction false} JoinStartsWithWord(ts: seq<string>)
    requires ts != [] && ts[0] != []
    ensures Join(ts, " ") != [] && Join(ts, " ")[0] == ts[0][0]
  {
  }

  // ---------------------------------------------------------------- numbers

  predicate IsDigit(c: char)
  {
    '0' <= c <= '9'
  }

  predicate AllDigits(s: string)
  {
    forall i :: 0 <= i < |s| ==> IsDigit(s[i])
  }

  function DigitChar(d: nat): (c: char)
    requires d < 10
    ensures IsDigit(c)
  {
    ('0' as int + d) as char
  }

  function DigitValue(c: char): (d: nat)
    requires IsDigit(c)
    ensures d < 10 && DigitChar(d) == c
  {
    c as int - '0' as int
  }

  /** `String(n)` for a natural number: its shortest decimal numeral. */
  function NatToString(n: nat): (r: string)
    ensures |r| >= 1 && AllDigits(r)
    ensures |r| > 1 ==> r[0] != '0'
    decreases n
  {
    if n < 10 then [DigitChar(n)] else NatToString(n / 10) + [DigitChar(n % 10)]
  }

  /** The value of a string of decimal digits (the empty string is 0). */
  function ParseNat(d: string): nat
    requires AllDigits(d)
  {
    if d == [] then 0 else ParseNat(d[..|d| - 1]) * 10 + DigitValue(d[|d| - 1])
  }

  lemma {:induction false} ParseNatToString(n: nat)
    ensures ParseNat(NatToString(n)) == n
    decreases n
  {
    if n >= 10 {
      var s := NatToString(n);
      assert s[..|s| - 1] == NatToString(n / 10);
      ParseNatToString(n / 10);
    }
  }

  /** `String(n).padStart(2, '0')`. */
  function Pad2(n: nat): (r: string)
    ensures AllDigits(r) && ParseNat(r) == n
    ensures n < 100 ==> |r| == 2
  {
    ParseNatToString(n);
    if n < 10 then
      var r := "0" + NatToString(n);
      assert r[..1] == "0";
      r
    else NatToString(n)
  }

  // ---------------------------------------------------------------- search

  predicate StartsWith(s: string, p: string)
  {
    |p| <= |s| && s[..|p|] == p
  }

  predicate OccursAt(s: string, pat: string, j: int)
  {
    0 <= j && j + |pat| <= |s| && s[j..j + |pat|] == pat
  }

  function IndexFrom(s: string, pat: string, i: nat): (r: int)
    requires i <= |s|
    ensures r == -1 || (i <= r && OccursAt(s, pat, r))
    ensures forall j :: i <= j && (r == -1 || j < r) ==> !OccursAt(s, pat, j)
    decreases |s| - i
  {
    if i + |pat| > |s| then -1
    else if s[i..i + |pat|] == pat then i
    else if i == |s| then -1
    else IndexFrom(s, pat, i + 1)
  }

  /** `String.prototype.indexOf`: the first position where `pat` occurs, or -1. */
  function IndexOf(s: string, pat: string): (r: int)
    ensures r == -1 || OccursAt(s, pat, r)
    ensures forall j :: 0 <= j && (r == -1 || j < r) ==> !OccursAt(s, pat, j)
  {
    IndexFrom(s, pat, 0)
  }


  /** `indexOf` finds the first occurrence. */
  lemma IndexOfFirst(s: string, pat: string, k: nat)
    requires OccursAt(s, pat, k)
    requires forall j :: 0 <= j < k ==> !OccursAt(s, pat, j)
    ensures IndexOf(s, pat) == k
  {
  }
}
