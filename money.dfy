/**
  The money half of helpers.js: `formatarBRL` (display of an amount as
  "R$ 1.234,56") and `parsearValor` (reading a typed amount back).
  Amounts are integer cents throughout.
*/
module Money {
  import opened Wrappers
  import opened Text

  /** Symbol used when the configuration leaves `simboloMoeda` empty. */
  const DefaultSymbol: string := "R$"

  /** `config.simboloMoeda || 'R$'`. */
  function CurrencySymbol(configured: string): (r: string)
    ensures r != ""
    ensures configured != "" ==> r == configured
  {
    if configured == "" then DefaultSymbol else configured
  }

  function Abs(c: int): nat
  {
    if c < 0 then -c else c
  }

  function SignText(c: int): string
  {
    if c < 0 then "-" else ""
  }

  // ---------------------------------------------------------------- formatting

  /**
    The effect of `replace(/\B(?=(\d{3})+(?!\d))/g, '.')` on the integer
    digits of a `toFixed(2)` numeral: a dot before every complete group of
    three digits counted from the right, never at the front.
  */
  function GroupThousands(d: string): string
    decreases |d|
  {
    if |d| <= 3 then d else GroupThousands(d[..|d| - 3]) + "." + d[|d| - 3..]
  }

  /** The integer part, sign included, of `toFixed(2)` on an amount of cents. */
  function WholePart(cents: int): string
  {
    SignText(cents) + NatToString(Abs(cents) / 100)
  }

  /** `valor.toFixed(2).replace('.', ',')`: the numeral without grouping. */
  function FixedComma(cents: int): string
  {
    WholePart(cents) + "," + Pad2(Abs(cents) % 100)
  }

  /** `formatarBRL`: symbol, a space, the grouped integer part, a comma, two decimals. */
  function FormatBRL(symbol: string, cents: int): string
  {
    symbol + " " + SignText(cents) + GroupThousands(NatToString(Abs(cents) / 100))
    + "," + Pad2(Abs(cents) % 100)
  }

  /** The characters of `s` other than the dot. */
  function RemoveDots(s: string): (r: string)
    ensures '.' !in r
  {
    if s == [] then [] else (if s[0] == '.' then [] else [s[0]]) + RemoveDots(s[1..])
  }

  lemma {:induction false} RemoveDotsAppend(a: string, b: string)
    ensures RemoveDots(a + b) == RemoveDots(a) + RemoveDots(b)
    decreases |a|
  {
    if a == [] {
      assert a + b == b;
    } else {
      assert (a + b)[1..] == a[1..] + b;
      RemoveDotsAppend(a[1..], b);
    }
  }

  lemma {:induction false} RemoveDotsOfDigits(d: string)
    requires AllDigits(d)
    ensures RemoveDots(d) == d
    decreases |d|
  {
    if d != [] {
      RemoveDotsOfDigits(d[1..]);
    }
  }

  /**
    Grouping the digits of a numeral only inserts dots: a dot stands exactly
    at every fourth position counted from the right end, and removing the
    dots gives the digits back.
  */
  lemma GroupThousandsShape(d: string)
    requires AllDigits(d) && d != []
    ensures |GroupThousands(d)| == |d| + (|d| - 1) / 3
    ensures RemoveDots(GroupThousands(d)) == d
    ensures forall i :: 0 <= i < |GroupThousands(d)| ==>
      (GroupThousands(d)[i] == '.' <==> (|GroupThousands(d)| - 1 - i) % 4 == 3)
  {
    GroupThousandsLength(d);
    GroupThousandsUngroup(d);
    GroupThousandsPositions(d);
  }

  lemma {:induction false} GroupThousandsLength(d: string)
    requires d != []
    ensures |GroupThousands(d)| == |d| + (|d| - 1) / 3
    decreases |d|
  {
    if |d| > 3 {
      GroupThousandsLength(d[..|d| - 3]);
    }
  }

  lemma {:induction false} GroupThousandsUngroup(d: string)
    requires AllDigits(d)
    ensures RemoveDots(GroupThousands(d)) == d
    decreases |d|
  {
    if |d| <= 3 {
      RemoveDotsOfDigits(d);
    } else {
      var front, back := d[..|d| - 3], d[|d| - 3..];
      GroupThousandsUngroup(front);
      var gf := GroupThousands(front);
      RemoveDotsAppend(gf + ".", back);
      RemoveDotsAppend(gf, ".");
      RemoveDotsOfDigits(back);
      assert RemoveDots(".") == [];
      assert front + back == d;
    }
  }

  lemma {:induction false} GroupThousandsPositions(d: string)
    requires AllDigits(d)
    ensures forall i :: 0 <= i < |GroupThousands(d)| ==>
      (GroupThousands(d)[i] == '.' <==> (|GroupThousands(d)| - 1 - i) % 4 == 3)
    decreases |d|
  {
    var g := GroupThousands(d);
    if |d| <= 3 {
      forall i | 0 <= i < |g| ensures g[i] != '.' && (|g| - 1 - i) % 4 != 3 {
        assert IsDigit(d[i]);
      }
    } else {
      var front, back := d[..|d| - 3], d[|d| - 3..];
      GroupThousandsPositions(front);
      GroupThousandsDots(GroupThousands(front), back);
    }
  }

  lemma GroupThousandsDots(gf: string, back: string)
    requires AllDigits(back) && |back| == 3
    requires forall i :: 0 <= i < |gf| ==> (gf[i] == '.' <==> (|gf| - 1 - i) % 4 == 3)
    ensures var g := gf + "." + back;
      forall i :: 0 <= i < |g| ==> (g[i] == '.' <==> (|g| - 1 - i) % 4 == 3)
  {
    var g := gf + "." + back;
    forall i | 0 <= i < |g| ensures g[i] == '.' <==> (|g| - 1 - i) % 4 == 3 {
      var k := |g| - 1 - i;
      if i < |gf| {
        assert g[i] == gf[i];
        ModFour(|gf| - 1 - i);
      } else if i == |gf| {
        assert k == 3;
      } else {
        assert g[i] == back[i - |gf| - 1];
        assert IsDigit(back[i - |gf| - 1]);
        assert 0 <= k < 3;
      }
    }
  }

  lemma ModFour(k: nat)
    ensures (k + 4) % 4 == k % 4
  {
  }

  lemma {:induction false} GroupThousandsSmall(d: string)
    requires |d| <= 3
    ensures GroupThousands(d) == d
  {
  }

  lemma NatToStringBelowThousand(n: nat)
    requires n < 1000
    ensures |NatToString(n)| <= 3
  {
    if n >= 100 {
      assert NatToString(n) == NatToString(n / 10) + [DigitChar(n % 10)];
      assert 10 <= n / 10 < 100;
      assert NatToString(n / 10) == NatToString(n / 10 / 10) + [DigitChar(n / 10 % 10)];
      assert n / 10 / 10 < 10;
    } else if n >= 10 {
      assert NatToString(n) == NatToString(n / 10) + [DigitChar(n % 10)];
    }
  }

  /** Below a thousand reais `formatarBRL` is `toFixed(2)` with a comma. */
  lemma FormatBRLBelowThousand(symbol: string, cents: int)
    requires -100000 < cents < 100000
    ensures FormatBRL(symbol, cents) == symbol + " " + FixedComma(cents)
  {
    NatToStringBelowThousand(Abs(cents) / 100);
    GroupThousandsSmall(NatToString(Abs(cents) / 100));
  }

  // ---------------------------------------------------------------- parsing

  predicate IsCurrencyLetter(c: char)
  {
    c == 'R' || c == 'r'
  }

  /** `replace(/R\$/gi, '')`: drops every "R$" (either case of R) found scanning left to right. */
  function StripCurrency(s: string): (r: string)
    ensures |r| <= |s|
  {
    if s == [] then []
    else if |s| >= 2 && IsCurrencyLetter(s[0]) && s[1] == '$' then StripCurrency(s[2..])
    else [s[0]] + StripCurrency(s[1..])
  }

  predicate HasCurrencyMark(s: string)
  {
    exists i :: 0 <= i < |s| - 1 && IsCurrencyLetter(s[i]) && s[i + 1] == '$'
  }

  lemma {:induction false} StripCurrencyWithoutMark(s: string)
    requires !HasCurrencyMark(s)
    ensures StripCurrency(s) == s
    decreases |s|
  {
    if s != [] {
      assert !HasCurrencyMark(s[1..]) by {
        forall i | 0 <= i < |s[1..]| - 1 ensures !(IsCurrencyLetter(s[1..][i]) && s[1..][i + 1] == '$') {
          assert s[1..][i] == s[i + 1] && s[1..][i + 1] == s[i + 2];
        }
      }
      StripCurrencyWithoutMark(s[1..]);
      if |s| >= 2 {
        assert !(IsCurrencyLetter(s[0]) && s[1] == '$');
      }
    }
  }

  /** Removing the symbol is local: an "R$" in the middle is dropped and both sides are treated on their own. */
  lemma {:induction false} StripCurrencySplits(a: string, x: char, b: string)
    requires IsCurrencyLetter(x)
    ensures StripCurrency(a + [x, '$'] + b) == StripCurrency(a) + StripCurrency(b)
    decreases |a|
  {
    var s := a + [x, '$'] + b;
    if a == [] {
      assert s == [x, '$'] + b;
      assert s[2..] == b;
    } else if |a| >= 2 && IsCurrencyLetter(a[0]) && a[1] == '$' {
      assert s[2..] == a[2..] + [x, '$'] + b;
      StripCurrencySplits(a[2..], x, b);
    } else {
      assert s[1..] == a[1..] + [x, '$'] + b;
      if |a| == 1 {
        assert s[1] == x;
      } else {
        assert s[0] == a[0] && s[1] == a[1];
      }
      StripCurrencySplits(a[1..], x, b);
      assert StripCurrency(a) == [a[0]] + StripCurrency(a[1..]);
    }
  }

  /** `replace(/\s/g, '')`. */
  function RemoveWhitespace(s: string): (r: string)
    ensures NoWhitespace(r)
  {
    if s == [] then []
    else (if IsWhitespace(s[0]) then [] else [s[0]]) + RemoveWhitespace(s[1..])
  }

  lemma {:induction false} RemoveWhitespaceOfWord(s: string)
    requires NoWhitespace(s)
    ensures RemoveWhitespace(s) == s
    decreases |s|
  {
    if s != [] {
      RemoveWhitespaceOfWord(s[1..]);
    }
  }

  lemma {:induction false} RemoveWhitespaceAppend(a: string, b: string)
    ensures RemoveWhitespace(a + b) == RemoveWhitespace(a) + RemoveWhitespace(b)
    decreases |a|
  {
    if a == [] {
      assert a + b == b;
    } else {
      assert (a + b)[1..] == a[1..] + b;
      RemoveWhitespaceAppend(a[1..], b);
    }
  }

  /** `s.replace(a, b)` with a one-character pattern: only the first occurrence is replaced. */
  function ReplaceFirst(s: string, a: char, b: char): (r: string)
    ensures |r| == |s|
  {
    if s == [] then []
    else if s[0] == a then [b] + s[1..]
    else [s[0]] + ReplaceFirst(s[1..], a, b)
  }

  /**
    `replace(',', '.')` turns exactly one comma (the first, if any) into a
    dot: the number of commas drops by one, and every later comma stays.
  */
  lemma {:induction false} ReplaceFirstCommaCount(s: string)
    ensures multiset(ReplaceFirst(s, ',', '.'))[','] ==
      if ',' in s then multiset(s)[','] - 1 else 0
    decreases |s|
  {
    if s != [] {
      assert s == [s[0]] + s[1..];
      if s[0] == ',' {
        assert multiset(s)[','] == multiset(s[1..])[','] + 1;
        assert ReplaceFirst(s, ',', '.') == ['.'] + s[1..];
      } else {
        ReplaceFirstCommaCount(s[1..]);
        assert ReplaceFirst(s, ',', '.') == [s[0]] + ReplaceFirst(s[1..], ',', '.');
        assert (',' in s) == (',' in s[1..]);
      }
    }
  }

  lemma {:induction false} ReplaceFirstWithout(s: string, a: char, b: char)
    requires a !in s
    ensures ReplaceFirst(s, a, b) == s
    decreases |s|
  {
    if s != [] {
      ReplaceFirstWithout(s[1..], a, b);
    }
  }

  lemma {:induction false} ReplaceFirstAfter(w: string, a: char, b: char, t: string)
    requires a !in w
    ensures ReplaceFirst(w + [a] + t, a, b) == w + [b] + t
    decreases |w|
  {
    if w != [] {
      assert (w + [a] + t)[1..] == w[1..] + [a] + t;
      ReplaceFirstAfter(w[1..], a, b, t);
    }
  }

  lemma {:induction false} ReplaceFirstKeepsNoWhitespace(s: string)
    requires NoWhitespace(s)
    ensures NoWhitespace(ReplaceFirst(s, ',', '.'))
    decreases |s|
  {
    if s != [] {
      ReplaceFirstKeepsNoWhitespace(s[1..]);
    }
  }

  /** The cleaning `parsearValor` applies before `parseFloat`. */
  function CleanAmount(s: string): string
  {
    ReplaceFirst(Trim(RemoveWhitespace(StripCurrency(Trim(s)))), ',', '.')
  }

  /** After cleaning no white space is left. */
  lemma CleanAmountHasNoWhitespace(s: string)
    ensures NoWhitespace(CleanAmount(s))
  {
    var u := RemoveWhitespace(StripCurrency(Trim(s)));
    TrimOfNoWhitespace(u);
    ReplaceFirstKeepsNoWhitespace(u);
  }

  /** Only the first comma becomes a decimal point: "1,2,3" keeps a comma. */
  lemma CleanAmountReplacesOneComma(s: string)
    ensures var u := Trim(RemoveWhitespace(StripCurrency(Trim(s))));
      multiset(CleanAmount(s))[','] == if ',' in u then multiset(u)[','] - 1 else 0
  {
    ReplaceFirstCommaCount(Trim(RemoveWhitespace(StripCurrency(Trim(s)))));
  }

  /** Value, in cents, of at most two decimal digits after the point. */
  function FractionCents(f: string): (r: nat)
    requires AllDigits(f) && |f| <= 2
    ensures r < 100
  {
    if |f| == 0 then 0
    else if |f| == 1 then DigitValue(f[0]) * 10
    else DigitValue(f[0]) * 10 + DigitValue(f[1])
  }

  /**
    An unsigned decimal numeral "ddd", "ddd.", ".dd" or "ddd.dd" with at
    most two decimals, read as cents.
  */
  function ParseUnsigned(t: string): Option<nat>
  {
    var i := IndexOf(t, ".");
    if i < 0 then
      if t != [] && AllDigits(t) then Some(ParseNat(t) * 100) else None
    else
      var ip, fp := t[..i], t[i + 1..];
      if AllDigits(ip) && AllDigits(fp) && |fp| <= 2 && (ip != [] || fp != [])
      then Some(ParseNat(ip) * 100 + FractionCents(fp))
      else None
  }

  /** The decimal numerals `parseFloat` reads in full, with an optional sign. */
  function ParseDecimal(t: string): Option<int>
  {
    if t != [] && (t[0] == '-' || t[0] == '+') then
      match ParseUnsigned(t[1..])
      case None => None
      case Some(v) => var n: int := v; Some(if t[0] == '-' then -n else n)
    else
      match ParseUnsigned(t)
      case None => None
      case Some(v) => Some(v)
  }

  /**
    `parsearValor`: `null` for the empty string, for text that is not a
    numeral after cleaning, and for negative amounts; zero is accepted.
  */
  function ParseAmount(s: string): (r: Option<int>)
    ensures s == "" ==> r == None
    ensures r.Some? ==> r.value >= 0 && ParseDecimal(CleanAmount(s)) == Some(r.value)
    ensures s != "" && ParseDecimal(CleanAmount(s)).Some? && ParseDecimal(CleanAmount(s)).value >= 0
            ==> r.Some?
  {
    if s == "" then None
    else
      match ParseDecimal(CleanAmount(s))
      case None => None
      case Some(v) => if v < 0 then None else Some(v)
  }

  lemma ParseUnsignedPlain(d: string, f: string)
    requires AllDigits(d) && d != [] && AllDigits(f) && |f| == 2
    ensures ParseUnsigned(d + "." + f) == Some(ParseNat(d) * 100 + ParseNat(f))
  {
    var t := d + "." + f;
    var i := IndexOf(t, ".");
    assert OccursAt(t, ".", |d|);
    forall j | 0 <= j < |d| ensures !OccursAt(t, ".", j) {
      assert t[j..j + 1] == [d[j]];
      assert IsDigit(d[j]);
    }
    assert t[..i] == d && t[i + 1..] == f;
    ParseNatTwoDigits(f);
  }

  /**
    A non-negative amount typed as digits, a comma or a dot, and two
    decimals reads back as that amount.
  */
  lemma ParseAmountOfNumeral(cents: nat, sep: char)
    requires sep == ',' || sep == '.'
    ensures ParseAmount(NatToString(cents / 100) + [sep] + Pad2(cents % 100)) == Some(cents)
  {
    var d, f := NatToString(cents / 100), Pad2(cents % 100);
    ParseNatToString(cents / 100);
    assert ParseNat(d) * 100 + ParseNat(f) == cents;
    ParseAmountOfParts(d, sep, f, cents);
  }

  lemma ParseAmountOfParts(d: string, sep: char, f: string, v: nat)
    requires AllDigits(d) && d != [] && AllDigits(f) && |f| == 2 && (sep == ',' || sep == '.')
    requires ParseNat(d) * 100 + ParseNat(f) == v
    ensures ParseAmount(d + [sep] + f) == Some(v)
  {
    CleanNumeral(d, sep, f);
    ParseAmountOfCleanDotted(d + [sep] + f, d, f, v);
  }

  lemma ParseAmountOfCleanDotted(s: string, d: string, f: string, v: nat)
    requires AllDigits(d) && d != [] && AllDigits(f) && |f| == 2
    requires s != [] && CleanAmount(s) == d + "." + f
    requires ParseNat(d) * 100 + ParseNat(f) == v
    ensures ParseAmount(s) == Some(v)
  {
    ParseDecimalOfDotted(d, f);
    ParseAmountOfClean(s, d + "." + f, v);
  }

  /** Cleaning a numeral "d,ff" or "d.ff" gives "d.ff". */
  lemma CleanNumeral(d: string, sep: char, f: string)
    requires AllDigits(d) && AllDigits(f) && (sep == ',' || sep == '.')
    ensures CleanAmount(d + [sep] + f) == d + "." + f
  {
    var s := d + [sep] + f;
    NumeralIsPlain(d, sep, f);
    CleanAmountOfPlain(s);
    if sep == ',' {
      ReplaceFirstAfter(d, ',', '.', f);
    } else {
      ReplaceFirstWithout(s, ',', '.');
    }
  }

  lemma ParseDecimalOfDotted(d: string, f: string)
    requires AllDigits(d) && d != [] && AllDigits(f) && |f| == 2
    ensures ParseDecimal(d + "." + f) == Some(ParseNat(d) * 100 + ParseNat(f))
  {
    ParseUnsignedPlain(d, f);
    assert (d + "." + f)[0] == d[0] && IsDigit(d[0]);
  }

  /** Below a thousand reais, what `formatarBRL` prints `parsearValor` reads back. */
  lemma ParseAmountOfFormatted(cents: int)
    requires 0 <= cents < 100000
    ensures ParseAmount(FormatBRL(DefaultSymbol, cents)) == Some(cents)
  {
    FormatBRLBelowThousand(DefaultSymbol, cents);
    var d, f := NatToString(cents / 100), Pad2(cents % 100);
    var m := d + [','] + f;
    assert FixedComma(cents) == m;
    var s := FormatBRL(DefaultSymbol, cents);
    assert s == "R$ " + m;
    NumeralIsPlain(d, ',', f);
    CleanAmountOfSymbol(m);
    CleanNumeral(d, ',', f);
    ParseNatToString(cents / 100);
    ParseAmountOfCleanDotted(s, d, f, cents);
  }

  /** The cleaning drops a leading "R$ " in front of plain text. */
  lemma CleanAmountOfSymbol(m: string)
    requires m != [] && NoWhitespace(m) && !HasCurrencyMark(m)
    ensures CleanAmount("R$ " + m) == CleanAmount(m)
  {
    var s := "R$ " + m;
    assert s[|s| - 1] == m[|m| - 1];
    TrimmedIsFixed(s);
    StripSymbolSpace(m);
    RemoveWhitespaceAppend(" ", m);
    RemoveWhitespaceOfWord(m);
    assert RemoveWhitespace(" ") == [];
    TrimOfNoWhitespace(m);
    StripCurrencyWithoutMark(m);
    CleanAmountSteps(s, " " + m, m);
    CleanAmountSteps(m, m, m);
  }

  lemma StripSymbolSpace(m: string)
    requires !HasCurrencyMark(m)
    ensures StripCurrency("R$ " + m) == " " + m
  {
    assert "R$ " + m == [] + ['R', '$'] + (" " + m);
    StripCurrencySplits([], 'R', " " + m);
    assert !HasCurrencyMark(" " + m) by {
      forall i | 0 <= i < |" " + m| - 1 ensures !IsCurrencyLetter((" " + m)[i]) || (" " + m)[i + 1] != '$' {
        if i > 0 { assert (" " + m)[i] == m[i - 1] && (" " + m)[i + 1] == m[i]; }
      }
    }
    StripCurrencyWithoutMark(" " + m);
  }

  /** `CleanAmount` step by step. */
  lemma CleanAmountSteps(s: string, t: string, u: string)
    requires Trim(s) == s && StripCurrency(s) == t && RemoveWhitespace(t) == u && Trim(u) == u
    ensures CleanAmount(s) == ReplaceFirst(u, ',', '.')
  {
  }

  /** A numeral of digits, one separator and digits has no space and no "R$". */
  lemma NumeralIsPlain(d: string, sep: char, f: string)
    requires AllDigits(d) && AllDigits(f) && (sep == ',' || sep == '.')
    ensures NoWhitespace(d + [sep] + f)
    ensures forall i :: 0 <= i < |d + [sep] + f| ==> !IsCurrencyLetter((d + [sep] + f)[i])
    ensures !HasCurrencyMark(d + [sep] + f)
    ensures ',' !in d && (sep == '.' ==> ',' !in d + [sep] + f)
  {
    var s := d + [sep] + f;
    forall i | 0 <= i < |s| ensures !IsWhitespace(s[i]) && !IsCurrencyLetter(s[i]) && (i != |d| ==> s[i] != ',') {
      if i < |d| { assert s[i] == d[i]; } else if i > |d| { assert s[i] == f[i - |d| - 1]; }
    }
    forall i | 0 <= i < |d| ensures d[i] != ',' { assert s[i] == d[i]; }
  }

  lemma IndexOfAbsent(s: string, c: char)
    requires forall i :: 0 <= i < |s| ==> s[i] != c
    ensures IndexOf(s, [c]) == -1
  {
    forall j | 0 <= j < |s| ensures !OccursAt(s, [c], j) {
      assert s[j..j + 1] == [s[j]];
    }
  }

  lemma ParseNatTwoDigits(f: string)
    requires AllDigits(f) && |f| == 2
    ensures ParseNat(f) == DigitValue(f[0]) * 10 + DigitValue(f[1])
  {
    var h := f[..1];
    assert h[..0] == [] && h[0] == f[0];
    assert ParseNat(h) == DigitValue(f[0]);
    assert f[..|f| - 1] == h;
  }

  /** For text without white space or "R$" the cleaning only turns the first comma into a point. */
  lemma CleanAmountOfPlain(s: string)
    requires NoWhitespace(s) && !HasCurrencyMark(s)
    ensures CleanAmount(s) == ReplaceFirst(s, ',', '.')
  {
    TrimOfNoWhitespace(s);
    StripCurrencyWithoutMark(s);
    RemoveWhitespaceOfWord(s);
  }

  lemma DigitsArePlain(d: string)
    requires AllDigits(d)
    ensures NoWhitespace(d) && !HasCurrencyMark(d) && ',' !in d
    ensures forall i :: 0 <= i < |d| ==> d[i] != '.'
  {
    forall i | 0 <= i < |d| ensures !IsWhitespace(d[i]) && !IsCurrencyLetter(d[i]) && d[i] != ',' && d[i] != '.' {
      assert IsDigit(d[i]);
    }
  }

  /** Zero is an acceptable amount. */
  lemma ParseAmountZero()
    ensures ParseAmount("0") == Some(0)
  {
    assert NatToString(0) == "0";
    ParseAmountOfNumeralWhole(0);
  }

  /** A whole number of reais typed without decimals reads back as that amount. */
  lemma ParseAmountOfNumeralWhole(reais: nat)
    ensures ParseAmount(NatToString(reais)) == Some(reais * 100)
  {
    var d := NatToString(reais);
    DigitsArePlain(d);
    CleanAmountOfPlain(d);
    ReplaceFirstWithout(d, ',', '.');
    ParseDecimalOfDigits(d);
    ParseNatToString(reais);
    ParseAmountOfClean(d, d, reais * 100);
  }

  /** `ParseAmount` accepts whatever cleans to a non-negative numeral. */
  lemma ParseAmountOfClean(s: string, x: string, v: int)
    requires s != "" && CleanAmount(s) == x && ParseDecimal(x) == Some(v) && v >= 0
    ensures ParseAmount(s) == Some(v)
  {
  }

  lemma ParseDecimalOfDigits(d: string)
    requires AllDigits(d) && d != []
    ensures ParseDecimal(d) == Some(ParseNat(d) * 100)
  {
    ParseUnsignedWhole(d);
    assert IsDigit(d[0]);
  }

  lemma ParseUnsignedWhole(d: string)
    requires AllDigits(d) && d != []
    ensures ParseUnsigned(d) == Some(ParseNat(d) * 100)
  {
    DigitsArePlain(d);
    IndexOfAbsent(d, '.');
  }

}
