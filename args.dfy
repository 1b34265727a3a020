/**
  The two argument helpers of the bot: `dividirArgs`, which splits a
  command's argument text at spaces while a pair of quotes keeps a span
  together, and `extrairArgs`, which cuts the text after a command name.
*/
module Args {
  import opened Text

  // ---------------------------------------------------------------- dividirArgs

  /** Either quote character flips the one "inside quotes" flag. */
  predicate IsQuote(c: char)
  {
    c == '"' || c == '\''
  }

  predicate NoQuotes(s: string)
  {
    forall i :: 0 <= i < |s| ==> !IsQuote(s[i])
  }

  /** The three variables of the splitting loop: tokens so far, current token, inside quotes. */
  datatype SplitState = SplitState(resultado: seq<string>, atual: string, dentroAspas: bool)

  const Start := SplitState([], "", false)

  /** Appends the trimmed current token when it is not blank. */
  function Flush(resultado: seq<string>, atual: string): seq<string>
  {
    if Trim(atual) != [] then resultado + [Trim(atual)] else resultado
  }

  /** One character of the loop. */
  function Step(st: SplitState, c: char): SplitState
  {
    if IsQuote(c) then st.(dentroAspas := !st.dentroAspas)
    else if c == ' ' && !st.dentroAspas then SplitState(Flush(st.resultado, st.atual), "", false)
    else st.(atual := st.atual + [c])
  }

  /** The loop run over `s` from state `st`. */
  function Run(st: SplitState, s: string): SplitState
    decreases |s|
  {
    if s == [] then st else Run(Step(st, s[0]), s[1..])
  }

  /** What `dividirArgs` returns: the loop, then the last token flushed. */
  function SplitArgs(s: string): seq<string>
  {
    var st := Run(Start, s);
    Flush(st.resultado, st.atual)
  }

  /** `dividirArgs`, as the source writes it: one pass over the characters. */
  method DividirArgs(args: string) returns (resultado: seq<string>)
    ensures resultado == SplitArgs(args)
    ensures forall k :: 0 <= k < |resultado| ==> Token(resultado[k])
  {
    resultado := [];
    var atual := "";
    var dentroAspas := false;
    var i := 0;
    while i < |args|
      invariant 0 <= i <= |args|
      invariant Run(SplitState(resultado, atual, dentroAspas), args[i..]) == Run(Start, args)
    {
      var c := args[i];
      assert args[i..][1..] == args[i + 1..];
      if c == '"' || c == '\'' {
        dentroAspas := !dentroAspas;
      } else if c == ' ' && !dentroAspas {
        if Trim(atual) != [] {
          resultado := resultado + [Trim(atual)];
        }
        atual := "";
      } else {
        atual := atual + [c];
      }
      i := i + 1;
    }
    if Trim(atual) != [] {
      resultado := resultado + [Trim(atual)];
    }
    SplitArgsTokens(args);
  }

  // ---------------------------------------------------------------- properties

  /** A token as `dividirArgs` emits it: not blank, trimmed, without quote characters. */
  predicate Token(t: string)
  {
    t != [] && IsTrimmed(t) && NoQuotes(t)
  }

  /** The loop state never holds a quote character, and every token is a `Token`. */
  predicate Clean(st: SplitState)
  {
    NoQuotes(st.atual) && forall k :: 0 <= k < |st.resultado| ==> Token(st.resultado[k])
  }

  lemma TrimNoQuotes(s: string)
    requires NoQuotes(s)
    ensures NoQuotes(Trim(s))
  {
    TrimStartFacts(s);
    TrimEndFacts(TrimStart(s));
    SliceNoQuotes(s, |s| - |TrimStart(s)|, |s|);
    SliceNoQuotes(TrimStart(s), 0, |Trim(s)|);
  }

  lemma SliceNoQuotes(s: string, a: nat, b: nat)
    requires a <= b <= |s| && NoQuotes(s)
    ensures NoQuotes(s[a..b])
  {
    forall i | 0 <= i < b - a ensures !IsQuote(s[a..b][i]) {
      assert s[a..b][i] == s[a + i];
    }
  }

  lemma FlushClean(resultado: seq<string>, atual: string)
    requires NoQuotes(atual) && forall k :: 0 <= k < |resultado| ==> Token(resultado[k])
    ensures forall k :: 0 <= k < |Flush(resultado, atual)| ==> Token(Flush(resultado, atual)[k])
  {
    TrimNoQuotes(atual);
  }

  lemma StepClean(st: SplitState, c: char)
    requires Clean(st)
    ensures Clean(Step(st, c))
  {
    if !IsQuote(c) && !(c == ' ' && !st.dentroAspas) {
      var a := st.atual + [c];
      forall i | 0 <= i < |a| ensures !IsQuote(a[i]) {
        if i < |st.atual| { assert a[i] == st.atual[i]; }
      }
    } else if !IsQuote(c) {
      FlushClean(st.resultado, st.atual);
    }
  }

  lemma {:induction false} RunClean(st: SplitState, s: string)
    requires Clean(st)
    ensures Clean(Run(st, s))
    decreases |s|
  {
    if s != [] {
      StepClean(st, s[0]);
      RunClean(Step(st, s[0]), s[1..]);
    }
  }

  /** No token is blank, every token is trimmed, and none holds a quote character. */
  lemma SplitArgsTokens(s: string)
    ensures forall k :: 0 <= k < |SplitArgs(s)| ==> Token(SplitArgs(s)[k])
  {
    RunClean(Start, s);
    var st := Run(Start, s);
    FlushClean(st.resultado, st.atual);
  }

  /** The loop over a concatenation is the loop over the first part, then over the second. */
  lemma {:induction false} RunAppend(st: SplitState, a: string, b: string)
    ensures Run(st, a + b) == Run(Run(st, a), b)
    decreases |a|
  {
    if a == [] {
      assert a + b == b;
    } else {
      assert (a + b)[1..] == a[1..] + b;
      RunAppend(Step(st, a[0]), a[1..], b);
    }
  }

  /** Exchanging the two quote characters. */
  function SwapQuotes(s: string): (r: string)
    ensures |r| == |s|
  {
    seq(|s|, i requires 0 <= i < |s| =>
      if s[i] == '"' then '\'' else if s[i] == '\'' then '"' else s[i])
  }

  /** Single and double quotes are interchangeable: swapping them changes nothing. */
  lemma {:induction false} RunSwapQuotes(st: SplitState, s: string)
    ensures Run(st, SwapQuotes(s)) == Run(st, s)
    decreases |s|
  {
    if s != [] {
      var w := SwapQuotes(s);
      assert w[0] == (if s[0] == '"' then '\'' else if s[0] == '\'' then '"' else s[0]);
      assert Step(st, w[0]) == Step(st, s[0]);
      assert w[1..] == SwapQuotes(s[1..]);
      RunSwapQuotes(Step(st, s[0]), s[1..]);
    }
  }

  lemma SplitArgsSwapQuotes(s: string)
    ensures SplitArgs(SwapQuotes(s)) == SplitArgs(s)
  {
    RunSwapQuotes(Start, s);
  }

  /**
    Text without quote characters goes into the current token as it is, as
    long as it has no space or the loop is inside quotes.
  */
  lemma {:induction false} RunLiteral(st: SplitState, w: string)
    requires NoQuotes(w)
    requires !st.dentroAspas ==> ' ' !in w
    ensures Run(st, w) == st.(atual := st.atual + w)
    decreases |w|
  {
    if w == [] {
      assert st.atual + w == st.atual;
    } else {
      assert w[0] in w;
      assert st.atual + [w[0]] + w[1..] == st.atual + w;
      RunLiteral(Step(st, w[0]), w[1..]);
    }
  }

  /** How a token is typed: in double quotes when it holds a space, bare otherwise. */
  function Quote(t: string): string
  {
    if ' ' in t then "\"" + t + "\"" else t
  }

  /** Typing a token on a fresh current token leaves exactly that token current. */
  lemma RunQuoted(resultado: seq<string>, t: string)
    requires NoQuotes(t)
    ensures Run(SplitState(resultado, "", false), Quote(t)) == SplitState(resultado, t, false)
  {
    var st := SplitState(resultado, "", false);
    if ' ' in t {
      RunAppend(st, "\"" + t, "\"");
      RunAppend(st, "\"", t);
      var open := SplitState(resultado, "", true);
      assert Run(st, "\"") == open;
      RunLiteral(open, t);
      assert "" + t == t;
      assert Run(SplitState(resultado, t, true), "\"") == SplitState(resultado, t, false);
    } else {
      RunLiteral(st, t);
      assert "" + t == t;
    }
  }

  /** A typed token and the space after it add exactly that token. */
  lemma RunTokenSpace(resultado: seq<string>, t: string)
    requires Token(t)
    ensures Run(SplitState(resultado, "", false), Quote(t) + " ") == SplitState(resultado + [t], "", false)
  {
    var st := SplitState(resultado, "", false);
    RunQuoted(resultado, t);
    RunAppend(st, Quote(t), " ");
    TrimmedIsFixed(t);
    assert Run(SplitState(resultado, t, false), " ") == SplitState(resultado + [t], "", false);
  }

  /**
    How tokens are typed: separated by single spaces, each in double quotes
    when it holds a space.
  */
  function Typed(ts: seq<string>): string
    requires ts != []
  {
    if |ts| == 1 then Quote(ts[0]) else Quote(ts[0]) + " " + Typed(ts[1..])
  }

  /** The loop over typed tokens, from a fresh current token, leaves the last one current. */
  lemma {:induction false} RunTyped(resultado: seq<string>, ts: seq<string>)
    requires ts != [] && forall k :: 0 <= k < |ts| ==> Token(ts[k])
    ensures Run(SplitState(resultado, "", false), Typed(ts))
      == SplitState(resultado + ts[..|ts| - 1], ts[|ts| - 1], false)
    decreases |ts|
  {
    var t := ts[0];
    if |ts| == 1 {
      RunQuoted(resultado, t);
      assert resultado + ts[..0] == resultado;
    } else {
      var tail := ts[1..];
      RunTyped(resultado + [t], tail);
      RunTypedStep(resultado, t, Typed(tail),
        SplitState(resultado + [t] + tail[..|tail| - 1], tail[|tail| - 1], false));
      assert [t] + tail[..|tail| - 1] == ts[..|ts| - 1];
      assert resultado + [t] + tail[..|tail| - 1] == resultado + ts[..|ts| - 1];
    }
  }

  lemma RunTypedStep(resultado: seq<string>, t: string, rest: string, fin: SplitState)
    requires Token(t)
    requires Run(SplitState(resultado + [t], "", false), rest) == fin
    ensures Run(SplitState(resultado, "", false), Quote(t) + " " + rest) == fin
  {
    RunAppend(SplitState(resultado, "", false), Quote(t) + " ", rest);
    RunTokenSpace(resultado, t);
  }

  /** Typed tokens are split back into exactly those tokens. */
  lemma SplitArgsOfTyped(ts: seq<string>)
    requires ts != [] && forall k :: 0 <= k < |ts| ==> Token(ts[k])
    ensures SplitArgs(Typed(ts)) == ts
  {
    RunTyped([], ts);
    FlushLast(ts);
  }

  lemma FlushLast(ts: seq<string>)
    requires ts != [] && Token(ts[|ts| - 1])
    ensures Flush([] + ts[..|ts| - 1], ts[|ts| - 1]) == ts
  {
    TrimmedIsFixed(ts[|ts| - 1]);
    assert [] + ts[..|ts| - 1] + [ts[|ts| - 1]] == ts;
  }

  /** The usage example of `cartao-add`: a quoted card name with a space, then a limit. */
  lemma SplitArgsExample()
    ensures SplitArgs("\"Cartão Inter\" 3000") == ["Cartão Inter", "3000"]
  {
    var ts := ["Cartão Inter", "3000"];
    assert ts[0][6] == ' ';
    assert Quote(ts[0]) == "\"Cartão Inter\"";
    assert forall i :: 0 <= i < |ts[1]| ==> ts[1][i] != ' ';
    assert Quote(ts[1]) == "3000";
    assert Typed(ts) == "\"Cartão Inter\" 3000";
    assert Token(ts[0]) && Token(ts[1]);
    SplitArgsOfTyped(ts);
  }

  // ---------------------------------------------------------------- extrairArgs

  /** `String.prototype.slice(start)` with one argument: a negative start counts from the end. */
  function SliceFrom(s: string, start: int): (r: string)
    ensures 0 <= start <= |s| ==> r == s[start..]
    ensures start > |s| ==> r == []
  {
    if start < 0 then (if |s| + start < 0 then s else s[|s| + start..])
    else if start >= |s| then []
    else s[start..]
  }

  /**
    `extrairArgs`: the trimmed text after the first case-insensitive
    occurrence of the command.
  */
  function ExtrairArgs(texto: string, comando: string): string
  {
    var inicio := IndexOf(Lower(texto), Lower(comando)) + |comando|;
    Trim(SliceFrom(texto, inicio))
  }

  /** After the command's first occurrence at `k`, the arguments are the trimmed rest. */
  lemma ExtrairArgsFound(texto: string, comando: string, k: nat)
    requires OccursAt(Lower(texto), Lower(comando), k)
    requires forall j :: 0 <= j < k ==> !OccursAt(Lower(texto), Lower(comando), j)
    ensures ExtrairArgs(texto, comando) == Trim(texto[k + |comando|..])
  {
    IndexOfFirst(Lower(texto), Lower(comando), k);
    ExtrairArgsAt(texto, comando, k);
  }

  lemma ExtrairArgsAt(texto: string, comando: string, k: nat)
    requires IndexOf(Lower(texto), Lower(comando)) == k && k + |comando| <= |texto|
    ensures ExtrairArgs(texto, comando) == Trim(texto[k + |comando|..])
  {
  }

  /** A command typed after a prefix in which it does not occur: the arguments are the rest. */
  lemma ExtrairArgsOfCommand(prefixo: string, comando: string, resto: string)
    requires forall j :: 0 <= j < |prefixo| ==>
      !OccursAt(Lower(prefixo + comando + resto), Lower(comando), j)
    ensures ExtrairArgs(prefixo + comando + resto, comando) == Trim(resto)
  {
    var texto := prefixo + comando + resto;
    var k := |prefixo|;
    assert Lower(texto)[k..k + |comando|] == Lower(comando);
    ExtrairArgsFound(texto, comando, k);
    assert texto[k + |comando|..] == resto;
  }

  /**
    When the command does not occur, the cut falls one character before
    its length: the text past the first `|comando| - 1` characters is kept.
  */
  lemma ExtrairArgsMissing(texto: string, comando: string)
    requires comando != []
    requires forall j :: 0 <= j && j + |comando| <= |texto| ==> !OccursAt(Lower(texto), Lower(comando), j)
    ensures |comando| - 1 <= |texto| ==> ExtrairArgs(texto, comando) == Trim(texto[|comando| - 1..])
    ensures |comando| - 1 > |texto| ==> ExtrairArgs(texto, comando) == ""
  {
    var i := IndexOf(Lower(texto), Lower(comando));
    assert i == -1;
  }
}
