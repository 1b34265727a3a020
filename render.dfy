/**
  The display helpers: one line of the statement, the percentage of a
  card's limit already spent, the 10-cell progress bar, the status marker
  and the listing of the cards.
*/
module Render {
  import opened Wrappers
  import opened Text
  import opened Money
  import opened Records

  function Min(a: int, b: int): int
  {
    if a <= b then a else b
  }

  // ---------------------------------------------------------------- percentage

  /** `n / d` rounded to the nearest integer, halves upwards. */
  function RoundHalfUp(n: nat, d: nat): (r: nat)
    requires d > 0
    ensures (2 * r - 1) * d <= 2 * n < (2 * r + 1) * d
  {
    var q := (2 * n + d) / (2 * d);
    assert q * (2 * d) <= 2 * n + d < q * (2 * d) + 2 * d;
    q
  }

  /**
    `(gastoAtual / limite) * 100` with one decimal, in tenths of a percent,
    rounded as `toFixed(1)` rounds: to the nearest tenth, halves away from zero.
  */
  function PercentTenths(gasto: int, limite: int): (t: int)
    requires limite > 0
    ensures gasto >= 0 ==> (2 * t - 1) * limite <= 2000 * gasto < (2 * t + 1) * limite
    ensures gasto < 0 ==> (2 * t - 1) * limite < 2000 * gasto <= (2 * t + 1) * limite
  {
    if gasto >= 0 then RoundHalfUp(1000 * gasto, limite)
    else
      var m: int := RoundHalfUp(1000 * -gasto, limite);
      assert (2 * m - 1) * limite <= -2000 * gasto < (2 * m + 1) * limite;
      -m
  }

  /** The percentage of a card, in tenths; it is 0 when the limit is not positive. */
  function CardPercent(c: Card): int
  {
    if c.limite > 0 then PercentTenths(c.gastoAtual, c.limite) else 0
  }

  /** How the percentage is printed: the number 0, or the `toFixed(1)` text. */
  function PercentText(c: Card): string
  {
    if c.limite <= 0 then "0"
    else
      var t := PercentTenths(c.gastoAtual, c.limite);
      var m := if t < 0 then -t else t;
      (if c.gastoAtual < 0 then "-" else "") + NatToString(m / 10) + "." + [DigitChar(m % 10)]
  }

  // ---------------------------------------------------------------- progress bar

  const Cells := 10
  const FullCell := '▓'
  const EmptyCell := '░'

  function Repeat(c: char, n: nat): (r: string)
    ensures |r| == n && forall i :: 0 <= i < n ==> r[i] == c
  {
    if n == 0 then [] else [c] + Repeat(c, n - 1)
  }

  /** `Math.min(Math.round((percentual / 100) * 10), 10)` for a percentage in tenths. */
  function Filled(t: int): int
  {
    Min((t + 50) / 100, Cells)
  }

  /**
    `gerarBarraProgresso`: filled cells, then empty ones, ten in all; a
    negative fill makes `repeat` throw, which is `None` here.
  */
  function ProgressBar(t: int): (r: Option<string>)
    ensures r.Some? <==> Filled(t) >= 0
    ensures r.Some? ==> |r.value| == Cells && forall i :: 0 <= i < Cells ==>
      (r.value[i] == FullCell <==> i < Filled(t)) && (r.value[i] == EmptyCell <==> i >= Filled(t))
  {
    var f := Filled(t);
    if f < 0 then None
    else
      var bar := Repeat(FullCell, f) + Repeat(EmptyCell, Cells - f);
      assert forall i :: 0 <= i < Cells ==> bar[i] == if i < f then FullCell else EmptyCell;
      Some(bar)
  }

  /**
    For a percentage from 0 up to 95 the fill is that percentage over ten
    rounded to the nearest cell, halves upwards; from 95 on the bar is full.
  */
  lemma FilledRounds(t: int)
    requires t >= 0
    ensures 0 <= Filled(t) <= Cells
    ensures t < 950 ==> (2 * Filled(t) - 1) * 50 <= t < (2 * Filled(t) + 1) * 50
    ensures t >= 950 ==> Filled(t) == Cells
  {
  }

  /** A non-negative percentage always gives a bar; below minus 5 % none can be drawn. */
  lemma ProgressBarDefined(t: int)
    ensures t >= -50 ==> ProgressBar(t).Some?
    ensures t < -50 ==> ProgressBar(t).None?
  {
  }

  // ---------------------------------------------------------------- status

  datatype Status = Green | Yellow | Red

  /** The marker of a card: red from 90 %, yellow from 70 %, green below. */
  function StatusOf(t: int): (s: Status)
    ensures s == Red <==> t >= 900
    ensures s == Yellow <==> 700 <= t < 900
    ensures s == Green <==> t < 700
  {
    if t >= 900 then Red else if t >= 700 then Yellow else Green
  }

  function Severity(s: Status): nat
  {
    match s
    case Green => 0
    case Yellow => 1
    case Red => 2
  }

  /** Spending more never makes the marker less severe. */
  lemma StatusMonotone(t1: int, t2: int)
    requires t1 <= t2
    ensures Severity(StatusOf(t1)) <= Severity(StatusOf(t2))
  {
  }

  function StatusEmoji(s: Status): string
  {
    match s
    case Green => "🟢"
    case Yellow => "🟡"
    case Red => "🔴"
  }

  // ---------------------------------------------------------------- card listing

  const NoCardsText := "📭 Nenhum cartão cadastrado."

  /** The three lines `renderizarCartoes` adds for one card. */
  function CardBlock(symbol: string, c: Card): Option<string>
  {
    var t := CardPercent(c);
    match ProgressBar(t)
    case None => None
    case Some(bar) =>
      Some("\n💳 *" + c.nome + "*\n"
        + "   " + bar + " " + PercentText(c) + "%\n"
        + "   " + StatusEmoji(StatusOf(t)) + " " + FormatBRL(symbol, c.gastoAtual)
        + " / " + FormatBRL(symbol, c.limite) + "\n")
  }

  /** The blocks of all cards in order; `None` once one of them cannot be drawn. */
  function Blocks(symbol: string, cards: seq<Card>): Option<string>
  {
    if cards == [] then Some("")
    else
      match Blocks(symbol, cards[..|cards| - 1])
      case None => None
      case Some(front) =>
        match CardBlock(symbol, cards[|cards| - 1])
        case None => None
        case Some(b) => Some(front + b)
  }

  /** What `renderizarCartoes` returns, or `None` where it throws. */
  function CardsText(symbol: string, cards: seq<Card>): Option<string>
  {
    if cards == [] then Some(NoCardsText)
    else
      match Blocks(symbol, cards)
      case None => None
      case Some(texto) => Some(Trim(texto))
  }

  /** The listing fails exactly when some card's bar cannot be drawn. */
  lemma {:induction false} BlocksDefined(symbol: string, cards: seq<Card>)
    ensures Blocks(symbol, cards).Some? <==>
      forall k :: 0 <= k < |cards| ==> ProgressBar(CardPercent(cards[k])).Some?
  {
    if cards != [] {
      var front := cards[..|cards| - 1];
      BlocksDefined(symbol, front);
      BlocksSnoc(symbol, cards);
      CardBlockDefined(symbol, cards[|cards| - 1]);
      assert forall k :: 0 <= k < |front| ==> front[k] == cards[k];
    }
  }

  lemma BlocksSnoc(symbol: string, cards: seq<Card>)
    requires cards != []
    ensures Blocks(symbol, cards).Some? <==>
      Blocks(symbol, cards[..|cards| - 1]).Some? && CardBlock(symbol, cards[|cards| - 1]).Some?
  {
  }

  lemma CardBlockDefined(symbol: string, c: Card)
    ensures CardBlock(symbol, c).Some? <==> ProgressBar(CardPercent(c)).Some?
  {
  }

  /** A card that is not over-refunded always renders. */
  lemma CardPercentNonNegative(c: Card)
    requires c.gastoAtual >= 0
    ensures CardPercent(c) >= 0
  {
  }

  /** When no card has a negative spend the listing never fails. */
  lemma CardsTextDefined(symbol: string, cards: seq<Card>)
    requires forall k :: 0 <= k < |cards| ==> cards[k].gastoAtual >= 0
    ensures CardsText(symbol, cards).Some?
  {
    forall k | 0 <= k < |cards| ensures ProgressBar(CardPercent(cards[k])).Some? {
      CardPercentNonNegative(cards[k]);
      ProgressBarDefined(CardPercent(cards[k]));
    }
    BlocksDefined(symbol, cards);
  }

  /** `renderizarCartoes`: a loop that appends each card's block, then `trim`. */
  method RenderCards(symbol: string, cards: seq<Card>) returns (r: Option<string>)
    ensures r == CardsText(symbol, cards)
  {
    if |cards| == 0 {
      return Some(NoCardsText);
    }
    var texto := "";
    var i := 0;
    while i < |cards|
      invariant 0 <= i <= |cards|
      invariant Blocks(symbol, cards[..i]) == Some(texto)
    {
      assert cards[..i + 1][..i] == cards[..i];
      var block := CardBlock(symbol, cards[i]);
      if block.None? {
        BlocksFailFrom(symbol, cards, i + 1);
        return None;
      }
      texto := texto + block.value;
      i := i + 1;
    }
    assert cards[..i] == cards;
    r := Some(Trim(texto));
  }

  /** Once a prefix of the cards fails, every longer prefix fails. */
  lemma BlocksFailFrom(symbol: string, cards: seq<Card>, n: nat)
    requires n <= |cards| && Blocks(symbol, cards[..n]).None?
    ensures Blocks(symbol, cards).None?
  {
    BlocksDefined(symbol, cards[..n]);
    BlocksDefined(symbol, cards);
    var k :| 0 <= k < n && ProgressBar(CardPercent(cards[..n][k])).None?;
    assert cards[..n][k] == cards[k];
  }

  // ---------------------------------------------------------------- statement line

  /**
    `construirLinhaEntrada`: marker, day/month, description, the card when
    there is one, and the amount.
  */
  function EntryLine(symbol: string, e: Entry, tipo: string): (r: string)
    ensures |r| > 0 && (r[0] == '🔴' <==> tipo == Gasto)
    ensures var v := ": " + FormatBRL(symbol, e.valor); |r| >= |v| && r[|r| - |v|..] == v
  {
    var emoji := if tipo == Gasto then "🔴" else "🟢";
    var cartaoInfo := if Truthy(e.cartao) then " (💳 " + e.cartao.value + ")" else "";
    var date := emoji + " " + Pad2(e.data.day) + "/" + Pad2(e.data.month);
    var amount := ": " + FormatBRL(symbol, e.valor);
    SlicesOfLine(date + " - ", e.descricao, cartaoInfo, amount);
    date + " - " + (e.descricao + cartaoInfo) + amount
  }

  /** With a day and a month of at most two digits, the description follows " - " at position 10. */
  lemma EntryLineDescription(symbol: string, e: Entry, tipo: string)
    requires e.data.day < 100 && e.data.month < 100
    ensures var r := EntryLine(symbol, e, tipo);
      |r| >= 10 + |e.descricao| && r[7..10] == " - " && r[10..10 + |e.descricao|] == e.descricao
  {
    var emoji := if tipo == Gasto then "🔴" else "🟢";
    var cartaoInfo := if Truthy(e.cartao) then " (💳 " + e.cartao.value + ")" else "";
    var date := emoji + " " + Pad2(e.data.day) + "/" + Pad2(e.data.month);
    var amount := ": " + FormatBRL(symbol, e.valor);
    var lead := date + " - ";
    assert |date| == 7;
    assert lead[7..] == " - ";
    SlicesOfLine(lead, e.descricao, cartaoInfo, amount);
    assert EntryLine(symbol, e, tipo) == lead + (e.descricao + cartaoInfo) + amount;
  }

  /** Where the pieces of a line `a + (b + c) + d` sit. */
  lemma SlicesOfLine(a: string, b: string, c: string, d: string)
    ensures var r := a + (b + c) + d;
      r[..|a|] == a && r[|a|..|a| + |b|] == b && r[|r| - |d|..] == d
  {
    var r := a + (b + c) + d;
    assert r[..|a|] == a;
    assert r[|a|..|a| + |b|] == b;
    assert r[|r| - |d|..] == d;
  }
}
