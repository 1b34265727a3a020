/**
  The bot's ledger: the cards, keyed by their lower-cased trimmed name, and
  the books of the months, keyed "MM/YYYY". The operations change the
  ledger in place; reading and writing the JSON file around each of them
  is not part of this model.
*/
module Database {
  import opened Wrappers
  import opened Text
  import opened Money
  import opened Records

  // ---------------------------------------------------------------- month keys

  /** `normalizarMes`: the month in two digits, a slash, the year. */
  function MonthKey(now: Clock): string
  {
    Pad2(now.month) + "/" + NatToString(now.year)
  }

  /** The key is two digits for the month, then `/`, then the digits of the year. */
  lemma MonthKeyShape(now: Clock)
    requires 1 <= now.month <= 12
    ensures var k := MonthKey(now);
      |k| >= 4 && k[2] == '/' && AllDigits(k[..2]) && AllDigits(k[3..])
      && ParseNat(k[..2]) == now.month && ParseNat(k[3..]) == now.year
  {
    var k := MonthKey(now);
    assert k[..2] == Pad2(now.month);
    assert k[3..] == NatToString(now.year);
    ParseNatToString(now.year);
  }

  /** Two moments share a key exactly when they fall in the same month of the same year. */
  lemma MonthKeyInjective(a: Clock, b: Clock)
    requires 1 <= a.month <= 12 && 1 <= b.month <= 12
    ensures MonthKey(a) == MonthKey(b) <==> a.month == b.month && a.year == b.year
  {
    MonthKeyShape(a);
    MonthKeyShape(b);
  }

  // ---------------------------------------------------------------- month books

  const EmptyMonth := Month([], [], 0, 0)

  /** The sum of the amounts of a list of entries. */
  function Sum(es: seq<Entry>): int
  {
    if es == [] then 0 else Sum(es[..|es| - 1]) + es[|es| - 1].valor
  }

  lemma SumSnoc(es: seq<Entry>, e: Entry)
    ensures Sum(es + [e]) == Sum(es) + e.valor
  {
    assert (es + [e])[..|es|] == es;
  }

  /** Each running total is the sum of its list. */
  predicate MonthValid(m: Month)
  {
    m.totalGastos == Sum(m.gastos) && m.totalReceitas == Sum(m.receitas)
  }

  /** What recording one entry does to a month: an expense or, for any other kind, an income. */
  function AddEntry(m: Month, tipo: string, e: Entry): Month
  {
    if tipo == Gasto then m.(gastos := m.gastos + [e], totalGastos := m.totalGastos + e.valor)
    else m.(receitas := m.receitas + [e], totalReceitas := m.totalReceitas + e.valor)
  }

  /** Recording an entry keeps each total equal to the sum of its list. */
  lemma AddEntryValid(m: Month, tipo: string, e: Entry)
    requires MonthValid(m)
    ensures MonthValid(AddEntry(m, tipo, e))
  {
    if tipo == Gasto { SumSnoc(m.gastos, e); } else { SumSnoc(m.receitas, e); }
  }

  /** Exactly one list grows, by exactly this entry at its end; the other side is untouched. */
  lemma AddEntryAppends(m: Month, tipo: string, e: Entry)
    ensures var n := AddEntry(m, tipo, e);
      (tipo == Gasto ==> n.gastos == m.gastos + [e] && n.totalGastos == m.totalGastos + e.valor
                         && n.receitas == m.receitas && n.totalReceitas == m.totalReceitas)
      && (tipo != Gasto ==> n.receitas == m.receitas + [e] && n.totalReceitas == m.totalReceitas + e.valor
                            && n.gastos == m.gastos && n.totalGastos == m.totalGastos)
  {
  }

  // ---------------------------------------------------------------- results

  datatype AddResult = AddResult(sucesso: bool, mensagem: string, cartao: Option<Card>)
  datatype SetResult = SetResult(sucesso: bool, mensagem: string)
  datatype Totals = Totals(gastos: int, receitas: int, saldo: int)
  datatype EntryResult = EntryResult(sucesso: bool, entrada: Entry, totais: Totals)
  datatype Statement = Statement(mes: string, gastos: seq<Entry>, receitas: seq<Entry>,
                                 totalGastos: int, totalReceitas: int, saldo: int)
  datatype CloseResult = CloseResult(sucesso: bool, mensagem: string, mesAnterior: string)
  datatype Stats = Stats(cartoes: seq<Card>, totalGastos: int, totalReceitas: int, saldo: int,
                         numeroGastos: nat, numeroReceitas: nat)

  const CardExists := "❌ Cartão já existe!"
  const CardNotFound := "❌ Cartão não encontrado!"

  function AddedMessage(nome: string): string
  {
    "✅ Cartão *" + nome + "* adicionado com sucesso!"
  }

  /** The key of a card name: lower-cased, then trimmed. */
  function CardKey(nome: string): string
  {
    Trim(Lower(nome))
  }

  function MonthTotals(m: Month): (t: Totals)
    ensures t.saldo == t.receitas - t.gastos
  {
    Totals(m.totalGastos, m.totalReceitas, m.totalReceitas - m.totalGastos)
  }

  /** The book of a month, or an empty one when the month has none yet. */
  function MonthOf(meses: map<string, Month>, key: string): Month
  {
    if key in meses then meses[key] else EmptyMonth
  }

  /** The entry `registrarEntrada` stores: the card, when given, by its key. */
  function NewEntry(valor: int, descricao: string, cartao: Option<string>, now: Clock): Entry
  {
    Entry(now.epochMs, valor, descricao, now, if Truthy(cartao) then Some(CardKey(cartao.value)) else None)
  }

  /** The cards after an entry: an expense on a known card adds to what was spent on it. */
  function Charge(cartoes: map<string, Card>, tipo: string, cartao: Option<string>, valor: int): map<string, Card>
  {
    if tipo == Gasto && Truthy(cartao) && CardKey(cartao.value) in cartoes then
      var c := cartoes[CardKey(cartao.value)];
      cartoes[CardKey(cartao.value) := c.(gastoAtual := c.gastoAtual + valor)]
    else cartoes
  }

  /**
    Only the card named by an expense changes, and only its spending, by
    exactly the amount; incomes and unknown or empty card names change nothing.
  */
  lemma ChargeEffect(cartoes: map<string, Card>, tipo: string, cartao: Option<string>, valor: int, k: string)
    requires k in cartoes
    ensures var d := Charge(cartoes, tipo, cartao, valor);
      k in d && d.Keys == cartoes.Keys
      && d[k].nome == cartoes[k].nome && d[k].limite == cartoes[k].limite && d[k].criadoEm == cartoes[k].criadoEm
      && d[k].gastoAtual == cartoes[k].gastoAtual
           + (if tipo == Gasto && Truthy(cartao) && k == CardKey(cartao.value) then valor else 0)
  {
  }

  /**
    `obterExtrato`: the book of the month asked for, or of the current one;
    a month without a book reads as empty (and none is created).
  */
  function StatementOf(meses: map<string, Month>, mesKey: Option<string>, now: Clock): (s: Statement)
    ensures s.mes == (if Truthy(mesKey) then mesKey.value else MonthKey(now))
    ensures s.saldo == s.totalReceitas - s.totalGastos
    ensures s.mes !in meses ==> s == Statement(s.mes, [], [], 0, 0, 0)
    ensures s.mes in meses ==>
      s.gastos == meses[s.mes].gastos && s.receitas == meses[s.mes].receitas
      && s.totalGastos == meses[s.mes].totalGastos && s.totalReceitas == meses[s.mes].totalReceitas
  {
    var mes := if Truthy(mesKey) then mesKey.value else MonthKey(now);
    if mes !in meses then Statement(mes, [], [], 0, 0, 0)
    else
      var d := meses[mes];
      Statement(mes, d.gastos, d.receitas, d.totalGastos, d.totalReceitas, d.totalReceitas - d.totalGastos)
  }

  // ---------------------------------------------------------------- ledger invariant

  /**
    The ledger's invariant: every card sits under the key of its own
    (trimmed) name, the key order lists each card once, and every month's
    totals are the sums of its lists.
  */
  predicate LedgerValid(cartoes: map<string, Card>, ordem: seq<string>, meses: map<string, Month>)
  {
    (forall k :: k in cartoes ==> k == Lower(cartoes[k].nome) && IsTrimmed(cartoes[k].nome))
    && (forall i :: 0 <= i < |ordem| ==> ordem[i] in cartoes)
    && (forall i, j :: 0 <= i < j < |ordem| ==> ordem[i] != ordem[j])
    && (forall k :: k in cartoes ==> k in ordem)
    && (forall k :: k in meses ==> MonthValid(meses[k]))
  }

  /** The outcome of adding a card, with the cards and the key order after it. */
  datatype Added = Added(resultado: AddResult, cartoes: map<string, Card>, ordem: seq<string>)

  /** `addCartao` on values; `AddStepRefused` and `AddStepAdds` say what it does. */
  function AddStep(cartoes: map<string, Card>, ordem: seq<string>, nome: string, limite: int, now: Clock): (s: Added)
    ensures s.resultado.sucesso <==> CardKey(nome) !in cartoes
  {
    var key := CardKey(nome);
    if key in cartoes then Added(AddResult(false, CardExists, None), cartoes, ordem)
    else
      var c := Card(Trim(nome), limite, 0, now);
      Added(AddResult(true, AddedMessage(nome), Some(c)), cartoes[key := c], ordem + [key])
  }

  /** When the key of the name is taken, nothing changes and the answer is that the card exists. */
  lemma AddStepRefused(cartoes: map<string, Card>, ordem: seq<string>, nome: string, limite: int, now: Clock)
    ensures var s := AddStep(cartoes, ordem, nome, limite, now);
      !s.resultado.sucesso <==> CardKey(nome) in cartoes
    ensures var s := AddStep(cartoes, ordem, nome, limite, now);
      !s.resultado.sucesso ==>
        s.resultado == AddResult(false, CardExists, None) && s.cartoes == cartoes && s.ordem == ordem
  {
  }

  /**
    A card that is added has the trimmed name, the limit and nothing spent;
    it is the only new key, no other card changes, and its key goes at the
    end of the order.
  */
  lemma AddStepAdds(cartoes: map<string, Card>, ordem: seq<string>, nome: string, limite: int, now: Clock)
    requires CardKey(nome) !in cartoes
    ensures var s := AddStep(cartoes, ordem, nome, limite, now);
      && s.cartoes.Keys == cartoes.Keys + {CardKey(nome)}
      && s.cartoes[CardKey(nome)] == Card(Trim(nome), limite, 0, now)
      && (forall k :: k in cartoes ==> s.cartoes[k] == cartoes[k])
      && s.ordem == ordem + [CardKey(nome)]
      && s.resultado == AddResult(true, AddedMessage(nome), Some(s.cartoes[CardKey(nome)]))
  {
  }

  /** Adding a card keeps the ledger invariant. */
  lemma AddStepValid(cartoes: map<string, Card>, ordem: seq<string>, meses: map<string, Month>,
                     nome: string, limite: int, now: Clock)
    ensures var s := AddStep(cartoes, ordem, nome, limite, now);
      LedgerValid(cartoes, ordem, meses) ==> LedgerValid(s.cartoes, s.ordem, meses)
  {
    if CardKey(nome) !in cartoes {
      AddCardValid(cartoes, ordem, meses, nome, Card(Trim(nome), limite, 0, now));
    }
  }

  /** Adding a card under the key of its trimmed name, at the end of the order, keeps the invariant. */
  lemma AddCardValid(cartoes: map<string, Card>, ordem: seq<string>, meses: map<string, Month>,
                     nome: string, c: Card)
    requires CardKey(nome) !in cartoes && c.nome == Trim(nome)
    ensures LedgerValid(cartoes, ordem, meses) ==>
      LedgerValid(cartoes[CardKey(nome) := c], ordem + [CardKey(nome)], meses)
  {
    if LedgerValid(cartoes, ordem, meses) {
      LowerTrimCommute(nome);
      InsertCardValid(cartoes, ordem, meses, CardKey(nome), c);
    }
  }

  lemma InsertCardValid(cartoes: map<string, Card>, ordem: seq<string>, meses: map<string, Month>,
                        key: string, c: Card)
    requires LedgerValid(cartoes, ordem, meses)
    requires key !in cartoes && key == Lower(c.nome) && IsTrimmed(c.nome)
    ensures LedgerValid(cartoes[key := c], ordem + [key], meses)
  {
    var m := cartoes[key := c];
    var o := ordem + [key];
    forall i | 0 <= i < |o| ensures o[i] in m {
      if i < |ordem| { assert o[i] == ordem[i]; }
    }
    forall i, j | 0 <= i < j < |o| ensures o[i] != o[j] {
      assert o[i] == ordem[i];
      if j < |ordem| { assert o[j] == ordem[j]; }
    }
    forall k | k in m ensures k in o {
      if k != key { assert k in ordem; }
      else { assert o[|ordem|] == key; }
    }
  }

  /** Replacing a card by one with the same name keeps the invariant. */
  lemma UpdateCardValid(cartoes: map<string, Card>, ordem: seq<string>, meses: map<string, Month>,
                        key: string, c: Card)
    requires key in cartoes && c.nome == cartoes[key].nome
    ensures LedgerValid(cartoes, ordem, meses) ==> LedgerValid(cartoes[key := c], ordem, meses)
  {
  }

  lemma ChargeValid(cartoes: map<string, Card>, ordem: seq<string>, meses: map<string, Month>,
                    tipo: string, cartao: Option<string>, valor: int)
    ensures LedgerValid(cartoes, ordem, meses) ==> LedgerValid(Charge(cartoes, tipo, cartao, valor), ordem, meses)
  {
    if tipo == Gasto && Truthy(cartao) && CardKey(cartao.value) in cartoes {
      var c := cartoes[CardKey(cartao.value)];
      UpdateCardValid(cartoes, ordem, meses, CardKey(cartao.value), c.(gastoAtual := c.gastoAtual + valor));
    }
  }

  /** Recording an entry in a month keeps the invariant. */
  lemma AddEntryLedgerValid(cartoes: map<string, Card>, ordem: seq<string>, meses: map<string, Month>,
                            key: string, tipo: string, e: Entry)
    ensures LedgerValid(cartoes, ordem, meses) ==>
      LedgerValid(cartoes, ordem, meses[key := AddEntry(MonthOf(meses, key), tipo, e)])
  {
    var before := MonthOf(meses, key);
    if LedgerValid(cartoes, ordem, meses) {
      AddEntryValid(before, tipo, e);
    }
  }

  /** The cards in the order their keys were added, as `Object.values` lists them. */
  function Listed(ordem: seq<string>, cartoes: map<string, Card>): seq<Card>
  {
    if ordem == [] then []
    else
      var front := Listed(ordem[..|ordem| - 1], cartoes);
      var k := ordem[|ordem| - 1];
      if k in cartoes then front + [cartoes[k]] else front
  }

  /** Under the invariant the listing holds the card of every key, in key order, and nothing else. */
  lemma {:induction false} ListedAll(ordem: seq<string>, cartoes: map<string, Card>)
    requires forall i :: 0 <= i < |ordem| ==> ordem[i] in cartoes
    ensures |Listed(ordem, cartoes)| == |ordem|
    ensures forall i :: 0 <= i < |ordem| ==> Listed(ordem, cartoes)[i] == cartoes[ordem[i]]
  {
    if ordem != [] {
      ListedAll(ordem[..|ordem| - 1], cartoes);
    }
  }

  /** A key the order does not hold does not change the listing. */
  lemma {:induction false} ListedIgnores(ordem: seq<string>, cartoes: map<string, Card>, key: string, c: Card)
    requires key !in ordem
    ensures Listed(ordem, cartoes[key := c]) == Listed(ordem, cartoes)
  {
    if ordem != [] {
      ListedIgnores(ordem[..|ordem| - 1], cartoes, key, c);
    }
  }

  /** A card added under a new key is listed last, after the cards listed before. */
  lemma ListedAppend(ordem: seq<string>, cartoes: map<string, Card>, key: string, c: Card)
    requires key !in ordem
    ensures Listed(ordem + [key], cartoes[key := c]) == Listed(ordem, cartoes) + [c]
  {
    assert (ordem + [key])[..|ordem|] == ordem;
    ListedIgnores(ordem, cartoes, key, c);
  }

  /** Under the invariant a key not among the cards is not in the order either, so a new card is listed last. */
  lemma AddListedLast(cartoes: map<string, Card>, ordem: seq<string>, meses: map<string, Month>,
                      key: string, c: Card)
    requires key !in cartoes
    ensures LedgerValid(cartoes, ordem, meses) ==>
      Listed(ordem + [key], cartoes[key := c]) == Listed(ordem, cartoes) + [c]
  {
    if LedgerValid(cartoes, ordem, meses) {
      ListedAppend(ordem, cartoes, key, c);
    }
  }

  /** Resetting the month's spending of every card, the rest of each card unchanged. */
  predicate ResetAll(before: map<string, Card>, after: map<string, Card>)
  {
    after.Keys == before.Keys && forall k :: k in after ==> after[k] == before[k].(gastoAtual := 0)
  }

  lemma ResetValid(cartoes: map<string, Card>, reset: map<string, Card>, ordem: seq<string>,
                   meses: map<string, Month>)
    requires ResetAll(cartoes, reset)
    ensures LedgerValid(cartoes, ordem, meses) ==> LedgerValid(reset, ordem, meses)
  {
  }

  // ---------------------------------------------------------------- spends are never negative

  /**
    No card shows a negative spend. Cards start at 0, only expenses with a
    positive amount raise a spend and closing the month sets it back to 0,
    so every ledger the handlers reach has this property.
  */
  predicate SpendsNonNegative(cartoes: map<string, Card>)
  {
    forall k :: k in cartoes ==> cartoes[k].gastoAtual >= 0
  }

  /** Adding a card, or refusing to, never makes a spend negative: the new card spends 0. */
  lemma AddStepSpends(cartoes: map<string, Card>, ordem: seq<string>, nome: string, limite: int, now: Clock)
    ensures SpendsNonNegative(cartoes) ==> SpendsNonNegative(AddStep(cartoes, ordem, nome, limite, now).cartoes)
  {
  }

  /** Changing a card's limit leaves every spend as it was. */
  lemma SetLimitSpends(cartoes: map<string, Card>, key: string, limite: int)
    requires key in cartoes
    ensures SpendsNonNegative(cartoes) ==> SpendsNonNegative(cartoes[key := cartoes[key].(limite := limite)])
  {
  }

  /** Charging a non-negative amount never makes a spend negative. */
  lemma ChargeSpends(cartoes: map<string, Card>, tipo: string, cartao: Option<string>, valor: int)
    requires valor >= 0
    ensures SpendsNonNegative(cartoes) ==> SpendsNonNegative(Charge(cartoes, tipo, cartao, valor))
  {
  }

  /** After a reset every spend is 0, whatever it was before. */
  lemma ResetSpends(cartoes: map<string, Card>, reset: map<string, Card>)
    requires ResetAll(cartoes, reset)
    ensures SpendsNonNegative(reset)
  {
  }

  /** Every card listed is a card of the ledger, so it shows no negative spend either. */
  lemma {:induction false} ListedSpends(ordem: seq<string>, cartoes: map<string, Card>)
    requires SpendsNonNegative(cartoes)
    ensures forall k :: 0 <= k < |Listed(ordem, cartoes)| ==> Listed(ordem, cartoes)[k].gastoAtual >= 0
  {
    if ordem != [] {
      ListedSpends(ordem[..|ordem| - 1], cartoes);
    }
  }

  // ---------------------------------------------------------------- the ledger

  class Ledger {
    var cartoes: map<string, Card>
    /** The keys of `cartoes` in the order they were added, the order `Object.values` follows. */
    var ordem: seq<string>
    var meses: map<string, Month>

    ghost predicate Valid()
      reads this
    {
      LedgerValid(cartoes, ordem, meses)
    }

    /** The empty ledger the bot starts from. */
    constructor ()
      ensures Valid() && SpendsNonNegative(cartoes) && cartoes == map[] && ordem == [] && meses == map[]
    {
      cartoes := map[];
      ordem := [];
      meses := map[];
    }

    /** `listarCartoes`. */
    function Cards(): seq<Card>
      reads this
    {
      Listed(ordem, cartoes)
    }

    /** `obterMes`: the book of a month, created empty when there is none. */
    method GetMonth(mesKey: string) returns (m: Month)
      modifies this
      ensures meses == if mesKey in old(meses) then old(meses) else old(meses)[mesKey := EmptyMonth]
      ensures m == meses[mesKey]
      ensures cartoes == old(cartoes) && ordem == old(ordem)
      ensures old(Valid()) ==> Valid()
    {
      if mesKey !in meses {
        meses := meses[mesKey := EmptyMonth];
      }
      m := meses[mesKey];
    }

    /** `addCartao`: the cards and their order become what `AddStep` gives; the months are untouched. */
    method AddCard(nome: string, limite: int, now: Clock) returns (r: AddResult)
      modifies this
      ensures var s := AddStep(old(cartoes), old(ordem), nome, limite, now);
        r == s.resultado && cartoes == s.cartoes && ordem == s.ordem && meses == old(meses)
      ensures old(Valid()) ==> Valid()
    {
      var s := AddStep(cartoes, ordem, nome, limite, now);
      AddStepValid(cartoes, ordem, meses, nome, limite, now);
      cartoes, ordem, r := s.cartoes, s.ordem, s.resultado;
    }

    /** `setLimiteCartao`: refused for an unknown card; otherwise only that card's limit changes. */
    method SetLimit(nome: string, limite: int) returns (r: SetResult)
      modifies this
      ensures var key := CardKey(nome);
        if key !in old(cartoes) then
          r == SetResult(false, CardNotFound) && cartoes == old(cartoes)
        else
          var c := old(cartoes)[key];
          cartoes == old(cartoes)[key := c.(limite := limite)]
          && r == SetResult(true, "✅ Limite do cartão *" + c.nome + "* atualizado para R$ "
                                  + FixedComma(limite) + "!")
      ensures ordem == old(ordem) && meses == old(meses)
      ensures old(Valid()) ==> Valid()
    {
      var key := CardKey(nome);
      if key !in cartoes {
        return SetResult(false, CardNotFound);
      }
      var c := cartoes[key];
      UpdateCardValid(cartoes, ordem, meses, key, c.(limite := limite));
      cartoes := cartoes[key := c.(limite := limite)];
      r := SetResult(true, "✅ Limite do cartão *" + c.nome + "* atualizado para R$ "
                           + FixedComma(limite) + "!");
    }

    /**
      `registrarEntrada`: the entry goes at the end of the current month's
      list of its kind and into that total; an expense charged to a known
      card also raises that card's spending.
    */
    method RecordEntry(tipo: string, valor: int, descricao: string, cartao: Option<string>, now: Clock)
      returns (r: EntryResult)
      modifies this
      ensures var key := MonthKey(now);
        var e := NewEntry(valor, descricao, cartao, now);
        meses == old(meses)[key := AddEntry(MonthOf(old(meses), key), tipo, e)]
        && r == EntryResult(true, e, MonthTotals(meses[key]))
      ensures cartoes == Charge(old(cartoes), tipo, cartao, valor)
      ensures ordem == old(ordem)
      ensures old(Valid()) ==> Valid()
    {
      var key := MonthKey(now);
      var e := NewEntry(valor, descricao, cartao, now);
      var mes := AddEntry(MonthOf(meses, key), tipo, e);
      AddEntryLedgerValid(cartoes, ordem, meses, key, tipo, e);
      ChargeValid(cartoes, ordem, meses[key := mes], tipo, cartao, valor);
      cartoes, meses := Charge(cartoes, tipo, cartao, valor), meses[key := mes];
      r := EntryResult(true, e, MonthTotals(mes));
    }

    /** `obterExtrato`. */
    function GetStatement(mesKey: Option<string>, now: Clock): Statement
      reads this
    {
      StatementOf(meses, mesKey, now)
    }

    /**
      `fecharMes`: a loop over the card keys that sets each card's spending
      to 0; names, limits, creation times and all months stay as they were.
    */
    method CloseMonth(now: Clock) returns (r: CloseResult)
      modifies this
      ensures ResetAll(old(cartoes), cartoes)
      ensures meses == old(meses) && ordem == old(ordem)
      ensures r == CloseResult(true, "✅ Mês *" + MonthKey(now) + "* fechado com sucesso!\n💳 Gastos dos cartões resetados.",
                               MonthKey(now))
      ensures old(Valid()) ==> Valid()
    {
      var mesAtual := MonthKey(now);
      var todo := cartoes.Keys;
      while todo != {}
        invariant todo <= cartoes.Keys && cartoes.Keys == old(cartoes).Keys
        invariant forall k :: k in cartoes && k in todo ==> cartoes[k] == old(cartoes)[k]
        invariant forall k :: k in cartoes && k !in todo ==> cartoes[k] == old(cartoes)[k].(gastoAtual := 0)
        invariant meses == old(meses) && ordem == old(ordem)
        decreases |todo|
      {
        var k :| k in todo;
        cartoes := cartoes[k := cartoes[k].(gastoAtual := 0)];
        todo := todo - {k};
      }
      ResetValid(old(cartoes), cartoes, ordem, meses);
      r := CloseResult(true, "✅ Mês *" + mesAtual + "* fechado com sucesso!\n💳 Gastos dos cartões resetados.", mesAtual);
    }

    /** `obterEstatisticas`: the cards and the figures of the current month. */
    function GetStats(now: Clock): (s: Stats)
      reads this
      ensures s.cartoes == Cards()
      ensures s.saldo == s.totalReceitas - s.totalGastos
      ensures MonthKey(now) !in meses ==>
        s.totalGastos == 0 && s.totalReceitas == 0 && s.numeroGastos == 0 && s.numeroReceitas == 0
      ensures MonthKey(now) in meses ==>
        s.numeroGastos == |meses[MonthKey(now)].gastos| && s.numeroReceitas == |meses[MonthKey(now)].receitas|
        && s.totalGastos == meses[MonthKey(now)].totalGastos
        && s.totalReceitas == meses[MonthKey(now)].totalReceitas
    {
      var d := if MonthKey(now) in meses then meses[MonthKey(now)] else EmptyMonth;
      Stats(Cards(), d.totalGastos, d.totalReceitas, d.totalReceitas - d.totalGastos,
            |d.gastos|, |d.receitas|)
    }
  }

  // ---------------------------------------------------------------- properties across calls

  /**
    In a valid ledger the current month's totals in a statement are the
    sums of its lists, so the balance is income minus expenses as recorded.
  */
  lemma StatementSums(cartoes: map<string, Card>, ordem: seq<string>, meses: map<string, Month>, mes: string)
    requires LedgerValid(cartoes, ordem, meses) && mes in meses
    ensures meses[mes].totalReceitas - meses[mes].totalGastos == Sum(meses[mes].receitas) - Sum(meses[mes].gastos)
  {
  }
}
