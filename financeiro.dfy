/**
  The command handlers of the finance bot. Each one splits its argument
  text into tokens, validates them, asks the ledger to do the work and
  builds the reply. The decision each handler takes is stated first as a
  plan computed from the tokens (and, for expenses, from the card list);
  the handler method then carries the plan out on the ledger.
*/
module Finance {
  import opened Wrappers
  import opened Text
  import opened Money
  import opened Records
  import opened Render
  import opened Args
  import opened Database

  // ---------------------------------------------------------------- fixed texts

  const Rule := "━━━━━━━━━━━━━━━━━━━━━━"

  const NoCardsReply := "📭 *Nenhum cartão cadastrado*\n\nUse o comando *!cartao-add* para adicionar seu primeiro cartão!\n\n_Exemplo: !cartao-add Nubank 5000_"
  const LimitsHeader := "💳 *LIMITES DOS CARTÕES*\n━━━━━━━━━━━━━━━━━━━━━━"
  const AddUsage := "❌ *Uso incorreto*\n\n📝 *Formato:* !cartao-add <nome> <limite>\n\n📌 *Exemplos:*\n• !cartao-add Nubank 5000\n• !cartao-add \"Cartão Inter\" 3000"
  const SetLimitUsage := "❌ *Uso incorreto*\n\n📝 *Formato:* !cartao-limite <nome> <valor>\n\n📌 *Exemplo:*\n• !cartao-limite Nubank 8000"
  const ExpenseUsage := "❌ *Uso incorreto*\n\n📝 *Formato:* !gasto <valor> <descrição> [cartão]\n\n📌 *Exemplos:*\n• !gasto 50,00 Almoço\n• !gasto 150 Supermercado Nubank\n• !gasto 89,90 \"Netflix mensal\" Inter"
  const IncomeUsage := "❌ *Uso incorreto*\n\n📝 *Formato:* !receita <valor> <descrição>\n\n📌 *Exemplos:*\n• !receita 3000 Salário\n• !receita 500,00 Freelance\n• !receita 1200 \"Venda de produto\""
  const ReceiptReply := "📸 *RECIBO* (Em desenvolvimento)\n━━━━━━━━━━━━━━━━━━━━━━\n\nEsta funcionalidade está em desenvolvimento!\n\n🔜 *Em breve você poderá:*\n• Enviar foto do recibo\n• Extração automática de valores\n• Registro rápido de gastos\n\n📌 _Por enquanto, use !gasto para registrar manualmente._"

  const BadLimit := "❌ Valor de limite inválido! Use números, ex: 5000 ou 5000,00"
  const BadExpense := "❌ Valor inválido! Use números positivos, ex: 50 ou 50,00"
  const BadIncome := "❌ Valor inválido! Use números positivos, ex: 3000 ou 3000,00"

  const NoExpenses := "_Nenhum gasto registrado_"
  const NoIncomes := "_Nenhuma receita registrada_"

  /** How many entries of each kind the statement shows. */
  const Shown := 5

  /** The ledger holds exactly these cards, key order and months. */
  ghost predicate Kept(db: Ledger, cartoes: map<string, Card>, ordem: seq<string>, meses: map<string, Month>)
    reads db
  {
    db.cartoes == cartoes && db.ordem == ordem && db.meses == meses
  }

  // ---------------------------------------------------------------- listing the limits

  /** `listarLimites`: the fixed text without cards, else the header and the rendered cards. */
  function LimitsReply(symbol: string, cards: seq<Card>): Option<string>
  {
    if cards == [] then Some(NoCardsReply)
    else
      match CardsText(symbol, cards)
      case None => None
      case Some(t) => Some(LimitsHeader + "\n\n" + t)
  }

  /** The reply always exists when no card shows a negative spend. */
  lemma LimitsReplyDefined(symbol: string, cards: seq<Card>)
    requires forall k :: 0 <= k < |cards| ==> cards[k].gastoAtual >= 0
    ensures LimitsReply(symbol, cards).Some?
    ensures cards != [] ==> exists t :: LimitsReply(symbol, cards) == Some(LimitsHeader + "\n\n" + t)
  {
    CardsTextDefined(symbol, cards);
  }

  method ListarLimites(db: Ledger, symbol: string) returns (reply: Option<string>)
    ensures reply == LimitsReply(symbol, db.Cards())
    ensures db.Cards() == [] ==> reply == Some(NoCardsReply)
    ensures db.Cards() != [] ==> (reply.Some? <==> CardsText(symbol, db.Cards()).Some?)
    ensures db.Cards() != [] && reply.Some? ==> reply.value == LimitsHeader + "\n\n" + CardsText(symbol, db.Cards()).value
    ensures SpendsNonNegative(db.cartoes) ==> reply.Some?
  {
    if SpendsNonNegative(db.cartoes) {
      ListedSpends(db.ordem, db.cartoes);
      LimitsReplyDefined(symbol, db.Cards());
    }
    var cartoes := db.Cards();
    if |cartoes| == 0 {
      return Some(NoCardsReply);
    }
    var formatados := RenderCards(symbol, cartoes);
    if formatados.None? {
      return None;
    }
    reply := Some(LimitsHeader + "\n\n" + formatados.value);
  }

  // ---------------------------------------------------------------- adding a card

  datatype AddPlan = AddShowUsage | AddBadLimit | AddCall(nome: string, limite: int)

  /** `partes[1] || '0'`: the limit token, `"0"` when there is none. */
  function LimitToken(partes: seq<string>): string
  {
    if |partes| >= 2 && partes[1] != "" then partes[1] else "0"
  }

  /** What `addCartao` decides from its tokens. */
  function PlanAddCard(partes: seq<string>): (p: AddPlan)
    ensures p.AddShowUsage? <==> partes == []
    ensures p.AddBadLimit? <==> partes != [] && ParseAmount(LimitToken(partes)).None?
    ensures p.AddCall? ==> p.nome == partes[0] && ParseAmount(LimitToken(partes)) == Some(p.limite) && p.limite >= 0
  {
    if |partes| < 1 then AddShowUsage
    else
      match ParseAmount(LimitToken(partes))
      case None => AddBadLimit
      case Some(limite) => AddCall(partes[0], limite)
  }

  /** A card named without a limit gets the limit 0. */
  lemma AddCardDefaultLimit(nome: string)
    ensures PlanAddCard([nome]) == AddCall(nome, 0)
  {
    ParseAmountZero();
  }

  function AddedReply(symbol: string, nome: string, limite: int): string
  {
    Trim(AddedMessage(nome) + "\n\n💳 *" + nome + "*\n📊 Limite: " + FormatBRL(symbol, limite))
  }

  /** What `addCartao` did, given the ledger before (`c0`, `o0`, `m0`) and its reply. */
  ghost predicate AddCardEffect(db: Ledger, symbol: string, args: string, now: Clock,
                                c0: map<string, Card>, o0: seq<string>, m0: map<string, Month>, reply: string)
    reads db
  {
    match PlanAddCard(SplitArgs(args))
    case AddShowUsage => reply == AddUsage && Kept(db, c0, o0, m0)
    case AddBadLimit => reply == BadLimit && Kept(db, c0, o0, m0)
    case AddCall(nome, limite) =>
      if CardKey(nome) in c0 then reply == CardExists && Kept(db, c0, o0, m0)
      else
        reply == AddedReply(symbol, nome, limite)
        && Kept(db, c0[CardKey(nome) := Card(Trim(nome), limite, 0, now)], o0 + [CardKey(nome)], m0)
  }

  method AddCartao(db: Ledger, symbol: string, args: string, now: Clock) returns (reply: string)
    modifies db
    ensures AddCardEffect(db, symbol, args, now, old(db.cartoes), old(db.ordem), old(db.meses), reply)
    ensures old(db.Valid()) ==> db.Valid()
    ensures SpendsNonNegative(old(db.cartoes)) ==> SpendsNonNegative(db.cartoes)
  {
    var partes := DividirArgs(args);
    var plan := PlanAddCard(partes);
    if plan.AddShowUsage? {
      return AddUsage;
    }
    if plan.AddBadLimit? {
      return BadLimit;
    }
    AddStepSpends(db.cartoes, db.ordem, plan.nome, plan.limite, now);
    var resultado := db.AddCard(plan.nome, plan.limite, now);
    if resultado.sucesso {
      reply := AddedReply(symbol, plan.nome, plan.limite);
    } else {
      reply := resultado.mensagem;
    }
  }

  // ---------------------------------------------------------------- setting a limit

  datatype SetPlan = SetShowUsage | SetBadLimit | SetCall(nome: string, limite: int)

  /** What `setLimite` decides from its tokens. */
  function PlanSetLimit(partes: seq<string>): (p: SetPlan)
    ensures p.SetShowUsage? <==> |partes| < 2
    ensures p.SetBadLimit? <==> |partes| >= 2 && ParseAmount(partes[1]).None?
    ensures p.SetCall? ==> p.nome == partes[0] && ParseAmount(partes[1]) == Some(p.limite) && p.limite >= 0
  {
    if |partes| < 2 then SetShowUsage
    else
      match ParseAmount(partes[1])
      case None => SetBadLimit
      case Some(limite) => SetCall(partes[0], limite)
  }

  /** What `setLimite` did. */
  ghost predicate SetLimitEffect(db: Ledger, args: string,
                                 c0: map<string, Card>, o0: seq<string>, m0: map<string, Month>, reply: string)
    reads db
  {
    match PlanSetLimit(SplitArgs(args))
    case SetShowUsage => reply == SetLimitUsage && Kept(db, c0, o0, m0)
    case SetBadLimit => reply == BadLimit && Kept(db, c0, o0, m0)
    case SetCall(nome, limite) =>
      if CardKey(nome) !in c0 then reply == CardNotFound && Kept(db, c0, o0, m0)
      else
        var c := c0[CardKey(nome)];
        reply == "✅ Limite do cartão *" + c.nome + "* atualizado para R$ " + FixedComma(limite) + "!"
        && Kept(db, c0[CardKey(nome) := c.(limite := limite)], o0, m0)
  }

  method SetLimite(db: Ledger, args: string) returns (reply: string)
    modifies db
    ensures SetLimitEffect(db, args, old(db.cartoes), old(db.ordem), old(db.meses), reply)
    ensures old(db.Valid()) ==> db.Valid()
    ensures SpendsNonNegative(old(db.cartoes)) ==> SpendsNonNegative(db.cartoes)
  {
    var partes := DividirArgs(args);
    var plan := PlanSetLimit(partes);
    if plan.SetShowUsage? {
      return SetLimitUsage;
    }
    if plan.SetBadLimit? {
      return BadLimit;
    }
    if CardKey(plan.nome) in db.cartoes {
      SetLimitSpends(db.cartoes, CardKey(plan.nome), plan.limite);
    }
    var resultado := db.SetLimit(plan.nome, plan.limite);
    reply := resultado.mensagem;
  }

  // ---------------------------------------------------------------- expenses

  /** `cartoes.find(c => c.nome.toLowerCase() === alvo)`: the first card with that lower-cased name. */
  function FindCard(cards: seq<Card>, alvo: string): (r: Option<Card>)
    ensures r.Some? ==> r.value in cards && Lower(r.value.nome) == alvo
    ensures r.None? <==> forall k :: 0 <= k < |cards| ==> Lower(cards[k].nome) != alvo
  {
    if cards == [] then None
    else if Lower(cards[0].nome) == alvo then Some(cards[0])
    else
      var r := FindCard(cards[1..], alvo);
      assert forall k :: 1 <= k < |cards| ==> cards[k] == cards[1..][k - 1];
      r
  }

  /**
    In a valid ledger, searching the card list by lower-cased name is the
    same as looking the name up as a key.
  */
  lemma FindCardByKey(cartoes: map<string, Card>, ordem: seq<string>, meses: map<string, Month>, alvo: string)
    requires LedgerValid(cartoes, ordem, meses)
    ensures FindCard(Listed(ordem, cartoes), alvo) == if alvo in cartoes then Some(cartoes[alvo]) else None
  {
    var cards := Listed(ordem, cartoes);
    ListedAll(ordem, cartoes);
    assert forall i :: 0 <= i < |cards| ==> Lower(cards[i].nome) == ordem[i];
    if alvo in cartoes {
      var i :| 0 <= i < |ordem| && ordem[i] == alvo;
      assert Lower(cards[i].nome) == alvo;
      var r := FindCard(cards, alvo);
      var j :| 0 <= j < |cards| && cards[j] == r.value;
      assert ordem[j] == alvo;
    }
  }

  datatype ExpensePlan = ExpenseShowUsage | ExpenseInvalid
                       | ExpenseRecord(valor: int, descricao: string, cartao: Option<string>)

  /**
    What `registrarGasto` decides: the amount must parse and be positive;
    the last token names a card when a card has that name (compared in lower
    case) and there are at least three tokens, and is then left out of the
    description.
  */
  function PlanExpense(partes: seq<string>, cards: seq<Card>): (p: ExpensePlan)
    ensures p.ExpenseShowUsage? <==> |partes| < 2
    ensures p.ExpenseInvalid? <==>
      |partes| >= 2 && (ParseAmount(partes[0]).None? || ParseAmount(partes[0]).value <= 0)
    ensures p.ExpenseRecord? ==> ParseAmount(partes[0]) == Some(p.valor) && p.valor > 0
    ensures p.ExpenseRecord? ==>
      (p.cartao.Some? <==> |partes| >= 3 && FindCard(cards, Lower(partes[|partes| - 1])).Some?)
    ensures p.ExpenseRecord? && p.cartao.Some? ==>
      p.cartao.value == FindCard(cards, Lower(partes[|partes| - 1])).value.nome
      && p.descricao == Join(partes[1..|partes| - 1], " ")
    ensures p.ExpenseRecord? && p.cartao.None? ==> p.descricao == Join(partes[1..], " ")
  {
    if |partes| < 2 then ExpenseShowUsage
    else
      match ParseAmount(partes[0])
      case None => ExpenseInvalid
      case Some(valor) =>
        if valor <= 0 then ExpenseInvalid
        else
          var achado := FindCard(cards, Lower(partes[|partes| - 1]));
          if achado.Some? && |partes| >= 3 then
            ExpenseRecord(valor, Join(partes[1..|partes| - 1], " "), Some(achado.value.nome))
          else ExpenseRecord(valor, Join(partes[1..], " "), None)
  }

  /**
    In a valid ledger a recorded expense names a card exactly when there are
    at least three tokens and the last one, in lower case, is a card key; and
    the card named is charged under that very key.
  */
  lemma ExpenseChargesNamedCard(cartoes: map<string, Card>, ordem: seq<string>, meses: map<string, Month>,
                                partes: seq<string>)
    requires LedgerValid(cartoes, ordem, meses)
    requires PlanExpense(partes, Listed(ordem, cartoes)).ExpenseRecord?
    ensures var p := PlanExpense(partes, Listed(ordem, cartoes));
      var alvo := Lower(partes[|partes| - 1]);
      (p.cartao.Some? <==> |partes| >= 3 && alvo in cartoes)
      && (p.cartao.Some? ==> p.cartao.value == cartoes[alvo].nome && CardKey(p.cartao.value) == alvo)
  {
    var alvo := Lower(partes[|partes| - 1]);
    FindCardByKey(cartoes, ordem, meses, alvo);
    if alvo in cartoes {
      var n := cartoes[alvo].nome;
      LowerTrimCommute(n);
      TrimmedIsFixed(n);
    }
  }

  function ExpenseReply(symbol: string, valor: int, descricao: string, cartao: Option<string>, t: Totals): string
  {
    var cartaoInfo := if Truthy(cartao) then "\n💳 Cartão: *" + cartao.value + "*" else "";
    Trim("🔴 *GASTO REGISTRADO*\n" + Rule + "\n\n💸 Valor: *" + FormatBRL(symbol, valor) + "*\n📝 Descrição: "
         + descricao + cartaoInfo + "\n\n📊 *Resumo do mês:*\n• Gastos: " + FormatBRL(symbol, t.gastos)
         + "\n• Receitas: " + FormatBRL(symbol, t.receitas) + "\n• Saldo: " + FormatBRL(symbol, t.saldo))
  }

  /** What `registrarGasto` did; the card list it searched is the one before the call. */
  ghost predicate ExpenseEffect(db: Ledger, symbol: string, args: string, now: Clock,
                                c0: map<string, Card>, o0: seq<string>, m0: map<string, Month>, reply: string)
    reads db
  {
    match PlanExpense(SplitArgs(args), Listed(o0, c0))
    case ExpenseShowUsage => reply == ExpenseUsage && Kept(db, c0, o0, m0)
    case ExpenseInvalid => reply == BadExpense && Kept(db, c0, o0, m0)
    case ExpenseRecord(valor, descricao, cartao) =>
      var key := MonthKey(now);
      var mes := AddEntry(MonthOf(m0, key), Gasto, NewEntry(valor, descricao, cartao, now));
      Kept(db, Charge(c0, Gasto, cartao, valor), o0, m0[key := mes])
      && reply == ExpenseReply(symbol, valor, descricao, cartao, MonthTotals(mes))
  }

  method RegistrarGasto(db: Ledger, symbol: string, args: string, now: Clock) returns (reply: string)
    modifies db
    ensures ExpenseEffect(db, symbol, args, now, old(db.cartoes), old(db.ordem), old(db.meses), reply)
    ensures old(db.Valid()) ==> db.Valid()
    ensures SpendsNonNegative(old(db.cartoes)) ==> SpendsNonNegative(db.cartoes)
  {
    var partes := DividirArgs(args);
    var plan := PlanExpense(partes, db.Cards());
    if plan.ExpenseShowUsage? {
      return ExpenseUsage;
    }
    if plan.ExpenseInvalid? {
      return BadExpense;
    }
    ChargeSpends(db.cartoes, Gasto, plan.cartao, plan.valor);
    var resultado := db.RecordEntry(Gasto, plan.valor, plan.descricao, plan.cartao, now);
    reply := ExpenseReply(symbol, plan.valor, plan.descricao, plan.cartao, resultado.totais);
  }

  // ---------------------------------------------------------------- incomes

  datatype IncomePlan = IncomeShowUsage | IncomeInvalid | IncomeRecord(valor: int, descricao: string)

  /** What `registrarReceita` decides: a positive amount, then the rest as description. */
  function PlanIncome(partes: seq<string>): (p: IncomePlan)
    ensures p.IncomeShowUsage? <==> |partes| < 2
    ensures p.IncomeInvalid? <==>
      |partes| >= 2 && (ParseAmount(partes[0]).None? || ParseAmount(partes[0]).value <= 0)
    ensures p.IncomeRecord? ==>
      ParseAmount(partes[0]) == Some(p.valor) && p.valor > 0 && p.descricao == Join(partes[1..], " ")
  {
    if |partes| < 2 then IncomeShowUsage
    else
      match ParseAmount(partes[0])
      case None => IncomeInvalid
      case Some(valor) => if valor <= 0 then IncomeInvalid else IncomeRecord(valor, Join(partes[1..], " "))
  }

  function IncomeReply(symbol: string, valor: int, descricao: string, t: Totals): string
  {
    Trim("🟢 *RECEITA REGISTRADA*\n" + Rule + "\n\n💰 Valor: *" + FormatBRL(symbol, valor) + "*\n📝 Descrição: "
         + descricao + "\n\n📊 *Resumo do mês:*\n• Receitas: " + FormatBRL(symbol, t.receitas)
         + "\n• Gastos: " + FormatBRL(symbol, t.gastos) + "\n• Saldo: " + FormatBRL(symbol, t.saldo))
  }

  /** What `registrarReceita` did. */
  ghost predicate IncomeEffect(db: Ledger, symbol: string, args: string, now: Clock,
                               c0: map<string, Card>, o0: seq<string>, m0: map<string, Month>, reply: string)
    reads db
  {
    match PlanIncome(SplitArgs(args))
    case IncomeShowUsage => reply == IncomeUsage && Kept(db, c0, o0, m0)
    case IncomeInvalid => reply == BadIncome && Kept(db, c0, o0, m0)
    case IncomeRecord(valor, descricao) =>
      var key := MonthKey(now);
      var mes := AddEntry(MonthOf(m0, key), Receita, NewEntry(valor, descricao, None, now));
      Kept(db, c0, o0, m0[key := mes])
      && reply == IncomeReply(symbol, valor, descricao, MonthTotals(mes))
  }

  method RegistrarReceita(db: Ledger, symbol: string, args: string, now: Clock) returns (reply: string)
    modifies db
    ensures IncomeEffect(db, symbol, args, now, old(db.cartoes), old(db.ordem), old(db.meses), reply)
    ensures old(db.Valid()) ==> db.Valid()
    ensures SpendsNonNegative(old(db.cartoes)) ==> SpendsNonNegative(db.cartoes)
  {
    var partes := DividirArgs(args);
    var plan := PlanIncome(partes);
    if plan.IncomeShowUsage? {
      return IncomeUsage;
    }
    if plan.IncomeInvalid? {
      return BadIncome;
    }
    ChargeSpends(db.cartoes, Receita, None, plan.valor);
    var resultado := db.RecordEntry(Receita, plan.valor, plan.descricao, None, now);
    reply := IncomeReply(symbol, plan.valor, plan.descricao, resultado.totais);
  }

  // ---------------------------------------------------------------- statement

  function Reverse<T>(s: seq<T>): (r: seq<T>)
    ensures |r| == |s| && forall i :: 0 <= i < |s| ==> r[i] == s[|s| - 1 - i]
  {
    if s == [] then [] else [s[|s| - 1]] + Reverse(s[..|s| - 1])
  }

  /** `slice(-n).reverse()`: the last `n` items, newest first. */
  function Latest<T>(s: seq<T>, n: nat): (r: seq<T>)
    ensures |r| == Min(n, |s|)
    ensures forall i :: 0 <= i < |r| ==> r[i] == s[|s| - 1 - i]
  {
    Reverse(s[|s| - Min(n, |s|)..])
  }

  /** The lines of some entries, each followed by a line break. */
  function EntryLines(symbol: string, es: seq<Entry>, tipo: string): string
  {
    if es == [] then "" else EntryLines(symbol, es[..|es| - 1], tipo) + EntryLine(symbol, es[|es| - 1], tipo) + "\n"
  }

  /** One section of the statement: a placeholder, or the latest entries' lines. */
  function Section(symbol: string, es: seq<Entry>, tipo: string, none: string): string
  {
    if es == [] then none else EntryLines(symbol, Latest(es, Shown), tipo)
  }

  /** The marker of the balance: green when it is not negative, red otherwise. */
  function BalanceEmoji(saldo: int): (e: string)
    ensures e == "🟢" <==> saldo >= 0
    ensures e == "🔴" <==> saldo < 0
  {
    if saldo >= 0 then "🟢" else "🔴"
  }

  function StatementTop(s: Statement): string
  {
    "📊 *EXTRATO - " + s.mes + "*\n" + Rule
  }

  function StatementSummary(symbol: string, s: Statement): string
  {
    "\n" + Rule + "\n📈 *RESUMO*\n\n💰 Receitas: " + FormatBRL(symbol, s.totalReceitas)
    + "\n💸 Gastos: " + FormatBRL(symbol, s.totalGastos)
    + "\n" + BalanceEmoji(s.saldo) + " Saldo: *" + FormatBRL(symbol, s.saldo) + "*"
  }

  /** The text `extrato` builds, before its final `trim`. */
  function StatementRaw(symbol: string, s: Statement): string
  {
    StatementTop(s) + "\n\n🔴 *Últimos Gastos:*\n" + Section(symbol, s.gastos, Gasto, NoExpenses)
    + "\n🟢 *Últimas Receitas:*\n" + Section(symbol, s.receitas, Receita, NoIncomes)
    + StatementSummary(symbol, s) + "\n  "
  }

  /** `extrato`'s reply. */
  function StatementText(symbol: string, s: Statement): string
  {
    Trim(StatementRaw(symbol, s))
  }

  /** The final `trim` only drops the line break and spaces after the balance line. */
  lemma StatementTextEnds(symbol: string, s: Statement)
    ensures var core := StatementRaw(symbol, s)[..|StatementRaw(symbol, s)| - 3];
      StatementText(symbol, s) == core && core[0] == '📊' && core[|core| - 1] == '*'
  {
    var top := StatementTop(s);
    var summary := StatementSummary(symbol, s);
    var body := top + "\n\n🔴 *Últimos Gastos:*\n" + Section(symbol, s.gastos, Gasto, NoExpenses)
      + "\n🟢 *Últimas Receitas:*\n" + Section(symbol, s.receitas, Receita, NoIncomes)
      + summary;
    assert StatementRaw(symbol, s) == body + "\n  ";
    assert top[0] == '📊';
    assert summary[|summary| - 1] == '*';
    assert body[0] == top[0];
    assert body[|body| - 1] == summary[|summary| - 1];
    TrimDropsPad(body);
  }

  /** Text that starts and ends with a visible character comes back from `trim` without the padding. */
  lemma TrimDropsPad(body: string)
    requires body != [] && !IsWhitespace(body[0]) && !IsWhitespace(body[|body| - 1])
    ensures (body + "\n  ")[..|body + "\n  "| - 3] == body
    ensures Trim(body + "\n  ") == body
  {
    assert AllWhitespace("\n  ");
    TrimOfPadded([], body, "\n  ");
    assert [] + body + "\n  " == body + "\n  ";
  }

  lemma ConcatAssoc(a: string, b: string, c: string)
    ensures a + b + c == a + (b + c)
  {
  }

  lemma EntryLinesSnoc(symbol: string, es: seq<Entry>, i: nat, tipo: string)
    requires i < |es|
    ensures EntryLines(symbol, es[..i + 1], tipo) == EntryLines(symbol, es[..i], tipo) + (EntryLine(symbol, es[i], tipo) + "\n")
  {
    assert es[..i + 1][..i] == es[..i];
  }

  /** Appends the lines of some entries, one per iteration. */
  method AppendLines(texto: string, symbol: string, es: seq<Entry>, tipo: string) returns (r: string)
    ensures r == texto + EntryLines(symbol, es, tipo)
  {
    r := texto;
    var i := 0;
    while i < |es|
      invariant 0 <= i <= |es|
      invariant r == texto + EntryLines(symbol, es[..i], tipo)
    {
      var linha := EntryLine(symbol, es[i], tipo) + "\n";
      EntryLinesSnoc(symbol, es, i, tipo);
      ConcatAssoc(texto, EntryLines(symbol, es[..i], tipo), linha);
      r := r + linha;
      i := i + 1;
    }
    assert es[..i] == es;
  }

  method Extrato(db: Ledger, symbol: string, now: Clock) returns (reply: string)
    ensures reply == StatementText(symbol, db.GetStatement(None, now))
  {
    var dados := db.GetStatement(None, now);
    var texto := StatementTop(dados);
    texto := texto + "\n\n🔴 *Últimos Gastos:*\n";
    if |dados.gastos| == 0 {
      texto := texto + NoExpenses;
    } else {
      texto := AppendLines(texto, symbol, Latest(dados.gastos, Shown), Gasto);
    }
    texto := texto + "\n🟢 *Últimas Receitas:*\n";
    if |dados.receitas| == 0 {
      texto := texto + NoIncomes;
    } else {
      texto := AppendLines(texto, symbol, Latest(dados.receitas, Shown), Receita);
    }
    texto := texto + StatementSummary(symbol, dados) + "\n  ";
    reply := Trim(texto);
  }

  // ---------------------------------------------------------------- closing the month

  function CloseReply(symbol: string, mensagem: string, antes: Statement): string
  {
    Trim("🔒 *MÊS FECHADO*\n" + Rule + "\n\n" + mensagem + "\n\n📊 *Resumo do mês fechado:*\n• Receitas: "
         + FormatBRL(symbol, antes.totalReceitas) + "\n• Gastos: " + FormatBRL(symbol, antes.totalGastos)
         + "\n• Saldo final: " + FormatBRL(symbol, antes.saldo)
         + "\n\n📌 _Gastos dos cartões foram resetados para o novo mês._")
  }

  /** The confirmation `fecharMes` of the ledger returns. */
  function ClosedMessage(now: Clock): string
  {
    "✅ Mês *" + MonthKey(now) + "* fechado com sucesso!\n💳 Gastos dos cartões resetados."
  }

  /** What `fecharMes` did: only the cards' spending is reset. */
  ghost predicate CloseEffect(db: Ledger, symbol: string, now: Clock,
                              c0: map<string, Card>, o0: seq<string>, m0: map<string, Month>, reply: string)
    reads db
  {
    var antes := StatementOf(m0, None, now);
    ResetAll(c0, db.cartoes) && db.ordem == o0 && db.meses == m0
    && reply == CloseReply(symbol, ClosedMessage(now), antes)
  }

  /**
    `fecharMes`: the summary is the statement read before closing, and the
    month's book is kept as it was, so the statement after closing is the
    same one.
  */
  method FecharMes(db: Ledger, symbol: string, now: Clock) returns (reply: string)
    modifies db
    ensures CloseEffect(db, symbol, now, old(db.cartoes), old(db.ordem), old(db.meses), reply)
    ensures db.GetStatement(None, now) == old(db.GetStatement(None, now))
    ensures old(db.Valid()) ==> db.Valid()
    ensures SpendsNonNegative(db.cartoes)
  {
    var extratoAntes := db.GetStatement(None, now);
    var resultado := db.CloseMonth(now);
    ResetSpends(old(db.cartoes), db.cartoes);
    reply := CloseReply(symbol, resultado.mensagem, extratoAntes);
  }

  // ---------------------------------------------------------------- receipts

  /** `recibo`: a placeholder whose reply never varies (the template's `trim` leaves it as written). */
  function Recibo(): string
  {
    ReceiptReply
  }
}
