/**
  The command table: every name a user may type after the prefix, and the
  handler it runs. Names are looked up in lower case.
*/
module Registry {
  import opened Wrappers
  import opened Text

  datatype Handler =
    | AddCard | SetLimit | RecordExpense | RecordIncome | ShowStatement
    | ListLimits | CloseMonth | Receipt | Ping

  /** The names of the table, in the order they are written, aliases of one handler side by side. */
  const CommandNames: seq<string> := [
    "cartao-add", "cartaoadd", "addcartao",
    "cartao-limite", "cartaolimite", "setlimite",
    "gasto", "gastei", "despesa",
    "receita", "recebi", "ganho", "entrada",
    "extrato", "resumo", "saldo",
    "limites", "cartoes", "limite",
    "fechar-mes", "fecharmes", "fechamento",
    "recibo", "comprovante",
    "ping", "status"
  ]

  /** The handler of each name, position by position. */
  const CommandHandlers: seq<Handler> := [
    AddCard, AddCard, AddCard,
    SetLimit, SetLimit, SetLimit,
    RecordExpense, RecordExpense, RecordExpense,
    RecordIncome, RecordIncome, RecordIncome, RecordIncome,
    ShowStatement, ShowStatement, ShowStatement,
    ListLimits, ListLimits, ListLimits,
    CloseMonth, CloseMonth, CloseMonth,
    Receipt, Receipt,
    Ping, Ping
  ]

  /** The position of the first occurrence of `name`, or the length when it does not occur. */
  function Find(names: seq<string>, name: string): (i: nat)
    ensures i <= |names|
    ensures i < |names| ==> names[i] == name
    ensures forall j :: 0 <= j < i ==> names[j] != name
    ensures i == |names| <==> name !in names
  {
    if names == [] then 0
    else if names[0] == name then 0
    else
      var i := Find(names[1..], name);
      assert forall j :: 1 <= j < |names| ==> names[j] == names[1..][j - 1];
      1 + i
  }

  /** `getCommand`: the handler of the lower-cased name, if there is one. */
  function GetCommand(comando: string): Option<Handler>
  {
    var i := Find(CommandNames, Lower(comando));
    if i < |CommandHandlers| then Some(CommandHandlers[i]) else None
  }

  /** `hasCommand`. */
  predicate HasCommand(comando: string)
  {
    Lower(comando) in CommandNames
  }

  /** `listCommands`: the names, in table order. */
  function ListCommands(): seq<string>
  {
    CommandNames
  }

  /** Checking for a name and fetching its handler agree. */
  lemma HasCommandIffGet(comando: string)
    ensures HasCommand(comando) <==> GetCommand(comando).Some?
  {
  }

  /** Case does not matter: a name and its lower-cased form select the same handler. */
  lemma GetCommandIgnoresCase(comando: string)
    ensures GetCommand(comando) == GetCommand(Lower(comando))
    ensures HasCommand(comando) == HasCommand(Lower(comando))
  {
    LowerIdempotent(comando);
  }

  /** No name is listed twice, so the object literal loses no entry; every handler has a name. */
  lemma NamesDistinct()
    ensures |ListCommands()| == |CommandHandlers| == 26
    ensures forall a, b :: 0 <= a < b < |ListCommands()| ==> ListCommands()[a] != ListCommands()[b]
  {
  }

  predicate LowerCased(s: string)
  {
    forall i :: 0 <= i < |s| ==> LowerChar(s[i]) == s[i]
  }

  lemma LowerOfLowerCased(s: string)
    requires LowerCased(s)
    ensures Lower(s) == s
  {
  }

  /** No name of the table is empty. */
  lemma NamesNonEmpty()
    ensures forall i :: 0 <= i < |CommandNames| ==> CommandNames[i] != []
  {
  }

  /** Every name in the table, typed in any case, runs the handler listed with it. */
  lemma EveryAliasRoutes(i: nat, typed: string)
    requires i < |CommandNames| && Lower(typed) == CommandNames[i]
    ensures GetCommand(typed) == Some(CommandHandlers[i])
  {
    NamesDistinct();
    FindDistinct(CommandNames, i);
  }

  /** In a list without repeats, searching for the name at a position finds that position. */
  lemma FindDistinct(names: seq<string>, i: nat)
    requires i < |names|
    requires forall a, b :: 0 <= a < b < |names| ==> names[a] != names[b]
    ensures Find(names, names[i]) == i
  {
  }

  /** Adding a card answers to these names, typed in any case. */
  lemma CardAddAliases(typed: string)
    requires Lower(typed) == "cartao-add" || Lower(typed) == "cartaoadd" || Lower(typed) == "addcartao"
    ensures GetCommand(typed) == Some(AddCard)
  {
    if Lower(typed) == "cartao-add" {
      EveryAliasRoutes(0, typed);
    } else if Lower(typed) == "cartaoadd" {
      EveryAliasRoutes(1, typed);
    } else {
      EveryAliasRoutes(2, typed);
    }
  }

  /** Setting a limit answers to these names, typed in any case. */
  lemma CardLimitAliases(typed: string)
    requires Lower(typed) == "cartao-limite" || Lower(typed) == "cartaolimite" || Lower(typed) == "setlimite"
    ensures GetCommand(typed) == Some(SetLimit)
  {
    if Lower(typed) == "cartao-limite" {
      EveryAliasRoutes(3, typed);
    } else if Lower(typed) == "cartaolimite" {
      EveryAliasRoutes(4, typed);
    } else {
      EveryAliasRoutes(5, typed);
    }
  }

  /** Recording an expense answers to these names, typed in any case. */
  lemma ExpenseAliases(typed: string)
    requires Lower(typed) == "gasto" || Lower(typed) == "gastei" || Lower(typed) == "despesa"
    ensures GetCommand(typed) == Some(RecordExpense)
  {
    if Lower(typed) == "gasto" {
      EveryAliasRoutes(6, typed);
    } else if Lower(typed) == "gastei" {
      EveryAliasRoutes(7, typed);
    } else {
      EveryAliasRoutes(8, typed);
    }
  }

  /** Recording an income answers to these names, typed in any case. */
  lemma IncomeAliases(typed: string)
    requires Lower(typed) == "receita" || Lower(typed) == "recebi" || Lower(typed) == "ganho" || Lower(typed) == "entrada"
    ensures GetCommand(typed) == Some(RecordIncome)
  {
    if Lower(typed) == "receita" {
      EveryAliasRoutes(9, typed);
    } else if Lower(typed) == "recebi" {
      EveryAliasRoutes(10, typed);
    } else if Lower(typed) == "ganho" {
      EveryAliasRoutes(11, typed);
    } else {
      EveryAliasRoutes(12, typed);
    }
  }

  /** The statement answers to these names, typed in any case. */
  lemma StatementAliases(typed: string)
    requires Lower(typed) == "extrato" || Lower(typed) == "resumo" || Lower(typed) == "saldo"
    ensures GetCommand(typed) == Some(ShowStatement)
  {
    if Lower(typed) == "extrato" {
      EveryAliasRoutes(13, typed);
    } else if Lower(typed) == "resumo" {
      EveryAliasRoutes(14, typed);
    } else {
      EveryAliasRoutes(15, typed);
    }
  }

  /** Listing the limits answers to these names, typed in any case. */
  lemma LimitsAliases(typed: string)
    requires Lower(typed) == "limites" || Lower(typed) == "cartoes" || Lower(typed) == "limite"
    ensures GetCommand(typed) == Some(ListLimits)
  {
    if Lower(typed) == "limites" {
      EveryAliasRoutes(16, typed);
    } else if Lower(typed) == "cartoes" {
      EveryAliasRoutes(17, typed);
    } else {
      EveryAliasRoutes(18, typed);
    }
  }

  /** Closing the month answers to these names, typed in any case. */
  lemma CloseAliases(typed: string)
    requires Lower(typed) == "fechar-mes" || Lower(typed) == "fecharmes" || Lower(typed) == "fechamento"
    ensures GetCommand(typed) == Some(CloseMonth)
  {
    if Lower(typed) == "fechar-mes" {
      EveryAliasRoutes(19, typed);
    } else if Lower(typed) == "fecharmes" {
      EveryAliasRoutes(20, typed);
    } else {
      EveryAliasRoutes(21, typed);
    }
  }

  /** The receipt placeholder answers to these names, typed in any case. */
  lemma ReceiptAliases(typed: string)
    requires Lower(typed) == "recibo" || Lower(typed) == "comprovante"
    ensures GetCommand(typed) == Some(Receipt)
  {
    if Lower(typed) == "recibo" {
      EveryAliasRoutes(22, typed);
    } else {
      EveryAliasRoutes(23, typed);
    }
  }

  /** The status check answers to these names, typed in any case. */
  lemma PingAliases(typed: string)
    requires Lower(typed) == "ping" || Lower(typed) == "status"
    ensures GetCommand(typed) == Some(Ping)
  {
    if Lower(typed) == "ping" {
      EveryAliasRoutes(24, typed);
    } else {
      EveryAliasRoutes(25, typed);
    }
  }
}
