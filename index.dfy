/**
  The message dispatcher: it takes the text out of an incoming message,
  keeps only texts that start with the configured prefix, splits off the
  command word, and routes it to the menu, the quick help, a handler of
  the command table, or the "not found" reply.
*/
module Dispatcher {
  import opened Wrappers
  import opened Text
  import opened Money
  import opened Records
  import opened Args
  import opened Database
  import opened Finance
  import opened Registry
  import opened PingCommand

  /** The settings the dispatcher reads: the command prefix and the currency symbol. */
  datatype Config = Config(prefixo: string, simboloMoeda: string)

  /** `config.prefixo || '!'`. */
  function Prefix(config: Config): string
  {
    if config.prefixo != "" then config.prefixo else "!"
  }

  /**
    The parts of a message that may carry text: the plain text, the text of
    an extended message and the captions of an image, a video or a document.
  */
  datatype Content = Content(conversation: Option<string>, extendedText: Option<string>,
                             imageCaption: Option<string>, videoCaption: Option<string>,
                             documentCaption: Option<string>)

  // ---------------------------------------------------------------- message text

  /** `getMessageText`: the first of the parts that holds a non-empty text. */
  function GetMessageText(message: Option<Content>): (r: Option<string>)
    ensures r.Some? ==> r.value != ""
  {
    if message.None? then None
    else
      var c := message.value;
      if Truthy(c.conversation) then c.conversation
      else if Truthy(c.extendedText) then c.extendedText
      else if Truthy(c.imageCaption) then c.imageCaption
      else if Truthy(c.videoCaption) then c.videoCaption
      else if Truthy(c.documentCaption) then c.documentCaption
      else None
  }

  function Candidates(c: Content): seq<Option<string>>
  {
    [c.conversation, c.extendedText, c.imageCaption, c.videoCaption, c.documentCaption]
  }

  /** The first candidate holding a non-empty text. */
  function FirstTruthy(cs: seq<Option<string>>): Option<string>
  {
    if cs == [] then None else if Truthy(cs[0]) then cs[0] else FirstTruthy(cs[1..])
  }

  /** A text is found exactly when some candidate has one, and it is the first such candidate. */
  lemma {:induction false} FirstTruthyIsFirst(cs: seq<Option<string>>)
    ensures FirstTruthy(cs).None? <==> forall i :: 0 <= i < |cs| ==> !Truthy(cs[i])
    ensures FirstTruthy(cs).Some? ==>
      exists i :: 0 <= i < |cs| && cs[i] == FirstTruthy(cs) && Truthy(cs[i])
                  && forall j :: 0 <= j < i ==> !Truthy(cs[j])
  {
    if cs != [] && !Truthy(cs[0]) {
      FirstTruthyIsFirst(cs[1..]);
      assert forall i :: 1 <= i < |cs| ==> cs[i] == cs[1..][i - 1];
      if FirstTruthy(cs).Some? {
        var i :| 0 <= i < |cs[1..]| && cs[1..][i] == FirstTruthy(cs[1..]) && Truthy(cs[1..][i])
                 && forall j :: 0 <= j < i ==> !Truthy(cs[1..][j]);
        assert cs[i + 1] == FirstTruthy(cs) && forall j :: 0 <= j < i + 1 ==> !Truthy(cs[j]);
      }
    }
  }

  /** The chain of checks is the first-candidate rule over the five parts, in that order. */
  lemma GetMessageTextIsFirst(message: Option<Content>)
    ensures GetMessageText(message) == if message.None? then None else FirstTruthy(Candidates(message.value))
  {
    if message.Some? {
      var c := message.value;
      var c4 := [c.documentCaption];
      var c3 := [c.videoCaption] + c4;
      var c2 := [c.imageCaption] + c3;
      var c1 := [c.extendedText] + c2;
      assert Candidates(c) == [c.conversation] + c1;
      assert FirstTruthy(c4) == if Truthy(c.documentCaption) then c.documentCaption else None by {
        assert c4[1..] == [];
      }
      assert FirstTruthy(c3) == if Truthy(c.videoCaption) then c.videoCaption else FirstTruthy(c4) by {
        assert c3[1..] == c4;
      }
      assert FirstTruthy(c2) == if Truthy(c.imageCaption) then c.imageCaption else FirstTruthy(c3) by {
        assert c2[1..] == c3;
      }
      assert FirstTruthy(c1) == if Truthy(c.extendedText) then c.extendedText else FirstTruthy(c2) by {
        assert c1[1..] == c2;
      }
      assert ([c.conversation] + c1)[1..] == c1;
    }
  }

  // ---------------------------------------------------------------- command word

  datatype Parsed = Parsed(comando: string, args: string)

  /**
    The text after the prefix, trimmed and split at runs of white space: the
    first piece in lower case is the command, the others joined by single
    spaces are its arguments.
  */
  function ParseCommand(text: string, prefixo: string): Parsed
  {
    var pieces := SplitWhitespace(Trim(SliceFrom(text, |prefixo|)));
    Parsed(Lower(pieces[0]), Join(pieces[1..], " "))
  }

  lemma {:induction false} JoinWordsTrimmed(ws: seq<string>)
    requires ws != [] && forall k :: 0 <= k < |ws| ==> ws[k] != [] && NoWhitespace(ws[k])
    ensures Join(ws, " ") != [] && IsTrimmed(Join(ws, " "))
    ensures Join(ws, " ")[|Join(ws, " ")| - 1] == ws[|ws| - 1][|ws[|ws| - 1]| - 1]
  {
    JoinStartsWithWord(ws);
    if |ws| > 1 {
      JoinWordsTrimmed(ws[1..]);
      assert ws[1..][|ws[1..]| - 1] == ws[|ws| - 1];
    }
  }

  /** A command typed as words separated by single spaces is read back word for word. */
  lemma ParseTypedCommand(prefixo: string, ws: seq<string>)
    requires ws != [] && forall k :: 0 <= k < |ws| ==> ws[k] != [] && NoWhitespace(ws[k])
    ensures ParseCommand(prefixo + Join(ws, " "), prefixo) == Parsed(Lower(ws[0]), Join(ws[1..], " "))
  {
    var text := prefixo + Join(ws, " ");
    assert SliceFrom(text, |prefixo|) == Join(ws, " ");
    JoinWordsTrimmed(ws);
    TrimmedIsFixed(Join(ws, " "));
    SplitJoinSpaces(ws);
  }

  /** Words without spaces are typed as they are, so the argument splitter gets them back. */
  lemma {:induction false} TypedWords(ws: seq<string>)
    requires ws != [] && forall k :: 0 <= k < |ws| ==> ws[k] != [] && NoWhitespace(ws[k])
    ensures Typed(ws) == Join(ws, " ")
  {
    if |ws| > 1 {
      TypedWords(ws[1..]);
    }
  }

  /**
    End to end: the words typed after the command word reach the handler's
    argument splitter as exactly those words.
  */
  lemma ArgumentsReachHandler(prefixo: string, ws: seq<string>)
    requires |ws| >= 2 && forall k :: 0 <= k < |ws| ==> ws[k] != [] && NoWhitespace(ws[k]) && NoQuotes(ws[k])
    ensures SplitArgs(ParseCommand(prefixo + Join(ws, " "), prefixo).args) == ws[1..]
  {
    ParseTypedCommand(prefixo, ws);
    SplitWords(ws[1..]);
  }

  /** Words without white space or quotes are split back as they were joined. */
  lemma SplitWords(ws: seq<string>)
    requires ws != [] && forall k :: 0 <= k < |ws| ==> ws[k] != [] && NoWhitespace(ws[k]) && NoQuotes(ws[k])
    ensures SplitArgs(Join(ws, " ")) == ws
  {
    TypedWords(ws);
    SplitArgsOfTyped(ws);
  }

  // ---------------------------------------------------------------- routing

  const MenuNames := ["menu", "ajuda", "help", "comandos"]
  const QuickHelpNames := ["dica", "dicas", "inicio", "start"]

  datatype Route = ShowMenu | ShowQuickHelp | RunHandler(h: Handler) | NotFound

  /** The menu words first, then the quick-help words, then the command table. */
  function RouteOf(comando: string): (r: Route)
    ensures r == ShowMenu <==> comando in MenuNames
    ensures r == ShowQuickHelp <==> comando !in MenuNames && comando in QuickHelpNames
    ensures r.RunHandler? <==> comando !in MenuNames && comando !in QuickHelpNames && HasCommand(comando)
    ensures r.RunHandler? ==> GetCommand(comando) == Some(r.h)
  {
    if comando in MenuNames then ShowMenu
    else if comando in QuickHelpNames then ShowQuickHelp
    else
      match GetCommand(comando)
      case Some(h) => RunHandler(h)
      case None => assert !HasCommand(comando) by { HasCommandIffGet(comando); } NotFound
  }

  /** No menu or quick-help word is also in the command table, so checking them first hides no command. */
  lemma SpecialWordsAreNotCommands(comando: string)
    requires Lower(comando) == comando
    requires comando in MenuNames || comando in QuickHelpNames
    ensures !HasCommand(comando)
  {
  }

  function NotFoundReply(prefixo: string, comando: string): string
  {
    "❓ Comando *" + prefixo + comando + "* não encontrado.\n\nDigite *" + prefixo + "menu* para ver os comandos disponíveis."
  }

  const ErrorReply := "❌ Ocorreu um erro ao processar o comando. Tente novamente."

  /** A message that is only the prefix names the empty command, which no table entry matches. */
  lemma BarePrefixNotFound(config: Config, c: Content)
    requires c.conversation == Some(Prefix(config))
    ensures Classify(config, Some(c)) == Command("", "")
    ensures RouteOf("") == NotFound
  {
    var p := Prefix(config);
    assert GetMessageText(Some(c)) == Some(p);
    assert StartsWith(p, p);
    BareParse(p);
    EmptyCommandNotFound();
  }

  /** Parsing the prefix alone gives the empty command with no arguments. */
  lemma BareParse(p: string)
    ensures ParseCommand(p, p) == Parsed("", "")
  {
    assert SliceFrom(p, |p|) == "";
    TrimmedIsFixed("");
    assert SplitWhitespace("") == [""];
    assert Lower("") == "";
  }

  lemma EmptyCommandNotFound()
    ensures RouteOf("") == NotFound
  {
    NamesNonEmpty();
    assert Lower("") == "";
    assert "" !in CommandNames;
  }

  // ---------------------------------------------------------------- processing a message

  datatype Classified = NotCommand | Command(comando: string, args: string)

  /** Which messages are commands, and which command and arguments they carry. */
  function Classify(config: Config, message: Option<Content>): (k: Classified)
    ensures k.Command? <==> GetMessageText(message).Some? && StartsWith(GetMessageText(message).value, Prefix(config))
  {
    match GetMessageText(message)
    case None => NotCommand
    case Some(text) =>
      if !StartsWith(text, Prefix(config)) then NotCommand
      else
        var p := ParseCommand(text, Prefix(config));
        Command(p.comando, p.args)
  }

  /** What the bot does after routing: nothing, the menu, the quick help, or a reply. */
  datatype Outcome = NoReply | SendMenu | SendQuickHelp | Send(text: string)

  /** A handler's answer: a thrown error gets the generic error reply, an empty reply is not sent. */
  function Answer(reply: Option<string>): (o: Outcome)
    ensures reply.None? ==> o == Send(ErrorReply)
    ensures reply.Some? ==> (o == NoReply <==> reply.value == "")
    ensures reply.Some? && reply.value != "" ==> o == Send(reply.value)
  {
    match reply
    case None => Send(ErrorReply)
    case Some(t) => if t == "" then NoReply else Send(t)
  }

  /** The moment and the clock readings a handler may use. */
  datatype Env = Env(now: Clock, uptimeSeconds: nat, hora: string, data: string)

  /** What the handler `h` did to the ledger (`c0`, `o0`, `m0` before) and what it answered. */
  ghost predicate Performed(db: Ledger, h: Handler, symbol: string, args: string, env: Env,
                            c0: map<string, Card>, o0: seq<string>, m0: map<string, Month>, reply: Option<string>)
    reads db
  {
    match h
    case AddCard => reply.Some? && AddCardEffect(db, symbol, args, env.now, c0, o0, m0, reply.value)
    case SetLimit => reply.Some? && SetLimitEffect(db, args, c0, o0, m0, reply.value)
    case RecordExpense => reply.Some? && ExpenseEffect(db, symbol, args, env.now, c0, o0, m0, reply.value)
    case RecordIncome => reply.Some? && IncomeEffect(db, symbol, args, env.now, c0, o0, m0, reply.value)
    case ShowStatement =>
      Kept(db, c0, o0, m0) && reply == Some(StatementText(symbol, StatementOf(m0, None, env.now)))
    case ListLimits => Kept(db, c0, o0, m0) && reply == LimitsReply(symbol, Listed(o0, c0))
    case CloseMonth => reply.Some? && CloseEffect(db, symbol, env.now, c0, o0, m0, reply.value)
    case Receipt => Kept(db, c0, o0, m0) && reply == Some(ReceiptReply)
    case Ping => Kept(db, c0, o0, m0) && reply == Some(PingReply(env.uptimeSeconds, env.hora, env.data))
  }

  /**
    Runs one handler; `None` stands for the error it throws. No handler
    makes a spend negative, and while none is negative no handler throws.
  */
  method RunCommand(db: Ledger, h: Handler, symbol: string, args: string, env: Env) returns (reply: Option<string>)
    modifies db
    ensures Performed(db, h, symbol, args, env, old(db.cartoes), old(db.ordem), old(db.meses), reply)
    ensures old(db.Valid()) ==> db.Valid()
    ensures SpendsNonNegative(old(db.cartoes)) ==> SpendsNonNegative(db.cartoes) && reply.Some?
  {
    match h
    case AddCard =>
      var r := AddCartao(db, symbol, args, env.now);
      reply := Some(r);
    case SetLimit =>
      var r := SetLimite(db, args);
      reply := Some(r);
    case RecordExpense =>
      var r := RegistrarGasto(db, symbol, args, env.now);
      reply := Some(r);
    case RecordIncome =>
      var r := RegistrarReceita(db, symbol, args, env.now);
      reply := Some(r);
    case ShowStatement =>
      var r := Extrato(db, symbol, env.now);
      reply := Some(r);
    case ListLimits =>
      reply := ListarLimites(db, symbol);
    case CloseMonth =>
      var r := FecharMes(db, symbol, env.now);
      reply := Some(r);
    case Receipt =>
      reply := Some(Recibo());
    case Ping =>
      reply := Some(PingReply(env.uptimeSeconds, env.hora, env.data));
  }

  /**
    `processMessage`: messages without text or without the prefix are
    ignored; menu and quick-help words show those texts; a name of the
    table runs its handler and sends its answer; any other word gets the
    "not found" reply built with the prefix.
  */
  method ProcessMessage(db: Ledger, config: Config, message: Option<Content>, env: Env)
    returns (o: Outcome, ghost reply: Option<string>)
    modifies db
    ensures match Classify(config, message)
      case NotCommand => o == NoReply && Kept(db, old(db.cartoes), old(db.ordem), old(db.meses))
      case Command(comando, args) =>
        match RouteOf(comando)
        case ShowMenu => o == SendMenu && Kept(db, old(db.cartoes), old(db.ordem), old(db.meses))
        case ShowQuickHelp => o == SendQuickHelp && Kept(db, old(db.cartoes), old(db.ordem), old(db.meses))
        case NotFound =>
          o == Send(NotFoundReply(Prefix(config), comando)) && Kept(db, old(db.cartoes), old(db.ordem), old(db.meses))
        case RunHandler(h) =>
          Performed(db, h, CurrencySymbol(config.simboloMoeda), args, env,
                    old(db.cartoes), old(db.ordem), old(db.meses), reply)
          && o == Answer(reply)
          && (SpendsNonNegative(old(db.cartoes)) ==> reply.Some?)
    ensures old(db.Valid()) ==> db.Valid()
    ensures SpendsNonNegative(old(db.cartoes)) ==> SpendsNonNegative(db.cartoes)
  {
    reply := None;
    var text := GetMessageText(message);
    var prefixo := Prefix(config);
    if text.None? || !StartsWith(text.value, prefixo) {
      return NoReply, reply;
    }
    var parsed := ParseCommand(text.value, prefixo);
    var route := RouteOf(parsed.comando);
    match route
    case ShowMenu =>
      o := SendMenu;
    case ShowQuickHelp =>
      o := SendQuickHelp;
    case NotFound =>
      o := Send(NotFoundReply(prefixo, parsed.comando));
    case RunHandler(h) =>
      var resposta := RunCommand(db, h, CurrencySymbol(config.simboloMoeda), parsed.args, env);
      reply := resposta;
      o := Answer(resposta);
  }
}
