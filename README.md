# Finance bot ledger and command layer, in Dafny

This project models the core of a WhatsApp personal-finance bot. Users send
commands such as `!cartao-add Nubank 5000`, `!gasto 50,00 Almoço Nubank` or
`!extrato`. The bot keeps a ledger of credit cards and of monthly books of
expenses and incomes, and answers with formatted texts.

It covers five pieces of the bot:

- **The ledger** (`database.dfy`, module `Database`). A class `Ledger` with:
  - a map of cards, keyed by the lower-cased, trimmed name;
  - the order in which the card keys were added;
  - a map of months, keyed `MM/YYYY`.

  Each month holds an append-only list of expenses and one of incomes,
  with their running totals. The invariant `LedgerValid` says:
  - every total is the sum of its list;
  - every card sits under the key of its own name.

  Every operation of the ledger keeps it. A second property,
  `SpendsNonNegative`, says no card shows a negative spend. It does not
  hold for every call of the ledger's own `registrarEntrada`, which takes any
  amount. It does hold for every ledger the handlers reach, since they
  only charge positive amounts. So rendering the listing of limits, which
  throws on a negative bar, never fails in the running bot.
- **The helpers** (`text.dfy`, `money.dfy`, `args.dfy`, `render.dfy`):
  - the JavaScript string primitives the code relies on (`trim`,
    `toLowerCase`, `split(/\s+/)`, `join`, `indexOf`, `slice`);
  - the amount parser `parsearValor` and the formatter `formatarBRL`, on
    integer cents;
  - the quote-aware argument splitter `dividirArgs`, kept as its loop;
  - the extractor `extrairArgs`;
  - the card listing, with its progress bar and status marker.
- **The handlers** (`financeiro.dfy`, module `Finance`). Each command
  handler is a method on the ledger. It is specified by:
  - a pure "plan" function that makes the handler's decision from its
    tokens: usage text, invalid amount, or a store call;
  - an effect predicate that states the reply and the whole new ledger
    in terms of the old one.
- **The command table** (`exports.dfy`, module `Registry`). The 26 names,
  the handler each one runs, and case-insensitive lookup.
- **The dispatcher** (`index.dfy`, module `Dispatcher`). It covers:
  - choosing the text of a message;
  - the prefix check;
  - the split into command and arguments;
  - the four-way route: menu, quick help, table, or not found;
  - the rules for empty replies and thrown errors.

  `ProcessMessage` ties all of this together.

The `ping` reply (`ping.dfy`) is modelled with the uptime, the time and the
date as parameters.

Amounts are integers in cents. The clock is a parameter `Clock(epochMs,
day, month, year)`. A reply that the source would produce by throwing is an
`Option` whose `None` stands for the exception.

Amounts with thousands dots do not parse as a reader might expect. The
cleaning in `parsearValor` replaces only the first comma, so `R$ 1.234,56`
cleans to `1.234.56` (`Money.CleanAmountReplacesOneComma` states this).
`parseFloat` reads that as 1.234, while `Money.ParseAmount` rejects it; the
"Money.ParseAmount:" line under "## Left out" records this difference.

## Model

| member | source | states |
|---|---|---|
| Text.Trim | dados/src/helpers.js:22 | The result has no white space at either end and is no longer than the input |
| Text.TrimStartFacts | dados/src/helpers.js:22 | What is left after the leading white space is a suffix of the input that does not start with white space, and everything dropped was white space |
| Text.TrimEndFacts | dados/src/helpers.js:22 | What is left after the trailing white space is a prefix of the input that does not end with white space, and everything dropped was white space |
| Text.TrimOfPadded | dados/src/helpers.js:22-25 | `trim` removes exactly the white space around a trimmed core and nothing else |
| Text.Lower | dados/src/database.js:94 | Lower-casing keeps the length and maps each character on its own |
| Text.LowerIdempotent | dados/src/funcs/exports.js:66 | Lower-casing twice is lower-casing once |
| Text.LowerTrimCommute | dados/src/database.js:94 | `toLowerCase().trim()` equals `trim().toLowerCase()`, so a card's key is the lower-cased trimmed name |
| Text.SplitWhitespace | dados/src/index.js:27 | `split(/\s+/)` always gives at least one piece, so the command word always exists |
| Text.SplitWhitespacePieces | dados/src/index.js:26-27 | On trimmed non-empty text every piece is non-empty and free of white space |
| Text.SplitJoinSpaces | dados/src/index.js:27-28 | Splitting words joined by single spaces gives back exactly those words |
| Text.NatToString | dados/src/database.js:60-61 | `String(n)` is a non-empty digit string without a leading zero |
| Text.ParseNatToString | dados/src/database.js:60-62 | Reading the printed number back gives the number |
| Text.Pad2 | dados/src/database.js:60 | `padStart(2, '0')` keeps the value and gives two digits below 100 |
| Text.IndexOf | dados/src/helpers.js:118 | `indexOf` returns -1 or an occurrence, with no earlier occurrence |
| Text.IndexOfFirst | dados/src/helpers.js:118 | The first occurrence is exactly what `indexOf` returns |
| Money.CurrencySymbol | dados/src/helpers.js:9 | `config.simboloMoeda \|\| 'R$'` is never empty and keeps a configured symbol |
| Money.GroupThousandsShape | dados/src/helpers.js:10 | The grouping inserts one dot every three digits from the right, and removing the dots gives the digits back |
| Money.FormatBRLBelowThousand | dados/src/helpers.js:8-11 | Below a thousand reais the formatted amount is the symbol, a space and `toFixed(2)` with a decimal comma |
| Money.StripCurrency | dados/src/helpers.js:23 | Dropping `R$` never lengthens the text |
| Money.StripCurrencySplits | dados/src/helpers.js:23 | An `R$` of either case anywhere is dropped and the text on both sides is treated on its own |
| Money.StripCurrencyWithoutMark | dados/src/helpers.js:23 | Text without `R$` is left as it is |
| Money.RemoveWhitespace | dados/src/helpers.js:24 | No white space is left |
| Money.ReplaceFirst | dados/src/helpers.js:28 | `replace` with a one-character pattern keeps the length |
| Money.ReplaceFirstAfter | dados/src/helpers.js:28 | Only the first occurrence is replaced; the rest is untouched |
| Money.ReplaceFirstWithout | dados/src/helpers.js:28 | Text without the character is left as it is |
| Money.CleanAmountHasNoWhitespace | dados/src/helpers.js:22-25 | After cleaning no white space remains |
| Money.CleanAmountReplacesOneComma | dados/src/helpers.js:28 | Cleaning removes exactly one comma when there is one, so `1.234,56` becomes `1.234.56` |
| Money.CleanAmountOfSymbol | dados/src/helpers.js:22-25 | A leading `R$ ` is dropped by the cleaning |
| Money.ParseAmount | dados/src/helpers.js:18-35 | Empty input gives `None`; a result is never negative and is the value of the cleaned numeral; every non-negative cleaned numeral is accepted |
| Money.ParseAmountZero | dados/src/helpers.js:32 | Zero is an accepted amount |
| Money.ParseAmountOfNumeral | dados/src/helpers.js:18-35 | `d,ff` and `d.ff` read back as their amount in cents |
| Money.ParseAmountOfNumeralWhole | dados/src/helpers.js:18-35 | A whole number of reais reads back as that many hundred cents |
| Money.ParseAmountOfClean | dados/src/helpers.js:28-34 | Any text that cleans to a non-negative numeral is accepted with that value |
| Money.ParseAmountOfFormatted | dados/src/helpers.js:8-35 | Below a thousand reais, what `formatarBRL` prints `parsearValor` reads back |
| Render.RoundHalfUp | dados/src/helpers.js:87 | `Math.round` of a non-negative quotient is the nearest integer, halves upwards |
| Render.PercentTenths | dados/src/helpers.js:65-66 | The percentage of spend over limit, in tenths, rounded to the nearest tenth |
| Render.Repeat | dados/src/helpers.js:90 | `repeat(n)` is exactly `n` copies of the character |
| Render.ProgressBar | dados/src/helpers.js:85-91 | The bar exists exactly when the filled count is not negative, and then it is exactly 10 cells, filled ones first |
| Render.FilledRounds | dados/src/helpers.js:87 | For a non-negative percentage the filled count is between 0 and 10 and is the rounded tenth of the percentage, capped at 10 |
| Render.ProgressBarDefined | dados/src/helpers.js:87-90 | Any percentage from -5 % upwards draws a bar; below that `repeat` throws |
| Render.StatusOf | dados/src/helpers.js:70 | Red exactly from 90 %, yellow exactly from 70 % to below 90 %, green below 70 % |
| Render.StatusMonotone | dados/src/helpers.js:70 | Spending more never gives a less severe marker |
| Render.CardBlockDefined | dados/src/helpers.js:64-75 | A card's block exists exactly when its bar can be drawn |
| Render.CardPercentNonNegative | dados/src/helpers.js:65-67 | A card without a negative spend has a non-negative percentage |
| Render.BlocksDefined | dados/src/helpers.js:64-75 | The listing exists exactly when every card's bar can be drawn |
| Render.BlocksFailFrom | dados/src/helpers.js:64-75 | Once one card fails to draw, the whole listing fails |
| Render.CardsTextDefined | dados/src/helpers.js:57-78 | With no negative spend the listing never fails |
| Render.RenderCards | dados/src/helpers.js:57-78 | The loop that appends each card's block and trims gives the specified listing, including the fixed text for no cards |
| Render.EntryLine | dados/src/helpers.js:43-50 | The line starts with the red marker exactly for expenses and ends with ": " followed by the formatted amount |
| Render.EntryLineDescription | dados/src/helpers.js:46-49 | When day and month have at most two digits, the zero-padded date takes seven characters and the description follows " - " at position 10 |
| Args.DividirArgs | dados/src/helpers.js:127-150 | The character loop gives the specified split, and every token is non-empty, trimmed and free of quotes |
| Args.SplitArgsTokens | dados/src/helpers.js:136-147 | No token is blank, every token is trimmed, and no token holds a quote character |
| Args.SplitArgsSwapQuotes | dados/src/helpers.js:133-134 | Single and double quotes flip the same flag: exchanging them changes nothing |
| Args.RunAppend | dados/src/helpers.js:132-143 | The loop over a concatenation is the loop over the first part, then over the second |
| Args.RunLiteral | dados/src/helpers.js:140-141 | Characters without quotes, and without spaces outside quotes, are added to the current token |
| Args.RunQuoted | dados/src/helpers.js:133-141 | Inside quotes spaces stay in the token |
| Args.RunTokenSpace | dados/src/helpers.js:135-139 | Outside quotes a space ends the token and pushes it |
| Args.SplitArgsOfTyped | dados/src/helpers.js:127-150 | Tokens typed bare, or in quotes when they hold a space, are split back into exactly those tokens |
| Args.SplitArgsExample | dados/src/funcs/financeiro.js:47 | `"Cartão Inter" 3000` splits into `Cartão Inter` and `3000` |
| Args.SliceFrom | dados/src/helpers.js:119 | `slice(start)` is the suffix from `start`, empty past the end |
| Args.ExtrairArgsFound | dados/src/helpers.js:116-120 | After the first case-insensitive occurrence of the command, the arguments are the trimmed rest |
| Args.ExtrairArgsAt | dados/src/helpers.js:118-119 | The same, from the position `indexOf` returns |
| Args.ExtrairArgsOfCommand | dados/src/helpers.js:116-120 | A command typed after a prefix that does not contain it yields the trimmed rest |
| Args.ExtrairArgsMissing | dados/src/helpers.js:118-119 | When the command does not occur, `-1 + length` makes the extractor return the text from position `length - 1` |
| Database.MonthKeyShape | dados/src/database.js:59-63 | The month key is two digits for the month, a slash, then the digits of the year |
| Database.MonthKeyInjective | dados/src/database.js:59-63 | Two moments share a key exactly when they are in the same month of the same year |
| Database.AddEntryValid | dados/src/database.js:176-190 | Recording an entry keeps each total equal to the sum of its list |
| Database.AddEntryAppends | dados/src/database.js:176-190 | An expense is appended to the expenses and its value added to their total; any other kind goes to the incomes; the other side is untouched |
| Database.MonthTotals | dados/src/database.js:197-201 | The balance returned is incomes minus expenses |
| Database.ChargeEffect | dados/src/database.js:180-186 | A card's spend grows by the value only for an expense naming that card's key; every other card is unchanged |
| Database.StatementOf | dados/src/database.js:210-234 | The month is the one asked for or the current one; a month without a book gives empty lists and zeros; otherwise its lists and totals, with balance incomes minus expenses |
| Database.StatementSums | dados/src/database.js:226-233 | Under the invariant the statement's balance is the sum of the incomes minus the sum of the expenses |
| Database.AddStep | dados/src/database.js:92-113 | Adding succeeds exactly when the key of the name is not taken yet |
| Database.AddStepRefused | dados/src/database.js:96-98 | When the key is taken, the answer is the card-exists failure, with no card, and the cards and their order are unchanged |
| Database.AddStepAdds | dados/src/database.js:100-112 | A new key gets a card with the trimmed name, the limit and zero spend; it is the only new key, no other card changes, the key goes last in the order, and the answer is success with that card and the message naming it |
| Database.AddStepValid | dados/src/database.js:92-113 | Adding a card, or refusing to, keeps the ledger invariant |
| Database.AddCardValid | dados/src/database.js:94-105 | Adding a card under the key of its name, with the trimmed name, keeps the invariant |
| Database.InsertCardValid | dados/src/database.js:100-105 | Inserting a card under a new key equal to its lower-cased trimmed name keeps the invariant |
| Database.UpdateCardValid | dados/src/database.js:129 | Replacing a card by one with the same name keeps the invariant |
| Database.ChargeValid | dados/src/database.js:180-186 | Charging a card keeps the invariant |
| Database.AddEntryLedgerValid | dados/src/database.js:159-190 | Recording an entry in a month, created empty when absent, keeps the invariant |
| Database.AddStepSpends | dados/src/database.js:100-105 | A new card spends 0, so adding a card never makes a spend negative |
| Database.SetLimitSpends | dados/src/database.js:121-131 | Changing a limit leaves every spend as it was |
| Database.ChargeSpends | dados/src/database.js:180-186 | Charging a non-negative amount never makes a spend negative |
| Database.ResetSpends | dados/src/database.js:248-250 | After closing the month every spend is 0 |
| Database.ListedSpends | dados/src/database.js:142-145 | Every listed card is a card of the ledger, so none shows a negative spend when the ledger has none |
| Database.ResetValid | dados/src/database.js:248-250 | Resetting every card's spend keeps the invariant |
| Database.ListedAll | dados/src/database.js:142-145 | The listing holds the card of every key, in insertion order, and nothing else |
| Database.ListedAppend | dados/src/database.js:100-105 | A card added under a new key is listed last |
| Database.AddListedLast | dados/src/database.js:100-105 | Under the invariant a new key is not in the order yet, so the new card is listed last |
| Database.Ledger.constructor | dados/src/database.js:8-11 | The ledger starts with no cards and no months, valid and with no negative spend |
| Database.Ledger.GetMonth | dados/src/database.js:70-84 | The month's book, created empty only when absent; cards unchanged; the invariant is kept |
| Database.Ledger.AddCard | dados/src/database.js:92-113 | The result, the cards and the key order become what `AddStep` gives for the old ledger; the months are unchanged; the invariant is kept |
| Database.Ledger.SetLimit | dados/src/database.js:121-136 | An unknown key: failure and nothing changes. Otherwise: only that card's limit changes, and the message names the card and prints the limit with a comma |
| Database.Ledger.RecordEntry | dados/src/database.js:155-203 | Exactly one entry is added to the current month, created when absent; the card is charged as `Charge` says; the totals returned are the month's new totals; the invariant is kept |
| Database.Ledger.CloseMonth | dados/src/database.js:240-259 | Every card's spend becomes 0, with the rest of each card and every month unchanged; the message names the current month |
| Database.Ledger.GetStats | dados/src/database.js:265-280 | The cards in insertion order and the current month's totals and counts, zeros when it has no book |
| Finance.LimitsReplyDefined | dados/src/funcs/financeiro.js:8-29 | With no negative spend the reply exists, and with cards it is the header, a blank line and the listing |
| Finance.ListarLimites | dados/src/funcs/financeiro.js:8-29 | Without cards the fixed text; with cards the header, a blank line and the listing, failing exactly when the listing does; it never fails while no spend is negative |
| Finance.PlanAddCard | dados/src/funcs/financeiro.js:36-59 | Usage text exactly with no tokens; an error exactly when the limit, `'0'` if missing, does not parse; otherwise the first token and a non-negative limit |
| Finance.AddCardDefaultLimit | dados/src/funcs/financeiro.js:52 | A name without a limit adds a card with limit 0 |
| Finance.AddCartao | dados/src/funcs/financeiro.js:36-71 | The reply and the new ledger follow the plan: nothing is written on usage, bad limit or existing card; otherwise exactly the new card is added; the invariant is kept, and no spend becomes negative |
| Finance.PlanSetLimit | dados/src/funcs/financeiro.js:78-99 | Usage text exactly with fewer than two tokens; an error exactly when the limit does not parse; otherwise the name and a non-negative limit |
| Finance.SetLimite | dados/src/funcs/financeiro.js:78-101 | Nothing is written on usage or a bad limit; otherwise the ledger's limit update and its message; no spend becomes negative |
| Finance.FindCard | dados/src/funcs/financeiro.js:133 | A card is found exactly when some card's lower-cased name equals the target, and the one found has it |
| Finance.FindCardByKey | dados/src/funcs/financeiro.js:131-133 | Under the invariant searching the listing by lower-cased name is the lookup of that key |
| Finance.PlanExpense | dados/src/funcs/financeiro.js:108-145 | Usage text exactly with fewer than two tokens; an error exactly when the value is missing or not positive; a card only with at least three tokens whose last names a card; the description is the middle tokens then, else all after the first |
| Finance.ExpenseChargesNamedCard | dados/src/funcs/financeiro.js:130-147 | Under the invariant a card is charged exactly when there are at least three tokens and the last one is a card's key, and that card is the one charged |
| Finance.RegistrarGasto | dados/src/funcs/financeiro.js:108-163 | Nothing is written on usage or a bad value; otherwise one expense is recorded, the named card charged, and the reply shows the month's new totals; as the amount is positive, no spend becomes negative |
| Finance.PlanIncome | dados/src/funcs/financeiro.js:170-192 | Usage text exactly with fewer than two tokens; an error exactly when the value is missing or not positive; otherwise the description is the tokens after the first |
| Finance.RegistrarReceita | dados/src/funcs/financeiro.js:170-208 | Nothing is written on usage or a bad value; otherwise one income without a card is recorded and no card changes, so no spend becomes negative |
| Finance.Reverse | dados/src/funcs/financeiro.js:227 | `reverse` puts each item at the mirrored position |
| Finance.Latest | dados/src/funcs/financeiro.js:227 | `slice(-5).reverse()` gives at most five items, the newest first |
| Finance.BalanceEmoji | dados/src/funcs/financeiro.js:245 | The balance marker is green exactly when the balance is not negative |
| Finance.TrimDropsPad | dados/src/funcs/financeiro.js:246-255 | Text that begins and ends with a visible character loses only the trailing line break and two spaces to `trim` |
| Finance.StatementTextEnds | dados/src/funcs/financeiro.js:246-255 | The final `trim` removes only the line break and spaces after the balance line |
| Finance.AppendLines | dados/src/funcs/financeiro.js:228-230 | The loop appends the line of every entry, each followed by a line break |
| Finance.Extrato | dados/src/funcs/financeiro.js:214-256 | The reply is the statement text of the current month |
| Finance.FecharMes | dados/src/funcs/financeiro.js:262-279 | Every card's spend is reset and nothing else changes; the summary shows the totals of the statement read before; that statement is the same after closing; afterwards no spend is negative |
| Registry.Find | dados/src/funcs/exports.js:66 | The first position of a name, or the length when it is absent |
| Registry.HasCommandIffGet | dados/src/funcs/exports.js:65-76 | A name is in the table exactly when a handler is found for it |
| Registry.GetCommandIgnoresCase | dados/src/funcs/exports.js:65-76 | A name and its lower-cased form find the same handler and the same answer to `hasCommand` |
| Registry.NamesDistinct | dados/src/funcs/exports.js:82-84 | The table lists 26 names, none twice, each with a handler |
| Registry.NamesNonEmpty | dados/src/funcs/exports.js:18-58 | No name of the table is the empty string |
| Registry.EveryAliasRoutes | dados/src/funcs/exports.js:18-67 | Every name of the table, typed in any case, runs the handler written with it |
| Registry.CardAddAliases | dados/src/funcs/exports.js:20-22 | `cartao-add`, `cartaoadd` and `addcartao` run the add-card handler |
| Registry.CardLimitAliases | dados/src/funcs/exports.js:24-26 | `cartao-limite`, `cartaolimite` and `setlimite` run the set-limit handler |
| Registry.ExpenseAliases | dados/src/funcs/exports.js:29-31 | `gasto`, `gastei` and `despesa` run the expense handler |
| Registry.IncomeAliases | dados/src/funcs/exports.js:33-36 | `receita`, `recebi`, `ganho` and `entrada` run the income handler |
| Registry.StatementAliases | dados/src/funcs/exports.js:39-41 | `extrato`, `resumo` and `saldo` run the statement handler |
| Registry.LimitsAliases | dados/src/funcs/exports.js:43-45 | `limites`, `cartoes` and `limite` run the limits handler |
| Registry.CloseAliases | dados/src/funcs/exports.js:48-50 | `fechar-mes`, `fecharmes` and `fechamento` run the close-month handler |
| Registry.ReceiptAliases | dados/src/funcs/exports.js:52-53 | `recibo` and `comprovante` run the receipt handler |
| Registry.PingAliases | dados/src/funcs/exports.js:56-57 | `ping` and `status` run the ping handler |
| PingCommand.SplitUptime | dados/src/funcs/utils/ping.js:9-11 | Hours, minutes and seconds recombine to the uptime, with minutes and seconds below 60 |
| PingCommand.SplitUptimeUnique | dados/src/funcs/utils/ping.js:9-11 | No other split with minutes and seconds below 60 gives the same uptime |
| Dispatcher.GetMessageText | dados/src/index.js:77-104 | A text is returned only when it is not empty |
| Dispatcher.FirstTruthyIsFirst | dados/src/index.js:82-103 | No text is found exactly when no candidate holds one; otherwise it is the first candidate that does |
| Dispatcher.GetMessageTextIsFirst | dados/src/index.js:77-104 | The text is the first non-empty one of conversation, extended text, and the image, video and document captions, in that order |
| Dispatcher.ParseTypedCommand | dados/src/index.js:26-30 | Words typed after the prefix give the first word, lower-cased, as the command and the rest joined by single spaces as the arguments |
| Dispatcher.SplitWords | dados/src/index.js:28 | Words without spaces or quotes, joined by spaces, reach the argument splitter unchanged |
| Dispatcher.ArgumentsReachHandler | dados/src/index.js:26-54 | The words typed after the command are exactly the tokens the handler splits out of its arguments |
| Dispatcher.RouteOf | dados/src/index.js:43-59 | Menu words first, then quick-help words, then the table; each route holds exactly under its condition, and a table route runs the handler `getCommand` finds |
| Dispatcher.SpecialWordsAreNotCommands | dados/src/index.js:43-52 | No menu or quick-help word is in the table, so checking them first hides no command |
| Dispatcher.BarePrefixNotFound | dados/src/index.js:26-58 | A message that is only the prefix names the empty command and gets the not-found route |
| Dispatcher.BareParse | dados/src/index.js:26-30 | Parsing the prefix alone gives the empty command and empty arguments |
| Dispatcher.EmptyCommandNotFound | dados/src/index.js:43-58 | The empty command is no menu word, no quick-help word and no table name, so it takes the not-found route |
| Dispatcher.Classify | dados/src/index.js:18-23 | A message counts as a command exactly when it has a text and the text starts with the prefix |
| Dispatcher.Answer | dados/src/index.js:62-68 | A thrown error gives the single generic error reply; an empty reply is not sent; any other reply is sent as it is |
| Dispatcher.RunCommand | dados/src/index.js:52-54 | The chosen handler's reply and its effect on the ledger; the invariant is kept; while no spend is negative none becomes so and the handler does not throw |
| Dispatcher.ProcessMessage | dados/src/index.js:11-70 | Messages that are not commands change nothing and get no reply; the menu and quick-help words show those texts; a table name runs its handler with the arguments and sends its answer; any other word gets the not-found reply with the prefix; only handlers change the ledger, and the invariant is kept; while no spend is negative none becomes so and no handler ends in the error reply |

## Left out

- File storage: `loadDB`, `saveDB` and `ensureDirectories` (reading and writing the JSON file, resetting after a corrupt file) are not modelled. The ledger lives in memory.
- The shallow copy of the initial database object and the aliasing it causes are not modelled.
- The clock: `Date.now()`, `new Date()` and `toISOString()` become the `Clock` parameter. The day and month in an entry line are read from it.
- `formatarData` and the locale time and date of `ping` are not modelled. The ping reply takes them as text parameters, and its uptime as whole seconds. The floors of the source give the same hours, minutes and seconds for the fractional uptime.
- Money.ParseAmount: `parseFloat` reads the longest numeric prefix, so the source accepts text such as `50abc`, `1.234.56` (read as 1.234) or more than two decimals. The model accepts only a numeral with an optional sign and at most two decimals after the cleaning, and gives `None` for the rest. Exponents and `Infinity` are not modelled.
- Floating point: amounts are whole cents. Float sums, and the rounding of `toFixed(2)` and `toFixed(1)` on binary floats, are not modelled. The percentage of a card is the exact ratio rounded half away from zero, in tenths.
- `toLowerCase` is modelled for ASCII and Latin-1 capital letters. Other scripts and the Unicode special cases are not modelled.
- Object key order: JavaScript lists integer-like keys (card names such as `123`) before other keys. The model lists cards in insertion order (the `ordem` field).
- Prototype lookups: in the source, `hasCommand('constructor')` and a card named `__proto__` hit inherited properties. The model treats the table and the ledger as finite maps.
- The menu and quick-help texts (`gerarMenu`, `gerarAjudaRapida`) and `getContactName` are outside this model. The dispatcher's outcome says which one is shown.
- The socket: sending replies, `readMessages` under `autoRead`, and the console logs are not modelled. `ProcessMessage` returns what would be sent.
- `extrairArgs` is modelled but has no caller in the dispatcher, which splits the text itself.
- Finance.Recibo has no contract. It returns one fixed text, and the `trim` of its template has nothing to remove.
- The templates of the handlers' replies are written with their `trim` already applied, wherever the text has no white space at its ends. The statement reply keeps its `trim`, because its raw text ends in white space.
