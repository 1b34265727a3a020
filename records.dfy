/**
  The records the ledger stores. Amounts are whole cents; a moment is the
  clock reading the bot takes at the time of the operation.
*/
module Records {
  import opened Wrappers

  /**
    A reading of the clock: milliseconds since the epoch (used as an entry
    id) and the local calendar day, month (1 to 12) and year.
  */
  datatype Clock = Clock(epochMs: int, day: nat, month: nat, year: nat)

  /** A credit card: display name, limit and what was spent on it this month. */
  datatype Card = Card(nome: string, limite: int, gastoAtual: int, criadoEm: Clock)

  /** One expense or income; `cartao` is the key of the card it was charged to. */
  datatype Entry = Entry(id: int, valor: int, descricao: string, data: Clock, cartao: Option<string>)

  /** The book of one month: both lists of entries and their running totals. */
  datatype Month = Month(gastos: seq<Entry>, receitas: seq<Entry>, totalGastos: int, totalReceitas: int)

  /** The kind of entry that counts as an expense; any other kind is income. */
  const Gasto := "gasto"
  const Receita := "receita"

  /** JavaScript truthiness of an optional string: present and not empty. */
  predicate Truthy(s: Option<string>)
  {
    s.Some? && s.value != ""
  }
}
