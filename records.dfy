/**
 * The documents of the per-user store that the screens read and write. Documents
 * are schemaless in the store; a field that is absent is held here as the empty
 * string, as 0 for amounts that are only ever read through `x || 0`, as `false`
 * for flags that are only tested with `=== true` or for truthiness, and as
 * `None` where the absence itself changes the outcome. `valorSaldo` is also read
 * with `??`, which tells a stored 0 from an absent field, so a flag records
 * whether it is stored.
 */
module Records {
  import opened Common

  /** An expense (despesas) or revenue (receitas) title: a payable or a receivable. */
  datatype Title = Title(
    id: string,
    descricao: string,
    favorecidoId: string,         // payables: the beneficiary
    favorecidoNome: string,
    clienteId: string,            // receivables: the client
    clienteNome: string,
    categoriaId: string,          // id of a chart-of-accounts document
    codigoPlanoDeContas: Option<string>,
    vencimento: string,           // due date of payables (also an older receivable field)
    dataVencimento: string,       // due date of receivables
    status: string,
    valorOriginal: int,
    valor: int,
    valorSaldo: int,              // payables: remaining balance (0 when absent)
    valorSaldoPresente: bool,     // the document holds a non-null valorSaldo, which `??` tests
    saldoPendente: int,           // receivables: remaining balance
    totalPago: int,
    totalRecebido: int,
    totalJuros: int,
    totalDescontos: int)

  /** A record of a title's history subcollection (pagamentos or recebimentos). */
  datatype HistoryRecord = HistoryRecord(
    id: string,
    parentId: string,             // the id of the title whose subcollection holds it
    tipoTransacao: string,        // "Estorno" for a reversal record
    dataTransacao: string,
    valorPrincipal: int,
    jurosPagos: int,
    jurosRecebidos: int,
    descontosAplicados: int,
    descontosConcedidos: int,
    contaSaidaId: Option<string>,   // payments: the paying account
    contaEntradaId: Option<string>, // receipts: the receiving account
    conciliado: bool,
    estornado: bool,
    usuarioResponsavel: string,
    motivoEstorno: string)

  /** A bank account (contasBancarias). */
  datatype BankAccount = BankAccount(id: string, nome: string, saldoInicial: int)

  /** A chart-of-accounts entry (planosDeContas). An empty `codigoPai` marks a root. */
  datatype PlanoDeContas = PlanoDeContas(
    codigo: string,
    codigoPai: string,
    nome: string,
    tipoDeAtividade: string,
    aceitaLancamento: bool)

  /** An internal transfer between two accounts (transferencias). */
  datatype Transfer = Transfer(
    id: string,
    dataTransacao: string,
    valor: int,
    contaOrigemId: Option<string>,
    contaOrigemNome: string,
    contaDestinoId: Option<string>,
    contaDestinoNome: string,
    conciliado: bool,
    observacao: string)
}
