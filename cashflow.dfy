/**
 * The cash-flow screen's ledger engine: realized payments, receipts and
 * transfers unified into one dated ledger, projected lines for open titles,
 * the account and reconciliation filters, the KPIs, the opening balance and
 * the running balance of the statement. Amounts are integer cents.
 */
module CashFlow {
  import opened Common
  import opened Records

  // ---------------------------------------------------------------------------
  // The unified ledger line
  // ---------------------------------------------------------------------------

  /** Direction of a what-if item (its `type`). */
  datatype Direction = Receita | Despesa

  /** The `type` of a ledger line. */
  datatype TxType =
    | Pagamento | Recebimento | Transferencia
    | DespesaProjetada | ReceitaProjetada
    | Simulado(dir: Direction)

  /**
   * One line of the ledger. `conciliado` is `None` where the line has no such
   * field at all (what-if lines), which no reconciliation button matches.
   * Transfers carry `valor` and the two legs; every other line carries
   * `entrada`/`saida` and, when realized, `contaId`.
   */
  datatype Tx = Tx(
    id: string,
    parentId: string,
    data: string,
    descricao: string,
    participante: string,
    planoDeConta: string,
    dataVencimento: string,
    tipoAtividade: string,
    kind: TxType,
    entrada: int,
    saida: int,
    juros: int,
    desconto: int,
    contaId: Option<string>,
    valor: int,
    contaOrigemId: Option<string>,
    contaDestinoId: Option<string>,
    conciliado: Option<bool>,
    isProjected: bool,
    isSimulated: bool,
    isComparison: bool)

  /** The account selector: every account, or one account id. */
  datatype AccountFilter = Todas | Conta(id: string)

  /** The reconciliation buttons. */
  datatype ReconFilter = TodasRecon | Conciliadas | NaoConciliadas

  function CategoryName(cats: map<string, PlanoDeContas>, id: string): string
  {
    if id in cats then cats[id].nome else "N/A"
  }

  function ActivityType(cats: map<string, PlanoDeContas>, id: string): string
  {
    if id in cats then cats[id].tipoDeAtividade else "Operacional"
  }

  // ---------------------------------------------------------------------------
  // enrichAndUnifyTransactions
  // ---------------------------------------------------------------------------

  /** A history record reversed, or itself a reversal, never enters the ledger. */
  predicate Reversed(h: HistoryRecord)
  {
    h.estornado || h.tipoTransacao == "Estorno"
  }

  /** A history record enters the ledger iff it is not reversed and its title exists. */
  predicate Kept(h: HistoryRecord, parents: map<string, Title>)
  {
    !Reversed(h) && h.parentId in parents
  }

  function PaymentLine(p: HistoryRecord, d: Title, cats: map<string, PlanoDeContas>): Tx
  {
    Tx(p.id, p.parentId, p.dataTransacao, d.descricao, OrElse(d.favorecidoNome, "N/A"),
       CategoryName(cats, d.categoriaId), d.vencimento, ActivityType(cats, d.categoriaId),
       Pagamento, 0, p.valorPrincipal, p.jurosPagos, p.descontosAplicados, p.contaSaidaId,
       0, None, None, Some(p.conciliado), false, false, false)
  }

  function ReceiptLine(r: HistoryRecord, d: Title, cats: map<string, PlanoDeContas>): Tx
  {
    Tx(r.id, r.parentId, r.dataTransacao, d.descricao, OrElse(d.clienteNome, "N/A"),
       CategoryName(cats, d.categoriaId), d.dataVencimento, ActivityType(cats, d.categoriaId),
       Recebimento, r.valorPrincipal, 0, r.jurosRecebidos, r.descontosConcedidos, r.contaEntradaId,
       0, None, None, Some(r.conciliado), false, false, false)
  }

  function TransferLine(t: Transfer): Tx
  {
    Tx(t.id, "", t.dataTransacao,
       "Transferência de " + t.contaOrigemNome + " para " + t.contaDestinoNome,
       "Interno", "Transferência", t.dataTransacao, "N/A",
       Transferencia, 0, 0, 0, 0, None,
       t.valor, t.contaOrigemId, t.contaDestinoId, Some(t.conciliado), false, false, false)
  }

  /** The ledger lines of the payments, in input order. */
  function PaymentLines(ps: seq<HistoryRecord>, despesas: map<string, Title>, cats: map<string, PlanoDeContas>): (r: seq<Tx>)
    ensures forall t :: t in r ==> t.kind == Pagamento
    ensures forall t :: t in r <==>
      exists p :: p in ps && Kept(p, despesas) && t == PaymentLine(p, despesas[p.parentId], cats)
    decreases |ps|
  {
    if ps == [] then []
    else
      var rest := PaymentLines(ps[..|ps| - 1], despesas, cats);
      var p := ps[|ps| - 1];
      assert ps == ps[..|ps| - 1] + [p];
      if Kept(p, despesas) then rest + [PaymentLine(p, despesas[p.parentId], cats)] else rest
  }

  /** The ledger lines of the receipts, in input order. */
  function ReceiptLines(rs: seq<HistoryRecord>, receitas: map<string, Title>, cats: map<string, PlanoDeContas>): (r: seq<Tx>)
    ensures forall t :: t in r ==> t.kind == Recebimento
    ensures forall t :: t in r <==>
      exists h :: h in rs && Kept(h, receitas) && t == ReceiptLine(h, receitas[h.parentId], cats)
    decreases |rs|
  {
    if rs == [] then []
    else
      var rest := ReceiptLines(rs[..|rs| - 1], receitas, cats);
      var h := rs[|rs| - 1];
      assert rs == rs[..|rs| - 1] + [h];
      if Kept(h, receitas) then rest + [ReceiptLine(h, receitas[h.parentId], cats)] else rest
  }

  /** The ledger lines of the transfers: one per transfer, in input order. */
  function TransferLines(ts: seq<Transfer>): (r: seq<Tx>)
    ensures |r| == |ts|
    ensures forall i :: 0 <= i < |ts| ==> r[i] == TransferLine(ts[i])
    decreases |ts|
  {
    if ts == [] then [] else TransferLines(ts[..|ts| - 1]) + [TransferLine(ts[|ts| - 1])]
  }

  /** The comparator of the ledger's sort: by date. */
  function ByDate(): (Tx, Tx) -> bool
  {
    (a: Tx, b: Tx) => AtMost(a.data, b.data)
  }

  lemma ByDateIsTotalPreorder()
    ensures TotalPreorder(ByDate())
  {
    StringOrderIsTotalPreorder();
    forall a: Tx, b: Tx ensures ByDate()(a, b) || ByDate()(b, a) {
      assert StringLe()(a.data, b.data) || StringLe()(b.data, a.data);
    }
    forall a: Tx, b: Tx, c: Tx | ByDate()(a, b) && ByDate()(b, c) ensures ByDate()(a, c) {
      assert StringLe()(a.data, b.data) && StringLe()(b.data, c.data);
    }
  }

  /** The realized ledger: payments, then receipts, then transfers, stably sorted by date. */
  function Ledger(ps: seq<HistoryRecord>, rs: seq<HistoryRecord>, ts: seq<Transfer>,
                  despesas: map<string, Title>, receitas: map<string, Title>,
                  cats: map<string, PlanoDeContas>): (r: seq<Tx>)
    ensures multiset(r) == multiset(PaymentLines(ps, despesas, cats) + ReceiptLines(rs, receitas, cats) + TransferLines(ts))
    ensures SortedBy(r, ByDate())
  {
    ByDateIsTotalPreorder();
    Sort(PaymentLines(ps, despesas, cats) + ReceiptLines(rs, receitas, cats) + TransferLines(ts), ByDate())
  }

  /** The first loop of enrichAndUnifyTransactions: one line per kept payment. */
  method CollectPayments(ps: seq<HistoryRecord>, despesas: map<string, Title>, cats: map<string, PlanoDeContas>)
    returns (acc: seq<Tx>)
    ensures acc == PaymentLines(ps, despesas, cats)
  {
    acc := [];
    var i := 0;
    while i < |ps|
      invariant 0 <= i <= |ps|
      invariant acc == PaymentLines(ps[..i], despesas, cats)
    {
      assert ps[..i + 1][..i] == ps[..i];
      var p := ps[i];
      if !(p.estornado || p.tipoTransacao == "Estorno") && p.parentId in despesas {
        acc := acc + [PaymentLine(p, despesas[p.parentId], cats)];
      }
      i := i + 1;
    }
    assert ps[..|ps|] == ps;
  }

  /** The second loop: one line per kept receipt. */
  method CollectReceipts(rs: seq<HistoryRecord>, receitas: map<string, Title>, cats: map<string, PlanoDeContas>)
    returns (acc: seq<Tx>)
    ensures acc == ReceiptLines(rs, receitas, cats)
  {
    acc := [];
    var i := 0;
    while i < |rs|
      invariant 0 <= i <= |rs|
      invariant acc == ReceiptLines(rs[..i], receitas, cats)
    {
      assert rs[..i + 1][..i] == rs[..i];
      var h := rs[i];
      if !(h.estornado || h.tipoTransacao == "Estorno") && h.parentId in receitas {
        acc := acc + [ReceiptLine(h, receitas[h.parentId], cats)];
      }
      i := i + 1;
    }
    assert rs[..|rs|] == rs;
  }

  /** The third loop: one line per transfer. */
  method CollectTransfers(ts: seq<Transfer>) returns (acc: seq<Tx>)
    ensures acc == TransferLines(ts)
  {
    acc := [];
    var i := 0;
    while i < |ts|
      invariant 0 <= i <= |ts|
      invariant acc == TransferLines(ts[..i])
    {
      assert ts[..i + 1][..i] == ts[..i];
      acc := acc + [TransferLine(ts[i])];
      i := i + 1;
    }
    assert ts[..|ts|] == ts;
  }

  /** enrichAndUnifyTransactions: the three loops that fill `unified`, then the sort. */
  method EnrichAndUnify(ps: seq<HistoryRecord>, rs: seq<HistoryRecord>, ts: seq<Transfer>,
                        despesas: map<string, Title>, receitas: map<string, Title>,
                        cats: map<string, PlanoDeContas>) returns (unified: seq<Tx>)
    ensures unified == Ledger(ps, rs, ts, despesas, receitas, cats)
  {
    var payments := CollectPayments(ps, despesas, cats);
    var receipts := CollectReceipts(rs, receitas, cats);
    var transfers := CollectTransfers(ts);
    ByDateIsTotalPreorder();
    unified := Sort(payments + receipts + transfers, ByDate());
  }

  /** A payment line never carries the store path of a reversed payment. */
  lemma ReversedPaymentNoLine(ps: seq<HistoryRecord>, despesas: map<string, Title>, cats: map<string, PlanoDeContas>,
                              h: HistoryRecord, t: Tx)
    requires h in ps && Reversed(h) && t in PaymentLines(ps, despesas, cats)
    requires forall a, b :: a in ps && b in ps && a.parentId == b.parentId && a.id == b.id ==> a == b
    ensures t.id != h.id || t.parentId != h.parentId
  {
    var p :| p in ps && Kept(p, despesas) && t == PaymentLine(p, despesas[p.parentId], cats);
    assert p != h;
  }

  /** A receipt line never carries the store path of a reversed receipt. */
  lemma ReversedReceiptNoLine(rs: seq<HistoryRecord>, receitas: map<string, Title>, cats: map<string, PlanoDeContas>,
                              h: HistoryRecord, t: Tx)
    requires h in rs && Reversed(h) && t in ReceiptLines(rs, receitas, cats)
    requires forall a, b :: a in rs && b in rs && a.parentId == b.parentId && a.id == b.id ==> a == b
    ensures t.id != h.id || t.parentId != h.parentId
  {
    var q :| q in rs && Kept(q, receitas) && t == ReceiptLine(q, receitas[q.parentId], cats);
    assert q != h;
  }

  /** Every ledger line is a payment line, a receipt line or a transfer line. */
  lemma LedgerLineSource(ps: seq<HistoryRecord>, rs: seq<HistoryRecord>, ts: seq<Transfer>,
                         despesas: map<string, Title>, receitas: map<string, Title>,
                         cats: map<string, PlanoDeContas>, t: Tx)
    requires t in Ledger(ps, rs, ts, despesas, receitas, cats)
    ensures t.kind == Pagamento ==> t in PaymentLines(ps, despesas, cats)
    ensures t.kind == Recebimento ==> t in ReceiptLines(rs, receitas, cats)
  {
    var P, R, T := PaymentLines(ps, despesas, cats), ReceiptLines(rs, receitas, cats), TransferLines(ts);
    assert t in multiset(P + R + T);
    assert t in P || t in R || t in T;
    if t in T {
      var k :| 0 <= k < |ts| && T[k] == t;
    }
  }

  /**
   * A reversed payment or receipt, or a reversal record, never gives a ledger
   * line: no line of the ledger carries its store path (title id, record id).
   */
  lemma ReversedNeverInLedger(ps: seq<HistoryRecord>, rs: seq<HistoryRecord>, ts: seq<Transfer>,
                              despesas: map<string, Title>, receitas: map<string, Title>,
                              cats: map<string, PlanoDeContas>, h: HistoryRecord)
    requires h in ps || h in rs
    requires Reversed(h)
    requires forall a, b :: a in ps && b in ps && a.parentId == b.parentId && a.id == b.id ==> a == b
    requires forall a, b :: a in rs && b in rs && a.parentId == b.parentId && a.id == b.id ==> a == b
    ensures forall t :: t in Ledger(ps, rs, ts, despesas, receitas, cats) ==>
      !((t.kind == Pagamento && h in ps) || (t.kind == Recebimento && h in rs)) || t.id != h.id || t.parentId != h.parentId
  {
    forall t | t in Ledger(ps, rs, ts, despesas, receitas, cats)
      ensures !((t.kind == Pagamento && h in ps) || (t.kind == Recebimento && h in rs)) || t.id != h.id || t.parentId != h.parentId
    {
      LedgerLineSource(ps, rs, ts, despesas, receitas, cats, t);
      if t.kind == Pagamento && h in ps {
        ReversedPaymentNoLine(ps, despesas, cats, h, t);
      } else if t.kind == Recebimento && h in rs {
        ReversedReceiptNoLine(rs, receitas, cats, h, t);
      }
    }
  }


  // ---------------------------------------------------------------------------
  // fetchProjectedTransactions
  // ---------------------------------------------------------------------------

  /** `status || 'Pendente'`. */
  function StatusOrPending(s: string): string
  {
    OrElse(s, "Pendente")
  }

  /** `dataVencimento || vencimento`: the due date of a receivable. */
  function ReceivableDue(r: Title): string
  {
    OrElse(r.dataVencimento, r.vencimento)
  }

  /** An open payable due inside the period becomes a projected outflow. */
  predicate ProjectsPayable(d: Title, start: string, end: string)
  {
    && StatusOrPending(d.status) in {"Pendente", "Vencido", "Pago Parcialmente"}
    && AtMost(start, d.vencimento) && AtMost(d.vencimento, end)
  }

  /** An open receivable due inside the period becomes a projected inflow. */
  predicate ProjectsReceivable(r: Title, start: string, end: string)
  {
    && StatusOrPending(r.status) in {"Pendente", "Vencido", "Recebido Parcialmente"}
    && AtMost(start, ReceivableDue(r)) && AtMost(ReceivableDue(r), end)
  }

  function ProjectedPayable(d: Title, cats: map<string, PlanoDeContas>): (t: Tx)
    ensures t.isProjected && !t.isSimulated && t.contaId == None && t.conciliado == Some(false)
    ensures t.data == d.vencimento && t.entrada == 0
    ensures t.saida == (if d.valorSaldo != 0 then d.valorSaldo else d.valorOriginal)
  {
    Tx(d.id, "", d.vencimento, "(Projetado) " + d.descricao, OrElse(d.favorecidoNome, "N/A"),
       CategoryName(cats, d.categoriaId), d.vencimento, "", DespesaProjetada,
       0, Or(d.valorSaldo, d.valorOriginal), 0, 0, None, 0, None, None, Some(false), true, false, false)
  }

  function ProjectedReceivable(r: Title, cats: map<string, PlanoDeContas>): (t: Tx)
    ensures t.isProjected && !t.isSimulated && t.contaId == None && t.conciliado == Some(false)
    ensures t.data == ReceivableDue(r) && t.saida == 0
    ensures t.entrada == (if r.saldoPendente != 0 then r.saldoPendente else r.valorOriginal)
  {
    Tx(r.id, "", ReceivableDue(r), "(Projetado) " + r.descricao, OrElse(r.clienteNome, "N/A"),
       CategoryName(cats, r.categoriaId), ReceivableDue(r), "", ReceitaProjetada,
       Or(r.saldoPendente, r.valorOriginal), 0, 0, 0, None, 0, None, None, Some(false), true, false, false)
  }

  function ProjectedPayables(ds: seq<Title>, start: string, end: string, cats: map<string, PlanoDeContas>): seq<Tx>
    decreases |ds|
  {
    if ds == [] then []
    else
      var rest := ProjectedPayables(ds[..|ds| - 1], start, end, cats);
      var d := ds[|ds| - 1];
      if ProjectsPayable(d, start, end) then rest + [ProjectedPayable(d, cats)] else rest
  }

  /** The projected outflows are exactly the images of the open payables due in the period. */
  lemma {:induction false} ProjectedPayablesMeaning(ds: seq<Title>, start: string, end: string, cats: map<string, PlanoDeContas>)
    ensures forall t :: t in ProjectedPayables(ds, start, end, cats) <==>
      exists d :: d in ds && ProjectsPayable(d, start, end) && t == ProjectedPayable(d, cats)
    decreases |ds|
  {
    if ds != [] {
      ProjectedPayablesMeaning(ds[..|ds| - 1], start, end, cats);
      assert ds == ds[..|ds| - 1] + [ds[|ds| - 1]];
    }
  }

  function ProjectedReceivables(rs: seq<Title>, start: string, end: string, cats: map<string, PlanoDeContas>): seq<Tx>
    decreases |rs|
  {
    if rs == [] then []
    else
      var rest := ProjectedReceivables(rs[..|rs| - 1], start, end, cats);
      var x := rs[|rs| - 1];
      if ProjectsReceivable(x, start, end) then rest + [ProjectedReceivable(x, cats)] else rest
  }

  /** The projected inflows are exactly the images of the open receivables due in the period. */
  lemma {:induction false} ProjectedReceivablesMeaning(rs: seq<Title>, start: string, end: string, cats: map<string, PlanoDeContas>)
    ensures forall t :: t in ProjectedReceivables(rs, start, end, cats) <==>
      exists x :: x in rs && ProjectsReceivable(x, start, end) && t == ProjectedReceivable(x, cats)
    decreases |rs|
  {
    if rs != [] {
      ProjectedReceivablesMeaning(rs[..|rs| - 1], start, end, cats);
      assert rs == rs[..|rs| - 1] + [rs[|rs| - 1]];
    }
  }

  lemma ProjectedPayablesStep(ds: seq<Title>, i: nat, start: string, end: string, cats: map<string, PlanoDeContas>)
    requires i < |ds|
    ensures ProjectedPayables(ds[..i + 1], start, end, cats)
         == ProjectedPayables(ds[..i], start, end, cats)
            + (if ProjectsPayable(ds[i], start, end) then [ProjectedPayable(ds[i], cats)] else [])
  {
    assert ds[..i + 1][..i] == ds[..i];
  }

  lemma ProjectedReceivablesStep(rs: seq<Title>, i: nat, start: string, end: string, cats: map<string, PlanoDeContas>)
    requires i < |rs|
    ensures ProjectedReceivables(rs[..i + 1], start, end, cats)
         == ProjectedReceivables(rs[..i], start, end, cats)
            + (if ProjectsReceivable(rs[i], start, end) then [ProjectedReceivable(rs[i], cats)] else [])
  {
    assert rs[..i + 1][..i] == rs[..i];
  }

  /** The two forEach loops of fetchProjectedTransactions. */
  method FetchProjected(despesas: seq<Title>, receitas: seq<Title>, start: string, end: string,
                        cats: map<string, PlanoDeContas>) returns (projected: seq<Tx>)
    ensures projected == ProjectedPayables(despesas, start, end, cats) + ProjectedReceivables(receitas, start, end, cats)
  {
    var outs: seq<Tx> := [];
    var i := 0;
    while i < |despesas|
      invariant 0 <= i <= |despesas|
      invariant outs == ProjectedPayables(despesas[..i], start, end, cats)
    {
      ProjectedPayablesStep(despesas, i, start, end, cats);
      var d := despesas[i];
      var status := OrElse(d.status, "Pendente");
      if status in {"Pendente", "Vencido", "Pago Parcialmente"} && !Less(d.vencimento, start) && !Less(end, d.vencimento) {
        outs := outs + [ProjectedPayable(d, cats)];
      }
      i := i + 1;
    }
    assert despesas[..|despesas|] == despesas;
    var ins: seq<Tx> := [];
    i := 0;
    while i < |receitas|
      invariant 0 <= i <= |receitas|
      invariant ins == ProjectedReceivables(receitas[..i], start, end, cats)
    {
      ProjectedReceivablesStep(receitas, i, start, end, cats);
      var r := receitas[i];
      var status := OrElse(r.status, "Pendente");
      var due := OrElse(r.dataVencimento, r.vencimento);
      if status in {"Pendente", "Vencido", "Recebido Parcialmente"} && !Less(due, start) && !Less(end, due) {
        ins := ins + [ProjectedReceivable(r, cats)];
      }
      i := i + 1;
    }
    assert receitas[..|receitas|] == receitas;
    projected := outs + ins;
  }

  // ---------------------------------------------------------------------------
  // applyFilters
  // ---------------------------------------------------------------------------

  /** A transfer matches an account by either leg; any other line by its `contaId`. */
  predicate AccountMatch(t: Tx, conta: AccountFilter)
  {
    match conta
    case Todas => true
    case Conta(id) =>
      if t.kind == Transferencia then t.contaOrigemId == Some(id) || t.contaDestinoId == Some(id)
      else t.contaId == Some(id)
  }

  /** `conciliado === (status === 'conciliadas')` unless every line is wanted. */
  predicate ReconMatch(t: Tx, recon: ReconFilter)
  {
    match recon
    case TodasRecon => true
    case Conciliadas => t.conciliado == Some(true)
    case NaoConciliadas => t.conciliado == Some(false)
  }

  function FilterFor(conta: AccountFilter, recon: ReconFilter): Tx -> bool
  {
    (t: Tx) => AccountMatch(t, conta) && ReconMatch(t, recon)
  }

  function ApplyFilters(txs: seq<Tx>, conta: AccountFilter, recon: ReconFilter): (r: seq<Tx>)
    ensures SubsequenceOf(r, txs)
    ensures forall t :: t in r <==> t in txs && AccountMatch(t, conta) && ReconMatch(t, recon)
    ensures conta == Todas && recon == TodasRecon ==> r == txs
  {
    Filter(txs, FilterFor(conta, recon))
  }

  /** Projected lines carry no account, so a specific account filter drops all of them. */
  lemma ProjectedDroppedByAccount(despesas: seq<Title>, receitas: seq<Title>, start: string, end: string,
                                  cats: map<string, PlanoDeContas>, id: string, recon: ReconFilter)
    ensures ApplyFilters(ProjectedPayables(despesas, start, end, cats) + ProjectedReceivables(receitas, start, end, cats),
                         Conta(id), recon) == []
  {
    var all := ProjectedPayables(despesas, start, end, cats) + ProjectedReceivables(receitas, start, end, cats);
    ProjectedPayablesMeaning(despesas, start, end, cats);
    ProjectedReceivablesMeaning(receitas, start, end, cats);
    forall t | t in all ensures !FilterFor(Conta(id), recon)(t) {
      if t in ProjectedPayables(despesas, start, end, cats) {
        var d :| d in despesas && ProjectsPayable(d, start, end) && t == ProjectedPayable(d, cats);
      } else {
        var x :| x in receitas && ProjectsReceivable(x, start, end) && t == ProjectedReceivable(x, cats);
      }
    }
    KeepNone(all, FilterFor(Conta(id), recon));
    KeepIsFilter(all, FilterFor(Conta(id), recon));
  }


  // ---------------------------------------------------------------------------
  // calculateKPIs
  // ---------------------------------------------------------------------------

  /** What one line adds to `totalEntradas`. */
  function KpiEntrada(t: Tx, conta: AccountFilter): int
  {
    if t.kind == Transferencia then
      match conta
      case Todas => 0
      case Conta(id) => if t.contaDestinoId == Some(id) then t.valor else 0
    else t.entrada
  }

  /** What one line adds to `totalSaidas`. */
  function KpiSaida(t: Tx, conta: AccountFilter): int
  {
    if t.kind == Transferencia then
      match conta
      case Todas => 0
      case Conta(id) => if t.contaOrigemId == Some(id) then t.valor else 0
    else t.saida
  }

  function EntradaOf(conta: AccountFilter): Tx -> int
  {
    (t: Tx) => KpiEntrada(t, conta)
  }

  function SaidaOf(conta: AccountFilter): Tx -> int
  {
    (t: Tx) => KpiSaida(t, conta)
  }

  datatype Kpis = Kpis(saldoAnterior: int, totalEntradas: int, totalSaidas: int, resultadoLiquido: int, saldoFinal: int)

  method CalculateKpis(saldoAnterior: int, txs: seq<Tx>, conta: AccountFilter) returns (k: Kpis)
    ensures k.saldoAnterior == saldoAnterior
    ensures k.totalEntradas == Sum(txs, EntradaOf(conta))
    ensures k.totalSaidas == Sum(txs, SaidaOf(conta))
    ensures k.resultadoLiquido == k.totalEntradas - k.totalSaidas
    ensures k.saldoFinal == saldoAnterior + k.resultadoLiquido
  {
    var totalEntradas, totalSaidas := 0, 0;
    var i := 0;
    while i < |txs|
      invariant 0 <= i <= |txs|
      invariant totalEntradas == Sum(txs[..i], EntradaOf(conta))
      invariant totalSaidas == Sum(txs[..i], SaidaOf(conta))
    {
      assert txs[..i + 1][..i] == txs[..i];
      var t := txs[i];
      if t.kind == Transferencia {
        if conta.Conta? {
          if t.contaDestinoId == Some(conta.id) {
            totalEntradas := totalEntradas + t.valor;
          }
          if t.contaOrigemId == Some(conta.id) {
            totalSaidas := totalSaidas + t.valor;
          }
        }
      } else {
        totalEntradas := totalEntradas + t.entrada;
        totalSaidas := totalSaidas + t.saida;
      }
      i := i + 1;
    }
    assert txs[..|txs|] == txs;
    var resultadoLiquido := totalEntradas - totalSaidas;
    k := Kpis(saldoAnterior, totalEntradas, totalSaidas, resultadoLiquido, saldoAnterior + resultadoLiquido);
  }

  predicate IsTransfer(t: Tx)
  {
    t.kind == Transferencia
  }

  /** Under 'todas' transfers are internal: the totals are those of the other lines alone. */
  lemma TransfersIgnoredUnderTodas(txs: seq<Tx>)
    ensures Sum(txs, EntradaOf(Todas)) == Sum(Filter(txs, NotTransferP()), EntradaOf(Todas))
    ensures Sum(txs, SaidaOf(Todas)) == Sum(Filter(txs, NotTransferP()), SaidaOf(Todas))
  {
    SumGuarded(txs, NotTransferP(), EntradaOf(Todas), EntradaOf(Todas));
    SumGuarded(txs, NotTransferP(), SaidaOf(Todas), SaidaOf(Todas));
    KeepIsFilter(txs, NotTransferP());
  }

  /** Which KPI a transfer feeds depends on the selected account and its legs. */
  lemma TransferLegs(t: Tx, conta: AccountFilter)
    requires IsTransfer(t)
    ensures conta == Todas ==> KpiEntrada(t, conta) == 0 && KpiSaida(t, conta) == 0
    ensures conta.Conta? && t.contaDestinoId == Some(conta.id) && t.contaOrigemId != Some(conta.id) ==>
      KpiEntrada(t, conta) == t.valor && KpiSaida(t, conta) == 0
    ensures conta.Conta? && t.contaOrigemId == Some(conta.id) && t.contaDestinoId != Some(conta.id) ==>
      KpiEntrada(t, conta) == 0 && KpiSaida(t, conta) == t.valor
  {
  }

  // ---------------------------------------------------------------------------
  // calculateSaldoAnterior
  // ---------------------------------------------------------------------------

  /** `contas.find(c => c.id === id)`: the first account with the id, if any. */
  function FindAccount(contas: seq<BankAccount>, id: string): (r: Option<BankAccount>)
    ensures r.None? <==> forall c :: c in contas ==> c.id != id
    ensures r.Some? ==> r.value.id == id
    ensures r.Some? ==> exists k :: 0 <= k < |contas| && contas[k] == r.value && (forall j :: 0 <= j < k ==> contas[j].id != id)
    decreases |contas|
  {
    if contas == [] then None
    else if contas[0].id == id then Some(contas[0])
    else
      var r := FindAccount(contas[1..], id);
      assert forall k :: 1 <= k < |contas| ==> contas[k] == contas[1..][k - 1];
      assert contas == [contas[0]] + contas[1..];
      r
  }

  function SaldoInicialOf(): BankAccount -> int
  {
    (c: BankAccount) => c.saldoInicial
  }

  /** What one earlier line adds to the opening balance. */
  function OpeningEffect(t: Tx, conta: AccountFilter): int
  {
    if t.kind == Transferencia then
      match conta
      case Todas => 0
      case Conta(id) =>
        (if t.contaDestinoId == Some(id) then t.valor else 0) - (if t.contaOrigemId == Some(id) then t.valor else 0)
    else t.entrada - t.saida
  }

  function EffectOf(conta: AccountFilter): Tx -> int
  {
    (t: Tx) => OpeningEffect(t, conta)
  }

  /** The records the "before start" queries return: `dataTransacao < start` when a start is given. */
  function HistoryBefore(hs: seq<HistoryRecord>, start: string): (r: seq<HistoryRecord>)
    ensures forall h :: h in r <==> h in hs && (Present(start) ==> Less(h.dataTransacao, start))
  {
    if Present(start) then Filter(hs, RecordBefore(start)) else hs
  }

  function RecordBefore(start: string): HistoryRecord -> bool
  {
    (h: HistoryRecord) => Less(h.dataTransacao, start)
  }

  function TransfersBefore(ts: seq<Transfer>, start: string): (r: seq<Transfer>)
    ensures forall t :: t in r <==> t in ts && (Present(start) ==> Less(t.dataTransacao, start))
  {
    if Present(start) then Filter(ts, TransferBefore(start)) else ts
  }

  function TransferBefore(start: string): Transfer -> bool
  {
    (t: Transfer) => Less(t.dataTransacao, start)
  }

  /** `saldoInicial` summed over every account, or taken from the selected one. */
  function InitialSaldo(contas: seq<BankAccount>, conta: AccountFilter): int
  {
    match conta
    case Todas => Sum(contas, SaldoInicialOf())
    case Conta(id) => if FindAccount(contas, id).Some? then FindAccount(contas, id).value.saldoInicial else 0
  }

  /** The ledger of everything dated before `start`, as calculateSaldoAnterior fetches it. */
  function EarlierLedger(ps: seq<HistoryRecord>, rs: seq<HistoryRecord>, ts: seq<Transfer>,
                         despesas: map<string, Title>, receitas: map<string, Title>,
                         cats: map<string, PlanoDeContas>, start: string): seq<Tx>
  {
    Ledger(HistoryBefore(ps, start), HistoryBefore(rs, start), TransfersBefore(ts, start), despesas, receitas, cats)
  }

  /** The opening balance of the period that starts at `start`. */
  function OpeningBalance(contas: seq<BankAccount>, ps: seq<HistoryRecord>, rs: seq<HistoryRecord>, ts: seq<Transfer>,
                          despesas: map<string, Title>, receitas: map<string, Title>,
                          cats: map<string, PlanoDeContas>, start: string, conta: AccountFilter): int
  {
    InitialSaldo(contas, conta)
      + Sum(ApplyFilters(EarlierLedger(ps, rs, ts, despesas, receitas, cats, start), conta, TodasRecon), EffectOf(conta))
  }

  /** The forEach over the accounts that adds up their `saldoInicial`. */
  method SumSaldoInicial(contas: seq<BankAccount>) returns (total: int)
    ensures total == Sum(contas, SaldoInicialOf())
  {
    total := 0;
    var i := 0;
    while i < |contas|
      invariant 0 <= i <= |contas|
      invariant total == Sum(contas[..i], SaldoInicialOf())
    {
      assert contas[..i + 1][..i] == contas[..i];
      total := total + contas[i].saldoInicial;
      i := i + 1;
    }
    assert contas[..|contas|] == contas;
  }

  /** The forEach that adds the earlier lines' effect to the opening balance. */
  method AddEarlierEffects(saldo: int, filtered: seq<Tx>, conta: AccountFilter) returns (saldoAnterior: int)
    ensures saldoAnterior == saldo + Sum(filtered, EffectOf(conta))
  {
    saldoAnterior := saldo;
    var i := 0;
    while i < |filtered|
      invariant 0 <= i <= |filtered|
      invariant saldoAnterior == saldo + Sum(filtered[..i], EffectOf(conta))
    {
      assert filtered[..i + 1][..i] == filtered[..i];
      var t := filtered[i];
      if t.kind == Transferencia {
        if conta.Conta? {
          if t.contaDestinoId == Some(conta.id) {
            saldoAnterior := saldoAnterior + t.valor;
          }
          if t.contaOrigemId == Some(conta.id) {
            saldoAnterior := saldoAnterior - t.valor;
          }
        }
      } else {
        saldoAnterior := saldoAnterior + (t.entrada - t.saida);
      }
      i := i + 1;
    }
    assert filtered[..|filtered|] == filtered;
  }

  method CalculateSaldoAnterior(contas: seq<BankAccount>, ps: seq<HistoryRecord>, rs: seq<HistoryRecord>, ts: seq<Transfer>,
                                despesas: map<string, Title>, receitas: map<string, Title>,
                                cats: map<string, PlanoDeContas>, start: string, conta: AccountFilter)
    returns (saldoAnterior: int)
    ensures saldoAnterior == OpeningBalance(contas, ps, rs, ts, despesas, receitas, cats, start, conta)
  {
    var initial;
    if conta == Todas {
      initial := SumSaldoInicial(contas);
    } else {
      var found := FindAccount(contas, conta.id);
      initial := if found.Some? then found.value.saldoInicial else 0;
    }
    var all := EnrichAndUnify(HistoryBefore(ps, start), HistoryBefore(rs, start), TransfersBefore(ts, start), despesas, receitas, cats);
    var filtered := ApplyFilters(all, conta, TodasRecon);
    saldoAnterior := AddEarlierEffects(initial, filtered, conta);
  }

  /** The amount a line moves on one account: the directional leg for a transfer. */
  function Leg(id: string): Tx -> int
  {
    (t: Tx) => (if t.contaDestinoId == Some(id) then t.valor else 0) - (if t.contaOrigemId == Some(id) then t.valor else 0)
  }

  function Net(): Tx -> int
  {
    (t: Tx) => t.entrada - t.saida
  }

  function IsTransferP(): Tx -> bool
  {
    (t: Tx) => IsTransfer(t)
  }

  function NotTransferP(): Tx -> bool
  {
    (t: Tx) => !IsTransfer(t)
  }

  /**
   * The earlier lines' effect on the opening balance is Σ(entrada − saida) over
   * the lines that are not transfers, plus, for a specific account only, each
   * transfer's directional leg.
   */
  lemma OpeningEffectSplit(txs: seq<Tx>, conta: AccountFilter)
    ensures Sum(txs, EffectOf(conta)) ==
      Sum(Filter(txs, NotTransferP()), Net())
      + (if conta.Todas? then 0 else Sum(Filter(txs, IsTransferP()), Leg(conta.id)))
  {
    SumFilterSplit(txs, EffectOf(conta), IsTransferP(), NotTransferP());
    var others := Filter(txs, NotTransferP());
    var transfers := Filter(txs, IsTransferP());
    SumCongruent(others, EffectOf(conta), Net());
    if conta.Todas? {
      SumZero(transfers, EffectOf(conta));
    } else {
      SumCongruent(transfers, EffectOf(conta), Leg(conta.id));
    }
  }

  /** The fold of the opening balance and the KPIs move the balance alike, line by line. */
  lemma {:induction false} OpeningEffectIsKpiNet(txs: seq<Tx>, conta: AccountFilter)
    ensures Sum(txs, EffectOf(conta)) == Sum(txs, EntradaOf(conta)) - Sum(txs, SaidaOf(conta))
    decreases |txs|
  {
    if txs != [] {
      OpeningEffectIsKpiNet(txs[..|txs| - 1], conta);
    }
  }

  // ---------------------------------------------------------------------------
  // Consistency of opening balances: moving the start forward adds the lines
  // in between
  // ---------------------------------------------------------------------------

  /** The records dated in the half-open window [from, to). */
  function HistoryWithin(hs: seq<HistoryRecord>, from: string, to: string): (r: seq<HistoryRecord>)
    ensures forall h :: h in r <==> h in hs && AtMost(from, h.dataTransacao) && Less(h.dataTransacao, to)
  {
    Filter(hs, RecordWithin(from, to))
  }

  function RecordWithin(from: string, to: string): HistoryRecord -> bool
  {
    (h: HistoryRecord) => AtMost(from, h.dataTransacao) && Less(h.dataTransacao, to)
  }

  /** The transfers dated in the half-open window [from, to). */
  function TransfersWithin(ts: seq<Transfer>, from: string, to: string): (r: seq<Transfer>)
    ensures forall t :: t in r <==> t in ts && AtMost(from, t.dataTransacao) && Less(t.dataTransacao, to)
  {
    Filter(ts, TransferWithin(from, to))
  }

  function TransferWithin(from: string, to: string): Transfer -> bool
  {
    (t: Transfer) => AtMost(from, t.dataTransacao) && Less(t.dataTransacao, to)
  }

  /** The ledger lines dated in [from, to) that the account filter keeps. */
  function WindowLines(ps: seq<HistoryRecord>, rs: seq<HistoryRecord>, ts: seq<Transfer>,
                       despesas: map<string, Title>, receitas: map<string, Title>,
                       cats: map<string, PlanoDeContas>, from: string, to: string, conta: AccountFilter): seq<Tx>
  {
    ApplyFilters(Ledger(HistoryWithin(ps, from, to), HistoryWithin(rs, from, to), TransfersWithin(ts, from, to),
                        despesas, receitas, cats), conta, TodasRecon)
  }

  /** What a payment record contributes, through its ledger line, to a sum over the lines. */
  function PaymentWeight(despesas: map<string, Title>, cats: map<string, PlanoDeContas>, g: Tx -> int): HistoryRecord -> int
  {
    (p: HistoryRecord) => if Kept(p, despesas) then g(PaymentLine(p, despesas[p.parentId], cats)) else 0
  }

  function ReceiptWeight(receitas: map<string, Title>, cats: map<string, PlanoDeContas>, g: Tx -> int): HistoryRecord -> int
  {
    (h: HistoryRecord) => if Kept(h, receitas) then g(ReceiptLine(h, receitas[h.parentId], cats)) else 0
  }

  function TransferWeight(g: Tx -> int): Transfer -> int
  {
    (t: Transfer) => g(TransferLine(t))
  }

  /** A sum over the payment lines is a sum over the payment records. */
  lemma {:induction false} PaymentLinesSum(ps: seq<HistoryRecord>, despesas: map<string, Title>,
                                           cats: map<string, PlanoDeContas>, g: Tx -> int)
    ensures Sum(PaymentLines(ps, despesas, cats), g) == Sum(ps, PaymentWeight(despesas, cats, g))
    decreases |ps|
  {
    if ps != [] {
      var init, p := ps[..|ps| - 1], ps[|ps| - 1];
      PaymentLinesSum(init, despesas, cats, g);
      if Kept(p, despesas) {
        var line := PaymentLine(p, despesas[p.parentId], cats);
        SumAppend(PaymentLines(init, despesas, cats), [line], g);
        assert Sum([line], g) == g(line) by {
          assert [line][..0] == [];
        }
      }
    }
  }

  /** A sum over the receipt lines is a sum over the receipt records. */
  lemma {:induction false} ReceiptLinesSum(rs: seq<HistoryRecord>, receitas: map<string, Title>,
                                           cats: map<string, PlanoDeContas>, g: Tx -> int)
    ensures Sum(ReceiptLines(rs, receitas, cats), g) == Sum(rs, ReceiptWeight(receitas, cats, g))
    decreases |rs|
  {
    if rs != [] {
      var init, h := rs[..|rs| - 1], rs[|rs| - 1];
      ReceiptLinesSum(init, receitas, cats, g);
      if Kept(h, receitas) {
        var line := ReceiptLine(h, receitas[h.parentId], cats);
        SumAppend(ReceiptLines(init, receitas, cats), [line], g);
        assert Sum([line], g) == g(line) by {
          assert [line][..0] == [];
        }
      }
    }
  }

  /** A sum over the transfer lines is a sum over the transfers. */
  lemma {:induction false} TransferLinesSum(ts: seq<Transfer>, g: Tx -> int)
    ensures Sum(TransferLines(ts), g) == Sum(ts, TransferWeight(g))
    decreases |ts|
  {
    if ts != [] {
      var init, t := ts[..|ts| - 1], ts[|ts| - 1];
      TransferLinesSum(init, g);
      SumAppend(TransferLines(init), [TransferLine(t)], g);
      assert Sum([TransferLine(t)], g) == g(TransferLine(t)) by {
        assert [TransferLine(t)][..0] == [];
      }
    }
  }

  /** A sum over the sorted ledger is the sum of the three record sums: sorting does not change it. */
  lemma LedgerSum(ps: seq<HistoryRecord>, rs: seq<HistoryRecord>, ts: seq<Transfer>,
                  despesas: map<string, Title>, receitas: map<string, Title>,
                  cats: map<string, PlanoDeContas>, g: Tx -> int)
    ensures Sum(Ledger(ps, rs, ts, despesas, receitas, cats), g)
      == Sum(ps, PaymentWeight(despesas, cats, g)) + Sum(rs, ReceiptWeight(receitas, cats, g)) + Sum(ts, TransferWeight(g))
  {
    var pl, rl, tl := PaymentLines(ps, despesas, cats), ReceiptLines(rs, receitas, cats), TransferLines(ts);
    SumPermutation(Ledger(ps, rs, ts, despesas, receitas, cats), pl + rl + tl, g);
    SumAppend(pl + rl, tl, g);
    SumAppend(pl, rl, g);
    PaymentLinesSum(ps, despesas, cats, g);
    ReceiptLinesSum(rs, receitas, cats, g);
    TransferLinesSum(ts, g);
  }

  /** The summand of the opening balance, zero on the lines the account filter drops. */
  function KeptEffect(conta: AccountFilter): Tx -> int
  {
    (t: Tx) => if FilterFor(conta, TodasRecon)(t) then EffectOf(conta)(t) else 0
  }

  /** The opening balance's sum over the filtered ledger, as a sum over every record. */
  lemma FilteredLedgerEffect(ps: seq<HistoryRecord>, rs: seq<HistoryRecord>, ts: seq<Transfer>,
                             despesas: map<string, Title>, receitas: map<string, Title>,
                             cats: map<string, PlanoDeContas>, conta: AccountFilter)
    ensures var g := KeptEffect(conta);
      Sum(ApplyFilters(Ledger(ps, rs, ts, despesas, receitas, cats), conta, TodasRecon), EffectOf(conta))
        == Sum(ps, PaymentWeight(despesas, cats, g)) + Sum(rs, ReceiptWeight(receitas, cats, g)) + Sum(ts, TransferWeight(g))
  {
    var all := Ledger(ps, rs, ts, despesas, receitas, cats);
    SumGuarded(all, FilterFor(conta, TodasRecon), EffectOf(conta), KeptEffect(conta));
    KeepIsFilter(all, FilterFor(conta, TodasRecon));
    LedgerSum(ps, rs, ts, despesas, receitas, cats, KeptEffect(conta));
  }

  /**
   * Opening balances are consistent: the balance at a later start `to` is the
   * balance at `from` plus the entradas and minus the saídas of the lines dated
   * in [from, to), as the KPIs count them.
   */
  lemma OpeningBalanceAdvances(contas: seq<BankAccount>, ps: seq<HistoryRecord>, rs: seq<HistoryRecord>, ts: seq<Transfer>,
                               despesas: map<string, Title>, receitas: map<string, Title>,
                               cats: map<string, PlanoDeContas>, from: string, to: string, conta: AccountFilter)
    requires Present(from) && Present(to) && Less(from, to)
    ensures var window := WindowLines(ps, rs, ts, despesas, receitas, cats, from, to, conta);
      OpeningBalance(contas, ps, rs, ts, despesas, receitas, cats, to, conta)
        == OpeningBalance(contas, ps, rs, ts, despesas, receitas, cats, from, conta)
           + Sum(window, EntradaOf(conta)) - Sum(window, SaidaOf(conta))
  {
    var g := KeptEffect(conta);
    var pw, rw, tw := PaymentWeight(despesas, cats, g), ReceiptWeight(receitas, cats, g), TransferWeight(g);
    FilteredLedgerEffect(HistoryBefore(ps, from), HistoryBefore(rs, from), TransfersBefore(ts, from), despesas, receitas, cats, conta);
    FilteredLedgerEffect(HistoryBefore(ps, to), HistoryBefore(rs, to), TransfersBefore(ts, to), despesas, receitas, cats, conta);
    FilteredLedgerEffect(HistoryWithin(ps, from, to), HistoryWithin(rs, from, to), TransfersWithin(ts, from, to),
                         despesas, receitas, cats, conta);
    forall h: HistoryRecord
      ensures RecordBefore(to)(h) == (RecordBefore(from)(h) || RecordWithin(from, to)(h))
    {
      if Less(h.dataTransacao, from) {
        LessTransitive(h.dataTransacao, from, to);
      }
    }
    forall t: Transfer
      ensures TransferBefore(to)(t) == (TransferBefore(from)(t) || TransferWithin(from, to)(t))
    {
      if Less(t.dataTransacao, from) {
        LessTransitive(t.dataTransacao, from, to);
      }
    }
    SumFilterUnion(ps, pw, RecordBefore(to), RecordBefore(from), RecordWithin(from, to));
    SumFilterUnion(rs, rw, RecordBefore(to), RecordBefore(from), RecordWithin(from, to));
    SumFilterUnion(ts, tw, TransferBefore(to), TransferBefore(from), TransferWithin(from, to));
    OpeningEffectIsKpiNet(WindowLines(ps, rs, ts, despesas, receitas, cats, from, to, conta), conta);
  }

  // ---------------------------------------------------------------------------
  // renderExtrato: the running balance of the statement
  // ---------------------------------------------------------------------------

  /** A rendered statement row and the balance after it. */
  datatype Row = Row(tx: Tx, entrada: int, saida: int, saldo: int)

  /** The entrada/saida a line shows, or None when the line is not rendered. */
  function RowAmounts(t: Tx, conta: AccountFilter): Option<(int, int)>
  {
    if t.kind == Transferencia then
      match conta
      case Todas => None
      case Conta(id) =>
        if t.contaDestinoId == Some(id) then Some((t.valor, t.saida))
        else if t.contaOrigemId == Some(id) then Some((t.entrada, t.valor))
        else None
    else Some((t.entrada, t.saida))
  }

  function RenderedUnder(conta: AccountFilter): Tx -> bool
  {
    (t: Tx) => RowAmounts(t, conta).Some?
  }

  /** The balance after the last row, or the opening balance when no row is rendered. */
  function LastBalance(rows: seq<Row>, s0: int): int
  {
    if rows == [] then s0 else rows[|rows| - 1].saldo
  }

  function RowTxs(rows: seq<Row>): (r: seq<Tx>)
    ensures |r| == |rows|
    ensures forall i :: 0 <= i < |rows| ==> r[i] == rows[i].tx
    decreases |rows|
  {
    if rows == [] then [] else RowTxs(rows[..|rows| - 1]) + [rows[|rows| - 1].tx]
  }

  /** The statement rows of `txs`. */
  function StatementRows(txs: seq<Tx>, conta: AccountFilter, s0: int): seq<Row>
    decreases |txs|
  {
    if txs == [] then []
    else
      var prev := StatementRows(txs[..|txs| - 1], conta, s0);
      var t := txs[|txs| - 1];
      var amounts := RowAmounts(t, conta);
      if amounts.None? then prev
      else
        prev + [Row(t, amounts.value.0, amounts.value.1, LastBalance(prev, s0) + amounts.value.0 - amounts.value.1)]
  }

  /**
   * Each row shows the entrada/saida its line renders with, and each balance is
   * the one before it (the opening balance for the first row) plus the row's
   * entrada minus its saida.
   */
  lemma {:induction false} StatementRowsBalances(txs: seq<Tx>, conta: AccountFilter, s0: int)
    ensures var rows := StatementRows(txs, conta, s0);
      && (forall i :: 0 <= i < |rows| ==> RowAmounts(rows[i].tx, conta) == Some((rows[i].entrada, rows[i].saida)))
      && (|rows| > 0 ==> rows[0].saldo == s0 + rows[0].entrada - rows[0].saida)
      && (forall i :: 0 < i < |rows| ==> rows[i].saldo == rows[i - 1].saldo + rows[i].entrada - rows[i].saida)
    decreases |txs|
  {
    if txs != [] {
      StatementRowsBalances(txs[..|txs| - 1], conta, s0);
    }
  }

  /** The rows are exactly the rendered lines, in ledger order. */
  lemma {:induction false} StatementRowsAreRenderedLines(txs: seq<Tx>, conta: AccountFilter, s0: int)
    ensures RowTxs(StatementRows(txs, conta, s0)) == Filter(txs, RenderedUnder(conta))
    decreases |txs|
  {
    if txs != [] {
      var prev := StatementRows(txs[..|txs| - 1], conta, s0);
      StatementRowsAreRenderedLines(txs[..|txs| - 1], conta, s0);
      var rows := StatementRows(txs, conta, s0);
      if RowAmounts(txs[|txs| - 1], conta).Some? {
        assert rows[..|rows| - 1] == prev;
      }
    }
  }

  lemma StatementRowsStep(txs: seq<Tx>, i: nat, conta: AccountFilter, s0: int)
    requires i < |txs|
    ensures var prev, amounts := StatementRows(txs[..i], conta, s0), RowAmounts(txs[i], conta);
      StatementRows(txs[..i + 1], conta, s0)
      == if amounts.None? then prev
         else prev + [Row(txs[i], amounts.value.0, amounts.value.1, LastBalance(prev, s0) + amounts.value.0 - amounts.value.1)]
  {
    assert txs[..i + 1][..i] == txs[..i];
  }

  method RenderExtrato(txs: seq<Tx>, conta: AccountFilter, saldoInicial: int) returns (rows: seq<Row>)
    ensures rows == StatementRows(txs, conta, saldoInicial)
  {
    rows := [];
    var saldoAcumulado := saldoInicial;
    var i := 0;
    while i < |txs|
      invariant 0 <= i <= |txs|
      invariant rows == StatementRows(txs[..i], conta, saldoInicial)
      invariant saldoAcumulado == LastBalance(rows, saldoInicial)
    {
      var t := txs[i];
      var entrada, saida := t.entrada, t.saida;
      var render := true;
      if t.kind == Transferencia {
        if conta == Todas {
          render := false;
        } else if t.contaDestinoId == Some(conta.id) {
          entrada := t.valor;
        } else if t.contaOrigemId == Some(conta.id) {
          saida := t.valor;
        } else {
          render := false;
        }
      }
      assert RowAmounts(t, conta) == if render then Some((entrada, saida)) else None;
      StatementRowsStep(txs, i, conta, saldoInicial);
      if render {
        saldoAcumulado := saldoAcumulado + (entrada - saida);
        rows := rows + [Row(t, entrada, saida, saldoAcumulado)];
      }
      i := i + 1;
    }
    assert txs[..|txs|] == txs;
  }


  /** No transfer from the selected account to itself. */
  predicate NoSelfTransfer(txs: seq<Tx>, conta: AccountFilter)
  {
    forall t :: t in txs && IsTransfer(t) && conta.Conta? ==>
      !(t.contaOrigemId == Some(conta.id) && t.contaDestinoId == Some(conta.id))
  }

  /** Transfers carry their amount in `valor` only. */
  predicate TransfersWellFormed(txs: seq<Tx>)
  {
    forall t :: t in txs && IsTransfer(t) ==> t.entrada == 0 && t.saida == 0
  }

  /**
   * The statement ends at the KPIs' saldo final: the last rendered balance is
   * the opening balance plus totalEntradas minus totalSaidas.
   */
  lemma {:induction false} StatementEndsAtSaldoFinal(txs: seq<Tx>, conta: AccountFilter, s0: int)
    requires NoSelfTransfer(txs, conta) && TransfersWellFormed(txs)
    ensures LastBalance(StatementRows(txs, conta, s0), s0) == s0 + Sum(txs, EntradaOf(conta)) - Sum(txs, SaidaOf(conta))
    decreases |txs|
  {
    if txs != [] {
      var init, t := txs[..|txs| - 1], txs[|txs| - 1];
      assert t in txs;
      assert forall x :: x in init ==> x in txs;
      StatementEndsAtSaldoFinal(init, conta, s0);
      RowMatchesKpi(t, conta);
    }
  }

  /** A rendered row shows the line's KPI amounts; a line not rendered feeds no KPI. */
  lemma RowMatchesKpi(t: Tx, conta: AccountFilter)
    requires IsTransfer(t) ==> t.entrada == 0 && t.saida == 0
    requires IsTransfer(t) && conta.Conta? ==> !(t.contaOrigemId == Some(conta.id) && t.contaDestinoId == Some(conta.id))
    ensures RowAmounts(t, conta).None? ==> KpiEntrada(t, conta) == 0 && KpiSaida(t, conta) == 0
    ensures RowAmounts(t, conta).Some? ==> RowAmounts(t, conta).value == (KpiEntrada(t, conta), KpiSaida(t, conta))
  {
  }

  /** Ledger lines built from the store always have well-formed transfers. */
  lemma LedgerTransfersWellFormed(ps: seq<HistoryRecord>, rs: seq<HistoryRecord>, ts: seq<Transfer>,
                                  despesas: map<string, Title>, receitas: map<string, Title>,
                                  cats: map<string, PlanoDeContas>)
    ensures TransfersWellFormed(Ledger(ps, rs, ts, despesas, receitas, cats))
  {
    var L := Ledger(ps, rs, ts, despesas, receitas, cats);
    var T := TransferLines(ts);
    forall t | t in L && IsTransfer(t) ensures t.entrada == 0 && t.saida == 0 {
      assert t in multiset(PaymentLines(ps, despesas, cats) + ReceiptLines(rs, receitas, cats) + T);
      if t in T {
        var k :| 0 <= k < |ts| && T[k] == t;
      }
    }
  }

  // ---------------------------------------------------------------------------
  // calculateAndRenderCashFlow: the period's ledger and KPIs
  // ---------------------------------------------------------------------------

  /** The records the period queries return: `start <= dataTransacao <= end`, for each bound given. */
  function HistoryBetween(hs: seq<HistoryRecord>, start: string, end: string): (r: seq<HistoryRecord>)
    ensures forall h :: h in r <==> h in hs && AtMost(start, h.dataTransacao) && AtMost(h.dataTransacao, end)
  {
    Filter(hs, (h: HistoryRecord) => AtMost(start, h.dataTransacao) && AtMost(h.dataTransacao, end))
  }

  function TransfersBetween(ts: seq<Transfer>, start: string, end: string): (r: seq<Transfer>)
    ensures forall t :: t in r <==> t in ts && AtMost(start, t.dataTransacao) && AtMost(t.dataTransacao, end)
  {
    Filter(ts, (t: Transfer) => AtMost(start, t.dataTransacao) && AtMost(t.dataTransacao, end))
  }

  /** A what-if item as a ledger line; `comparison` marks the lines of a compared saved scenario. */
  function ScenarioLine(item: WhatIfItem, comparison: bool): Tx
  {
    Tx(item.id, "", item.data,
       (if comparison then "(Comparado) " else "(Simulado) ") + item.descricao,
       if comparison then "Comparação" else "Simulação",
       if comparison then "Comparação" else "Simulação",
       item.data, "", Simulado(item.dir),
       if item.dir == Receita then item.valor else 0,
       if item.dir == Despesa then item.valor else 0,
       0, 0, None, item.valor, None, None, None, true, true, comparison)
  }

  function ScenarioLines(items: seq<WhatIfItem>, comparison: bool): (r: seq<Tx>)
    ensures |r| == |items|
    ensures forall i :: 0 <= i < |items| ==> r[i] == ScenarioLine(items[i], comparison)
    decreases |items|
  {
    if items == [] then [] else ScenarioLines(items[..|items| - 1], comparison) + [ScenarioLine(items[|items| - 1], comparison)]
  }

  /** A what-if line has no account and no reconciliation flag. */
  lemma ScenarioLineIsUnassigned(item: WhatIfItem, comparison: bool)
    ensures ScenarioLine(item, comparison).kind != Transferencia
    ensures ScenarioLine(item, comparison).contaId == None && ScenarioLine(item, comparison).conciliado == None
  {
  }

  /**
   * What-if lines carry neither an account nor a reconciliation flag, so a
   * specific account or a reconciliation button hides all of them.
   */
  lemma ScenarioLinesHiddenByFilters(items: seq<WhatIfItem>, comparison: bool, conta: AccountFilter, recon: ReconFilter)
    requires conta.Conta? || recon != TodasRecon
    ensures ApplyFilters(ScenarioLines(items, comparison), conta, recon) == []
  {
    ScenarioLinesKeptNone(items, comparison, conta, recon);
    KeepIsFilter(ScenarioLines(items, comparison), FilterFor(conta, recon));
  }

  lemma {:induction false} ScenarioLinesKeptNone(items: seq<WhatIfItem>, comparison: bool, conta: AccountFilter, recon: ReconFilter)
    requires conta.Conta? || recon != TodasRecon
    ensures Keep(ScenarioLines(items, comparison), FilterFor(conta, recon)) == []
    decreases |items|
  {
    if items != [] {
      var init, last := items[..|items| - 1], items[|items| - 1];
      ScenarioLinesKeptNone(init, comparison, conta, recon);
      ScenarioLineIsUnassigned(last, comparison);
      KeepSnoc(ScenarioLines(init, comparison), ScenarioLine(last, comparison), FilterFor(conta, recon));
    }
  }

  /** The screen's state after a recalculation. */
  datatype CashFlowView =
    | NoPeriod                         // a period bound is missing
    | NoView                           // neither Realizado nor Projetado is ticked: all KPIs are 0
    | View(kpis: Kpis, lines: seq<Tx>)

  /** The period's lines before filtering: realized, projected, simulated and compared, sorted by date. */
  function PeriodLines(realized: seq<Tx>, projected: seq<Tx>, scenario: seq<WhatIfItem>,
                       comparison: Option<seq<WhatIfItem>>): (r: seq<Tx>)
    ensures multiset(r) == multiset(realized + projected + ScenarioLines(scenario, false)
                                    + (if comparison.Some? then ScenarioLines(comparison.value, true) else []))
    ensures SortedBy(r, ByDate())
  {
    ByDateIsTotalPreorder();
    Sort(realized + projected + ScenarioLines(scenario, false)
         + (if comparison.Some? then ScenarioLines(comparison.value, true) else []), ByDate())
  }

  /** calculateAndRenderCashFlow, without the rendering. */
  method CalculateCashFlow(contas: seq<BankAccount>, ps: seq<HistoryRecord>, rs: seq<HistoryRecord>, ts: seq<Transfer>,
                           despesas: seq<Title>, receitas: seq<Title>,
                           despesaDocs: map<string, Title>, receitaDocs: map<string, Title>,
                           cats: map<string, PlanoDeContas>,
                           start: string, end: string, conta: AccountFilter, recon: ReconFilter,
                           showRealizado: bool, showProjetado: bool,
                           scenario: seq<WhatIfItem>, comparison: Option<seq<WhatIfItem>>)
    returns (view: CashFlowView)
    ensures view == NoPeriod <==> !Present(start) || !Present(end)
    ensures view == NoView <==> Present(start) && Present(end) && !showRealizado && !showProjetado
    ensures view.View? ==>
      var realized := if showRealizado
        then Ledger(HistoryBetween(ps, start, end), HistoryBetween(rs, start, end), TransfersBetween(ts, start, end), despesaDocs, receitaDocs, cats)
        else [];
      var projected := if showProjetado
        then ProjectedPayables(despesas, start, end, cats) + ProjectedReceivables(receitas, start, end, cats)
        else [];
      var saldoAnterior := OpeningBalance(contas, ps, rs, ts, despesaDocs, receitaDocs, cats, start, conta);
      && view.lines == ApplyFilters(PeriodLines(realized, projected, scenario, comparison), conta, recon)
      && view.kpis.saldoAnterior == saldoAnterior
      && view.kpis.totalEntradas == Sum(view.lines, EntradaOf(conta))
      && view.kpis.totalSaidas == Sum(view.lines, SaidaOf(conta))
      && view.kpis.saldoFinal == saldoAnterior + view.kpis.totalEntradas - view.kpis.totalSaidas
  {
    if !Present(start) || !Present(end) {
      return NoPeriod;
    }
    if !showRealizado && !showProjetado {
      return NoView;
    }
    var saldoAnterior := CalculateSaldoAnterior(contas, ps, rs, ts, despesaDocs, receitaDocs, cats, start, conta);
    var realized: seq<Tx> := [];
    if showRealizado {
      realized := EnrichAndUnify(HistoryBetween(ps, start, end), HistoryBetween(rs, start, end), TransfersBetween(ts, start, end),
                                 despesaDocs, receitaDocs, cats);
    }
    var projected: seq<Tx> := [];
    if showProjetado {
      projected := FetchProjected(despesas, receitas, start, end, cats);
    }
    var lines := ApplyFilters(PeriodLines(realized, projected, scenario, comparison), conta, recon);
    var kpis := CalculateKpis(saldoAnterior, lines, conta);
    view := View(kpis, lines);
  }

  // ---------------------------------------------------------------------------
  // processWhatIfEvolucaoSaldoData: the four balance series of the what-if chart
  // ---------------------------------------------------------------------------

  /** The changes of one day, by kind of line. */
  datatype DayChanges = DayChanges(realizado: int, projetado: int, simulado: int, comparado: int)

  const NoChanges := DayChanges(0, 0, 0, 0)

  /** A line's net change goes to the first matching kind: compared, simulated, projected, realized. */
  function AddChange(c: DayChanges, t: Tx): DayChanges
  {
    var net := t.entrada - t.saida;
    if t.isComparison then c.(comparado := c.comparado + net)
    else if t.isSimulated then c.(simulado := c.simulado + net)
    else if t.isProjected then c.(projetado := c.projetado + net)
    else c.(realizado := c.realizado + net)
  }

  /** The changes the lines dated `day` add up to. */
  function ChangesOn(txs: seq<Tx>, day: string): DayChanges
    decreases |txs|
  {
    if txs == [] then NoChanges
    else
      var c := ChangesOn(txs[..|txs| - 1], day);
      if txs[|txs| - 1].data == day then AddChange(c, txs[|txs| - 1]) else c
  }

  /** The days that carry at least one dated line. */
  function DaysOf(txs: seq<Tx>): (days: set<string>)
    ensures forall d :: d in days <==> Present(d) && exists t :: t in txs && t.data == d
    decreases |txs|
  {
    if txs == [] then {}
    else
      var t := txs[|txs| - 1];
      assert txs == txs[..|txs| - 1] + [t];
      DaysOf(txs[..|txs| - 1]) + (if Present(t.data) then {t.data} else {})
  }

  lemma {:induction false} ChangesOnQuietDay(txs: seq<Tx>, day: string)
    requires Present(day) && day !in DaysOf(txs)
    ensures ChangesOn(txs, day) == NoChanges
    decreases |txs|
  {
    if txs != [] {
      ChangesOnQuietDay(txs[..|txs| - 1], day);
    }
  }

  /** The labels and the four series, one entry per day. */
  datatype WhatIfSeries = WhatIfSeries(days: seq<string>, realizado: seq<int>, projetado: seq<int>,
                                       simulado: seq<int>, comparado: seq<int>)

  /** The day's changes, none for a day without lines. */
  function ChangesAt(ch: map<string, DayChanges>, d: string): DayChanges
  {
    if d in ch then ch[d] else NoChanges
  }

  function RealizadoOf(ch: map<string, DayChanges>): string -> int
  {
    (d: string) => ChangesAt(ch, d).realizado
  }

  function RealizadoProjetadoOf(ch: map<string, DayChanges>): string -> int
  {
    (d: string) => ChangesAt(ch, d).realizado + ChangesAt(ch, d).projetado
  }

  function SimuladoOf(ch: map<string, DayChanges>): string -> int
  {
    (d: string) => ChangesAt(ch, d).simulado
  }

  function ComparadoOf(ch: map<string, DayChanges>): string -> int
  {
    (d: string) => ChangesAt(ch, d).comparado
  }

  /** `f` applied to every day. */
  function PerDay(days: seq<string>, f: string -> int): (r: seq<int>)
    ensures |r| == |days|
    decreases |days|
  {
    if days == [] then [] else PerDay(days[..|days| - 1], f) + [f(days[|days| - 1])]
  }

  /** The per-day changes of a prefix of the days are the prefix of the per-day changes. */
  lemma PerDayPrefix(days: seq<string>, k: nat, f: string -> int)
    requires k <= |days|
    ensures PerDay(days[..k], f) == PerDay(days, f)[..k]
  {
    PerDayAt(days, f);
    PerDayAt(days[..k], f);
  }

  lemma {:induction false} PerDayAt(days: seq<string>, f: string -> int)
    ensures forall i :: 0 <= i < |days| ==> PerDay(days, f)[i] == f(days[i])
    decreases |days|
  {
    if days != [] {
      PerDayAt(days[..|days| - 1], f);
    }
  }

  /** The last balance of a running series, `s0` before the first day. */
  function LastOr(r: seq<int>, s0: int): int
  {
    if r == [] then s0 else r[|r| - 1]
  }

  /** The running balance that starts at `s0` and adds each change in turn. */
  function Cumulative(xs: seq<int>, s0: int): (r: seq<int>)
    ensures |r| == |xs|
    decreases |xs|
  {
    if xs == [] then [] else var prev := Cumulative(xs[..|xs| - 1], s0); prev + [LastOr(prev, s0) + xs[|xs| - 1]]
  }

  /** Each entry of the running balance is `s0` plus the changes up to and including that day. */
  lemma {:induction false} CumulativeIsPrefixTotal(xs: seq<int>, s0: int)
    ensures forall i :: 0 <= i < |xs| ==> Cumulative(xs, s0)[i] == s0 + Total(xs[..i + 1])
    ensures LastOr(Cumulative(xs, s0), s0) == s0 + Total(xs)
    decreases |xs|
  {
    if xs != [] {
      var front := xs[..|xs| - 1];
      CumulativeIsPrefixTotal(front, s0);
      forall k | 0 < k < |xs|
        ensures Total(xs[..k]) == Total(front[..k])
      {
        assert xs[..k] == front[..k];
      }
      assert xs[..|xs|] == xs;
      assert xs[..|xs|][..|xs| - 1] == front;
    }
  }

  /** Element-wise sum: a base series plus one change per day, not accumulated. */
  function Shifted(base: seq<int>, xs: seq<int>): (r: seq<int>)
    requires |base| == |xs|
    ensures |r| == |xs|
    decreases |xs|
  {
    if xs == [] then [] else Shifted(base[..|base| - 1], xs[..|xs| - 1]) + [base[|base| - 1] + xs[|xs| - 1]]
  }

  lemma {:induction false} ShiftedAt(base: seq<int>, xs: seq<int>)
    requires |base| == |xs|
    ensures forall i :: 0 <= i < |xs| ==> Shifted(base, xs)[i] == base[i] + xs[i]
    decreases |xs|
  {
    if xs != [] {
      ShiftedAt(base[..|base| - 1], xs[..|xs| - 1]);
    }
  }

  lemma PerDayStep(days: seq<string>, j: nat, f: string -> int)
    requires j < |days|
    ensures PerDay(days[..j + 1], f) == PerDay(days[..j], f) + [f(days[j])]
  {
    assert days[..j + 1][..j] == days[..j];
  }

  lemma CumulativeStep(xs: seq<int>, x: int, s0: int)
    ensures Cumulative(xs + [x], s0) == Cumulative(xs, s0) + [LastOr(Cumulative(xs, s0), s0) + x]
  {
    assert (xs + [x])[..|xs|] == xs;
  }

  lemma ShiftedStep(base: seq<int>, xs: seq<int>, b: int, x: int)
    requires |base| == |xs|
    ensures Shifted(base + [b], xs + [x]) == Shifted(base, xs) + [b + x]
  {
    assert (base + [b])[..|base|] == base;
    assert (xs + [x])[..|xs|] == xs;
  }

  /** realizado: the opening balance plus the realized changes up to each day. */
  function RealizadoSeries(days: seq<string>, ch: map<string, DayChanges>, s0: int): seq<int>
  {
    Cumulative(PerDay(days, RealizadoOf(ch)), s0)
  }

  /** projetado: the opening balance plus the realized and projected changes up to each day. */
  function ProjetadoSeries(days: seq<string>, ch: map<string, DayChanges>, s0: int): seq<int>
  {
    Cumulative(PerDay(days, RealizadoProjetadoOf(ch)), s0)
  }

  /** The series the scenario lines are drawn against. */
  function BaseSeries(days: seq<string>, ch: map<string, DayChanges>, s0: int, includeProjections: bool): seq<int>
  {
    if includeProjections then ProjetadoSeries(days, ch, s0) else RealizadoSeries(days, ch, s0)
  }

  /** simulado: each day's base balance plus only that day's simulated change. */
  function SimuladoSeries(days: seq<string>, ch: map<string, DayChanges>, s0: int, includeProjections: bool): seq<int>
  {
    Shifted(BaseSeries(days, ch, s0, includeProjections), PerDay(days, SimuladoOf(ch)))
  }

  /** comparado: each day's base balance plus only that day's compared change. */
  function ComparadoSeries(days: seq<string>, ch: map<string, DayChanges>, s0: int, includeProjections: bool): seq<int>
  {
    Shifted(BaseSeries(days, ch, s0, includeProjections), PerDay(days, ComparadoOf(ch)))
  }

  /** The four series of the chart over the days and their changes. */
  predicate SeriesFollow(w: WhatIfSeries, ch: map<string, DayChanges>, s0: int, includeProjections: bool)
  {
    && w.realizado == RealizadoSeries(w.days, ch, s0)
    && w.projetado == ProjetadoSeries(w.days, ch, s0)
    && w.simulado == SimuladoSeries(w.days, ch, s0, includeProjections)
    && w.comparado == ComparadoSeries(w.days, ch, s0, includeProjections)
  }

  /** Each realized balance is the opening balance plus the realized changes through that day. */
  lemma RealizadoSeriesAt(days: seq<string>, ch: map<string, DayChanges>, s0: int, i: nat)
    requires i < |days|
    ensures RealizadoSeries(days, ch, s0)[i] == s0 + Total(PerDay(days[..i + 1], RealizadoOf(ch)))
  {
    var xs := PerDay(days, RealizadoOf(ch));
    CumulativeIsPrefixTotal(xs, s0);
    PerDayPrefix(days, i + 1, RealizadoOf(ch));
  }

  /** Each simulated balance differs from its base balance by exactly that day's simulated change. */
  lemma SimuladoSeriesAt(days: seq<string>, ch: map<string, DayChanges>, s0: int, includeProjections: bool, i: nat)
    requires i < |days|
    ensures SimuladoSeries(days, ch, s0, includeProjections)[i] == BaseSeries(days, ch, s0, includeProjections)[i] + ChangesAt(ch, days[i]).simulado
  {
    PerDayAt(days, SimuladoOf(ch));
    ShiftedAt(BaseSeries(days, ch, s0, includeProjections), PerDay(days, SimuladoOf(ch)));
  }

  /** `dailyChanges`: the changes of every dated day of the lines. */
  ghost predicate IsDailyChanges(ch: map<string, DayChanges>, txs: seq<Tx>)
  {
    && (forall d :: d in ch <==> d in DaysOf(txs))
    && (forall d :: d in ch ==> ch[d] == ChangesOn(txs, d))
  }

  /** The days seen so far, in order of appearance, and their changes. */
  ghost predicate Aggregated(changes: map<string, DayChanges>, keys: seq<string>, txs: seq<Tx>)
  {
    && NoDuplicates(keys)
    && (forall d :: d in keys <==> d in changes)
    && IsDailyChanges(changes, txs)
  }

  /** One line of the first forEach: a dated line opens its day if needed and adds to it. */
  function Aggregating(changes: map<string, DayChanges>, keys: seq<string>, t: Tx): (map<string, DayChanges>, seq<string>)
  {
    var day := t.data;
    if day == [] then (changes, keys)
    else
      var withDay := if day !in changes then changes[day := NoChanges] else changes;
      (withDay[day := AddChange(withDay[day], t)], if day !in changes then keys + [day] else keys)
  }

  lemma AggregateStep(changes: map<string, DayChanges>, keys: seq<string>, txs: seq<Tx>, i: nat)
    requires i < |txs| && Aggregated(changes, keys, txs[..i])
    ensures var (c, k) := Aggregating(changes, keys, txs[i]); Aggregated(c, k, txs[..i + 1])
  {
    DailyChangesStep(changes, keys, txs, i);
  }

  lemma DailyChangesStep(changes: map<string, DayChanges>, keys: seq<string>, txs: seq<Tx>, i: nat)
    requires i < |txs| && IsDailyChanges(changes, txs[..i])
    ensures IsDailyChanges(Aggregating(changes, keys, txs[i]).0, txs[..i + 1])
  {
    var prefix, next, t := txs[..i], txs[..i + 1], txs[i];
    assert next[..|next| - 1] == prefix;
    assert next[|next| - 1] == t;
    assert DaysOf(next) == DaysOf(prefix) + (if Present(t.data) then {t.data} else {});
    if Present(t.data) && t.data !in changes {
      ChangesOnQuietDay(prefix, t.data);
    }
    var c := Aggregating(changes, keys, t).0;
    forall d | d in c ensures c[d] == ChangesOn(next, d) {
      assert ChangesOn(next, d) == if t.data == d then AddChange(ChangesOn(prefix, d), t) else ChangesOn(prefix, d);
    }
  }

  /** The first forEach: the changes of the lines, day by day, and the days in order of appearance. */
  method AggregateByDay(txs: seq<Tx>) returns (changes: map<string, DayChanges>, keys: seq<string>)
    ensures IsDailyChanges(changes, txs)
    ensures NoDuplicates(keys) && forall d :: d in keys <==> d in changes
  {
    changes := map[];
    keys := [];
    var i := 0;
    while i < |txs|
      invariant 0 <= i <= |txs|
      invariant Aggregated(changes, keys, txs[..i])
    {
      AggregateStep(changes, keys, txs, i);
      var t := txs[i];
      var day := t.data;
      if day != [] {
        if day !in changes {
          changes := changes[day := NoChanges];
          keys := keys + [day];
        }
        changes := changes[day := AddChange(changes[day], t)];
      }
      i := i + 1;
    }
    assert txs[..|txs|] == txs;
  }

  lemma RealizadoSeriesStep(days: seq<string>, j: nat, ch: map<string, DayChanges>, s0: int)
    requires j < |days| && days[j] in ch
    ensures var prev := RealizadoSeries(days[..j], ch, s0);
      RealizadoSeries(days[..j + 1], ch, s0) == prev + [LastOr(prev, s0) + ch[days[j]].realizado]
  {
    assert RealizadoOf(ch)(days[j]) == ch[days[j]].realizado;
    PerDayStep(days, j, RealizadoOf(ch));
    CumulativeStep(PerDay(days[..j], RealizadoOf(ch)), ch[days[j]].realizado, s0);
  }

  lemma ProjetadoSeriesStep(days: seq<string>, j: nat, ch: map<string, DayChanges>, s0: int)
    requires j < |days| && days[j] in ch
    ensures var prev := ProjetadoSeries(days[..j], ch, s0);
      ProjetadoSeries(days[..j + 1], ch, s0) == prev + [LastOr(prev, s0) + ch[days[j]].realizado + ch[days[j]].projetado]
  {
    var c := ch[days[j]];
    assert RealizadoProjetadoOf(ch)(days[j]) == c.realizado + c.projetado;
    PerDayStep(days, j, RealizadoProjetadoOf(ch));
    CumulativeStep(PerDay(days[..j], RealizadoProjetadoOf(ch)), c.realizado + c.projetado, s0);
  }

  lemma BaseSeriesStep(days: seq<string>, j: nat, ch: map<string, DayChanges>, s0: int, includeProjections: bool)
    requires j < |days| && days[j] in ch
    ensures var next := BaseSeries(days[..j + 1], ch, s0, includeProjections);
      next == BaseSeries(days[..j], ch, s0, includeProjections) + [LastOr(next, s0)]
  {
    if includeProjections {
      ProjetadoSeriesStep(days, j, ch, s0);
    } else {
      RealizadoSeriesStep(days, j, ch, s0);
    }
  }

  /** A series that shifts the base balance by one kind of change grows by one day's value. */
  lemma ShiftedSeriesStep(days: seq<string>, j: nat, ch: map<string, DayChanges>, s0: int, includeProjections: bool, f: string -> int)
    requires j < |days| && days[j] in ch
    ensures var next := BaseSeries(days[..j + 1], ch, s0, includeProjections);
      Shifted(next, PerDay(days[..j + 1], f))
      == Shifted(BaseSeries(days[..j], ch, s0, includeProjections), PerDay(days[..j], f)) + [LastOr(next, s0) + f(days[j])]
  {
    BaseSeriesStep(days, j, ch, s0, includeProjections);
    PerDayStep(days, j, f);
    var next := BaseSeries(days[..j + 1], ch, s0, includeProjections);
    ShiftedStep(BaseSeries(days[..j], ch, s0, includeProjections), PerDay(days[..j], f), LastOr(next, s0), f(days[j]));
  }

  lemma SimuladoSeriesStep(days: seq<string>, j: nat, ch: map<string, DayChanges>, s0: int, includeProjections: bool)
    requires j < |days| && days[j] in ch
    ensures SimuladoSeries(days[..j + 1], ch, s0, includeProjections)
         == SimuladoSeries(days[..j], ch, s0, includeProjections)
            + [LastOr(BaseSeries(days[..j + 1], ch, s0, includeProjections), s0) + ch[days[j]].simulado]
  {
    var f := SimuladoOf(ch);
    assert f(days[j]) == ch[days[j]].simulado;
    ShiftedSeriesStep(days, j, ch, s0, includeProjections, f);
    assert SimuladoSeries(days[..j + 1], ch, s0, includeProjections)
        == Shifted(BaseSeries(days[..j + 1], ch, s0, includeProjections), PerDay(days[..j + 1], f));
    assert SimuladoSeries(days[..j], ch, s0, includeProjections)
        == Shifted(BaseSeries(days[..j], ch, s0, includeProjections), PerDay(days[..j], f));
  }

  lemma ComparadoSeriesStep(days: seq<string>, j: nat, ch: map<string, DayChanges>, s0: int, includeProjections: bool)
    requires j < |days| && days[j] in ch
    ensures ComparadoSeries(days[..j + 1], ch, s0, includeProjections)
         == ComparadoSeries(days[..j], ch, s0, includeProjections)
            + [LastOr(BaseSeries(days[..j + 1], ch, s0, includeProjections), s0) + ch[days[j]].comparado]
  {
    var f := ComparadoOf(ch);
    assert f(days[j]) == ch[days[j]].comparado;
    ShiftedSeriesStep(days, j, ch, s0, includeProjections, f);
    assert ComparadoSeries(days[..j + 1], ch, s0, includeProjections)
        == Shifted(BaseSeries(days[..j + 1], ch, s0, includeProjections), PerDay(days[..j + 1], f));
    assert ComparadoSeries(days[..j], ch, s0, includeProjections)
        == Shifted(BaseSeries(days[..j], ch, s0, includeProjections), PerDay(days[..j], f));
  }



  /** One day of the second forEach: both running balances move, the what-if lines sit on the base one. */
  function Advance(w: WhatIfSeries, day: string, c: DayChanges, s0: int, includeProjections: bool): WhatIfSeries
  {
    var runR := LastOr(w.realizado, s0) + c.realizado;
    var runP := LastOr(w.projetado, s0) + c.realizado + c.projetado;
    var runB := if includeProjections then runP else runR;
    WhatIfSeries(w.days + [day], w.realizado + [runR], w.projetado + [runP],
                 w.simulado + [runB + c.simulado], w.comparado + [runB + c.comparado])
  }

  /** The chart the second forEach has built after the first `n` days. */
  function SeriesUpTo(days: seq<string>, n: nat, ch: map<string, DayChanges>, s0: int, includeProjections: bool): WhatIfSeries
    requires n <= |days|
    decreases n
  {
    if n == 0 then WhatIfSeries([], [], [], [], [])
    else Advance(SeriesUpTo(days, n - 1, ch, s0, includeProjections), days[n - 1], ChangesAt(ch, days[n - 1]), s0, includeProjections)
  }

  /** Built day by day, the chart is the four series defined from the changes. */
  lemma SeriesUpToFollows(days: seq<string>, ch: map<string, DayChanges>, s0: int, includeProjections: bool)
    requires forall i :: 0 <= i < |days| ==> days[i] in ch
    ensures var w := SeriesUpTo(days, |days|, ch, s0, includeProjections);
      w.days == days && SeriesFollow(w, ch, s0, includeProjections)
  {
    var n := |days|;
    SeriesUpToDays(days, n, ch, s0, includeProjections);
    RealizadoFollows(days, n, ch, s0, includeProjections);
    ProjetadoFollows(days, n, ch, s0, includeProjections);
    SimuladoFollows(days, n, ch, s0, includeProjections);
    ComparadoFollows(days, n, ch, s0, includeProjections);
    assert days[..n] == days;
  }

  lemma {:induction false} SeriesUpToDays(days: seq<string>, n: nat, ch: map<string, DayChanges>, s0: int, includeProjections: bool)
    requires n <= |days|
    ensures SeriesUpTo(days, n, ch, s0, includeProjections).days == days[..n]
    decreases n
  {
    if n > 0 {
      SeriesUpToDays(days, n - 1, ch, s0, includeProjections);
      assert days[..n - 1] + [days[n - 1]] == days[..n];
    }
  }

  lemma {:induction false} RealizadoFollows(days: seq<string>, n: nat, ch: map<string, DayChanges>, s0: int, includeProjections: bool)
    requires n <= |days| && forall i :: 0 <= i < |days| ==> days[i] in ch
    ensures SeriesUpTo(days, n, ch, s0, includeProjections).realizado == RealizadoSeries(days[..n], ch, s0)
    decreases n
  {
    if n > 0 {
      RealizadoFollows(days, n - 1, ch, s0, includeProjections);
      RealizadoSeriesStep(days, n - 1, ch, s0);
    }
  }

  lemma {:induction false} ProjetadoFollows(days: seq<string>, n: nat, ch: map<string, DayChanges>, s0: int, includeProjections: bool)
    requires n <= |days| && forall i :: 0 <= i < |days| ==> days[i] in ch
    ensures SeriesUpTo(days, n, ch, s0, includeProjections).projetado == ProjetadoSeries(days[..n], ch, s0)
    decreases n
  {
    if n > 0 {
      ProjetadoFollows(days, n - 1, ch, s0, includeProjections);
      ProjetadoSeriesStep(days, n - 1, ch, s0);
    }
  }

  /** The base balance of day `j`, from the chart built over the earlier days. */
  lemma BaseSeriesNext(days: seq<string>, j: nat, ch: map<string, DayChanges>, s0: int, includeProjections: bool, w0: WhatIfSeries)
    requires j < |days| && days[j] in ch
    requires LastOr(w0.realizado, s0) == LastOr(RealizadoSeries(days[..j], ch, s0), s0)
    requires LastOr(w0.projetado, s0) == LastOr(ProjetadoSeries(days[..j], ch, s0), s0)
    ensures var c := ch[days[j]];
      LastOr(BaseSeries(days[..j + 1], ch, s0, includeProjections), s0)
      == if includeProjections then LastOr(w0.projetado, s0) + c.realizado + c.projetado
         else LastOr(w0.realizado, s0) + c.realizado
  {
    RealizadoSeriesStep(days, j, ch, s0);
    ProjetadoSeriesStep(days, j, ch, s0);
  }

  lemma {:induction false} SimuladoFollows(days: seq<string>, n: nat, ch: map<string, DayChanges>, s0: int, includeProjections: bool)
    requires n <= |days| && forall i :: 0 <= i < |days| ==> days[i] in ch
    ensures SeriesUpTo(days, n, ch, s0, includeProjections).simulado == SimuladoSeries(days[..n], ch, s0, includeProjections)
    decreases n
  {
    if n > 0 {
      SimuladoFollows(days, n - 1, ch, s0, includeProjections);
      RealizadoFollows(days, n - 1, ch, s0, includeProjections);
      ProjetadoFollows(days, n - 1, ch, s0, includeProjections);
      SimuladoFollowsStep(days, n - 1, ch, s0, includeProjections);
    }
  }

  lemma SimuladoFollowsStep(days: seq<string>, j: nat, ch: map<string, DayChanges>, s0: int, includeProjections: bool)
    requires j < |days| && days[j] in ch
    requires var w0 := SeriesUpTo(days, j, ch, s0, includeProjections);
      && LastOr(w0.realizado, s0) == LastOr(RealizadoSeries(days[..j], ch, s0), s0)
      && LastOr(w0.projetado, s0) == LastOr(ProjetadoSeries(days[..j], ch, s0), s0)
      && w0.simulado == SimuladoSeries(days[..j], ch, s0, includeProjections)
    ensures SeriesUpTo(days, j + 1, ch, s0, includeProjections).simulado == SimuladoSeries(days[..j + 1], ch, s0, includeProjections)
  {
    var w0 := SeriesUpTo(days, j, ch, s0, includeProjections);
    assert SeriesUpTo(days, j + 1, ch, s0, includeProjections) == Advance(w0, days[j], ch[days[j]], s0, includeProjections);
    BaseSeriesNext(days, j, ch, s0, includeProjections, w0);
    SimuladoSeriesStep(days, j, ch, s0, includeProjections);
  }

  lemma {:induction false} ComparadoFollows(days: seq<string>, n: nat, ch: map<string, DayChanges>, s0: int, includeProjections: bool)
    requires n <= |days| && forall i :: 0 <= i < |days| ==> days[i] in ch
    ensures SeriesUpTo(days, n, ch, s0, includeProjections).comparado == ComparadoSeries(days[..n], ch, s0, includeProjections)
    decreases n
  {
    if n > 0 {
      ComparadoFollows(days, n - 1, ch, s0, includeProjections);
      RealizadoFollows(days, n - 1, ch, s0, includeProjections);
      ProjetadoFollows(days, n - 1, ch, s0, includeProjections);
      ComparadoFollowsStep(days, n - 1, ch, s0, includeProjections);
    }
  }

  lemma ComparadoFollowsStep(days: seq<string>, j: nat, ch: map<string, DayChanges>, s0: int, includeProjections: bool)
    requires j < |days| && days[j] in ch
    requires var w0 := SeriesUpTo(days, j, ch, s0, includeProjections);
      && LastOr(w0.realizado, s0) == LastOr(RealizadoSeries(days[..j], ch, s0), s0)
      && LastOr(w0.projetado, s0) == LastOr(ProjetadoSeries(days[..j], ch, s0), s0)
      && w0.comparado == ComparadoSeries(days[..j], ch, s0, includeProjections)
    ensures SeriesUpTo(days, j + 1, ch, s0, includeProjections).comparado == ComparadoSeries(days[..j + 1], ch, s0, includeProjections)
  {
    var w0 := SeriesUpTo(days, j, ch, s0, includeProjections);
    assert SeriesUpTo(days, j + 1, ch, s0, includeProjections) == Advance(w0, days[j], ch[days[j]], s0, includeProjections);
    BaseSeriesNext(days, j, ch, s0, includeProjections, w0);
    ComparadoSeriesStep(days, j, ch, s0, includeProjections);
  }

  /** The second forEach: the four running balances over the sorted days. */
  method RunningSeries(days: seq<string>, changes: map<string, DayChanges>, saldoAnterior: int, includeProjections: bool)
    returns (w: WhatIfSeries)
    requires forall i :: 0 <= i < |days| ==> days[i] in changes
    ensures w == SeriesUpTo(days, |days|, changes, saldoAnterior, includeProjections)
  {
    var realizado, projetado, simulado, comparado: seq<int> := [], [], [], [];
    var runR, runP := saldoAnterior, saldoAnterior;
    ghost var chart := WhatIfSeries([], [], [], [], []);
    var j := 0;
    while j < |days|
      invariant 0 <= j <= |days|
      invariant chart == SeriesUpTo(days, j, changes, saldoAnterior, includeProjections)
      invariant chart.realizado == realizado && chart.projetado == projetado
      invariant chart.simulado == simulado && chart.comparado == comparado
      invariant runR == LastOr(realizado, saldoAnterior)
      invariant runP == LastOr(projetado, saldoAnterior)
    {
      var c := changes[days[j]];
      chart := Advance(chart, days[j], c, saldoAnterior, includeProjections);
      runR := runR + c.realizado;
      runP := runP + c.realizado + c.projetado;
      var runB := if includeProjections then runP else runR;
      realizado, projetado := realizado + [runR], projetado + [runP];
      simulado, comparado := simulado + [runB + c.simulado], comparado + [runB + c.comparado];
      j := j + 1;
    }
    SeriesUpToDays(days, |days|, changes, saldoAnterior, includeProjections);
    assert days[..|days|] == days;
    w := WhatIfSeries(days, realizado, projetado, simulado, comparado);
  }

  /**
   * processWhatIfEvolucaoSaldoData: one entry per dated day, days in increasing
   * order; realizado accumulates the realized changes, projetado the realized
   * and projected ones, and simulado/comparado are that day's base balance
   * plus only that day's simulated/compared change.
   */
  method ProcessWhatIfSeries(txs: seq<Tx>, saldoAnterior: int, includeProjections: bool)
    returns (w: WhatIfSeries, dailyChanges: map<string, DayChanges>)
    ensures IsDailyChanges(dailyChanges, txs)
    ensures forall d :: d in w.days <==> d in DaysOf(txs)
    ensures forall i, j :: 0 <= i < j < |w.days| ==> Less(w.days[i], w.days[j])
    ensures SeriesFollow(w, dailyChanges, saldoAnterior, includeProjections)
  {
    var keys;
    dailyChanges, keys := AggregateByDay(txs);
    StringOrderIsTotalPreorder();
    var days := Sort(keys, StringLe());
    NoDuplicatesPermutation(keys, days);
    SortedDistinctIsIncreasing(days);
    forall d ensures d in days <==> d in keys {
      assert d in days <==> d in multiset(days);
      assert d in keys <==> d in multiset(keys);
    }
    w := RunningSeries(days, dailyChanges, saldoAnterior, includeProjections);
    SeriesUpToFollows(days, dailyChanges, saldoAnterior, includeProjections);
  }

  /** With no what-if lines, the simulated and compared series coincide with their base series. */
  lemma {:induction false} NoScenarioNoSimulatedChange(txs: seq<Tx>, day: string)
    requires forall t :: t in txs ==> !t.isSimulated && !t.isComparison
    ensures ChangesOn(txs, day).simulado == 0 && ChangesOn(txs, day).comparado == 0
    decreases |txs|
  {
    if txs != [] {
      assert txs[|txs| - 1] in txs;
      assert forall t :: t in txs[..|txs| - 1] ==> t in txs;
      NoScenarioNoSimulatedChange(txs[..|txs| - 1], day);
    }
  }

  // ---------------------------------------------------------------------------
  // handleWhatIfFormSubmit and getRecurrenceMultiplier
  // ---------------------------------------------------------------------------

  /** A simulated receipt or expense of the what-if scenario. */
  datatype WhatIfItem = WhatIfItem(id: string, dir: Direction, descricao: string, data: string, valor: int, groupId: string)

  /** The fields of a what-if form. A count that does not parse as an integer is `None`. */
  datatype WhatIfForm = WhatIfForm(
    dir: Direction,
    descricao: string,
    valorTotal: int,
    dataInicio: string,
    formaPagamento: string,
    parcelas: Option<int>,
    recorrencias: Option<int>,
    frequencia: string)

  datatype WhatIfError = MissingFields | InvalidInstallments | InvalidRecurrences

  /** The months between two occurrences of a recurring item. */
  function RecurrenceMultiplier(freq: string): (m: nat)
    ensures m == 2 <==> freq == "bimestral"
    ensures m == 3 <==> freq == "trimestral"
    ensures m == 6 <==> freq == "semestral"
    ensures m == 12 <==> freq == "anual"
    ensures m == 1 <==> freq !in {"bimestral", "trimestral", "semestral", "anual"}
  {
    match freq
    case "bimestral" => 2
    case "trimestral" => 3
    case "semestral" => 6
    case "anual" => 12
    case _ => 1
  }

  /** `Math.round(a / n)` for a positive divisor: the nearest integer, a half rounded up. */
  function RoundDiv(a: int, n: int): (q: int)
    requires n > 0
    ensures 2 * n * q - n <= 2 * a < 2 * n * q + n
  {
    var q := (2 * a + n) / (2 * n);
    assert 2 * a + n == 2 * n * q + (2 * a + n) % (2 * n);
    q
  }

  function Identity(): int -> int
  {
    (x: int) => x
  }

  /** The sum of a list of amounts. */
  function Total(s: seq<int>): int
  {
    Sum(s, Identity())
  }

  lemma {:induction false} TotalOfConstant(k: nat, v: int)
    ensures Total(seq(k, _ => v)) == k * v
    decreases k
  {
    if k > 0 {
      assert seq(k, _ => v)[..k - 1] == seq(k - 1, _ => v);
      TotalOfConstant(k - 1, v);
    }
  }

  /** The installment amounts as the form writes them: `Math.round(total / n)` each. */
  function InstallmentValuesAsWritten(total: int, n: nat): (r: seq<int>)
    requires n > 0
    ensures |r| == n
    ensures forall i :: 0 <= i < n ==> r[i] == RoundDiv(total, n)
  {
    seq(n, _ => RoundDiv(total, n))
  }

  /** Splitting 100 cents in 3 installments writes 33 + 33 + 33: one cent is lost. */
  lemma InstallmentsAsWrittenLoseCents()
    ensures Total(InstallmentValuesAsWritten(100, 3)) == 99
  {
    assert RoundDiv(100, 3) == 33;
    assert InstallmentValuesAsWritten(100, 3) == seq(3, _ => 33);
    TotalOfConstant(3, 33);
  }

  /**
   * The installment amounts with the rounding remainder carried by the last
   * installment: every other installment is `Math.round(total / n)`, and the
   * installments add up to the total.
   */
  function InstallmentValues(total: int, n: nat): (r: seq<int>)
    requires n > 0
    ensures |r| == n
    ensures forall i :: 0 <= i < n - 1 ==> r[i] == RoundDiv(total, n)
    ensures Total(r) == total
  {
    var q := RoundDiv(total, n);
    var r := seq(n - 1, _ => q) + [total - (n - 1) * q];
    assert r[..n - 1] == seq(n - 1, _ => q);
    TotalOfConstant(n - 1, q);
    r
  }

  /** When the total divides evenly, the two definitions agree. */
  lemma InstallmentsAgreeOnExactDivision(total: int, n: nat)
    requires n > 0 && total % n == 0
    ensures InstallmentValues(total, n) == InstallmentValuesAsWritten(total, n)
  {
    var q := total / n;
    assert total == n * q;
    RoundOfMultiple(n, q);
    assert total - (n - 1) * q == q;
  }

  lemma RoundOfMultiple(n: int, q: int)
    requires n > 0
    ensures RoundDiv(n * q, n) == q
  {
    var r := RoundDiv(n * q, n);
    assert 2 * n * r - n <= 2 * (n * q) < 2 * n * r + n;
    assert n * (2 * (r - q) - 1) <= 0 && n * (2 * (r - q) + 1) > 0;
    PositiveFactor(n, 2 * (r - q) - 1);
    PositiveFactor(n, -(2 * (r - q) + 1));
  }

  lemma PositiveFactor(n: int, x: int)
    requires n > 0 && n * x <= 0
    ensures x <= 0
  {
  }

  function InstallmentItem(f: WhatIfForm, baseId: string, addMonths: (string, int) -> string, n: nat, i: nat): WhatIfItem
    requires 0 <= i < n
  {
    WhatIfItem(baseId + "-" + NatToString(i), f.dir,
               f.descricao + " (Parcela " + NatToString(i + 1) + "/" + NatToString(n) + ")",
               addMonths(f.dataInicio, i), InstallmentValues(f.valorTotal, n)[i], baseId)
  }

  function RecurrenceItem(f: WhatIfForm, baseId: string, addMonths: (string, int) -> string, n: nat, i: nat): WhatIfItem
  {
    WhatIfItem(baseId + "-" + NatToString(i), f.dir,
               f.descricao + " (Recorrência " + NatToString(i + 1) + "/" + NatToString(n) + ")",
               addMonths(f.dataInicio, i * RecurrenceMultiplier(f.frequencia)), f.valorTotal, baseId)
  }

  function Valores(): WhatIfItem -> int
  {
    (item: WhatIfItem) => item.valor
  }

  predicate ValidCount(c: Option<int>)
  {
    c.Some? && c.value > 0
  }

  /** The installment loop: n items a month apart whose values add up to the total. */
  method Installments(f: WhatIfForm, baseId: string, addMonths: (string, int) -> string, n: nat)
    returns (items: seq<WhatIfItem>)
    requires n > 0
    ensures |items| == n
    ensures forall i :: 0 <= i < n ==> items[i] == InstallmentItem(f, baseId, addMonths, n, i)
    ensures Sum(items, Valores()) == f.valorTotal
  {
    var values := InstallmentValues(f.valorTotal, n);
    items := [];
    var i := 0;
    while i < n
      invariant 0 <= i <= n
      invariant |items| == i
      invariant forall k :: 0 <= k < i ==> items[k] == InstallmentItem(f, baseId, addMonths, n, k)
      invariant Sum(items, Valores()) == Total(values[..i])
    {
      assert values[..i + 1][..i] == values[..i];
      items := items + [InstallmentItem(f, baseId, addMonths, n, i)];
      assert items[..i] == items[..|items| - 1];
      i := i + 1;
    }
    assert values[..n] == values;
  }

  /** The recurrence loop: n items with the full value, a cadence apart. */
  method Recurrences(f: WhatIfForm, baseId: string, addMonths: (string, int) -> string, n: nat)
    returns (items: seq<WhatIfItem>)
    ensures |items| == n
    ensures forall i :: 0 <= i < n ==> items[i] == RecurrenceItem(f, baseId, addMonths, n, i)
  {
    items := [];
    var i := 0;
    while i < n
      invariant 0 <= i <= n
      invariant |items| == i
      invariant forall k :: 0 <= k < i ==> items[k] == RecurrenceItem(f, baseId, addMonths, n, k)
    {
      items := items + [RecurrenceItem(f, baseId, addMonths, n, i)];
      i := i + 1;
    }
  }

  /**
   * The items of one what-if form: one item for a single entry, one per
   * installment (dated a month apart) or one per occurrence (dated a cadence
   * apart); a form without description, value or start date, or with a count
   * that is not a positive integer, is rejected.
   */
  method ExpandWhatIf(f: WhatIfForm, baseId: string, addMonths: (string, int) -> string)
    returns (r: Result<seq<WhatIfItem>, WhatIfError>)
    ensures r == Err(MissingFields) <==> !Present(f.descricao) || f.valorTotal == 0 || !Present(f.dataInicio)
    ensures r == Err(InvalidInstallments) <==>
      Present(f.descricao) && f.valorTotal != 0 && Present(f.dataInicio) &&
      f.formaPagamento == "installment" && !ValidCount(f.parcelas)
    ensures r == Err(InvalidRecurrences) <==>
      Present(f.descricao) && f.valorTotal != 0 && Present(f.dataInicio) &&
      f.formaPagamento == "recurring" && !ValidCount(f.recorrencias)
    ensures r.Ok? && f.formaPagamento == "single" ==>
      r.value == [WhatIfItem(baseId, f.dir, f.descricao, f.dataInicio, f.valorTotal, baseId)]
    ensures r.Ok? && f.formaPagamento == "installment" ==>
      && |r.value| == f.parcelas.value
      && (forall i :: 0 <= i < |r.value| ==> r.value[i] == InstallmentItem(f, baseId, addMonths, |r.value|, i))
      && Sum(r.value, Valores()) == f.valorTotal
    ensures r.Ok? && f.formaPagamento == "recurring" ==>
      && |r.value| == f.recorrencias.value
      && (forall i :: 0 <= i < |r.value| ==> r.value[i] == RecurrenceItem(f, baseId, addMonths, |r.value|, i))
    ensures r.Ok? && f.formaPagamento !in {"single", "installment", "recurring"} ==> r.value == []
  {
    if !Present(f.descricao) || f.valorTotal == 0 || !Present(f.dataInicio) {
      return Err(MissingFields);
    }
    var items: seq<WhatIfItem> := [];
    if f.formaPagamento == "single" {
      items := [WhatIfItem(baseId, f.dir, f.descricao, f.dataInicio, f.valorTotal, baseId)];
    } else if f.formaPagamento == "installment" {
      if f.parcelas.None? || f.parcelas.value <= 0 {
        return Err(InvalidInstallments);
      }
      items := Installments(f, baseId, addMonths, f.parcelas.value);
    } else if f.formaPagamento == "recurring" {
      if f.recorrencias.None? || f.recorrencias.value <= 0 {
        return Err(InvalidRecurrences);
      }
      items := Recurrences(f, baseId, addMonths, f.recorrencias.value);
    }
    r := Ok(items);
  }

  // ---------------------------------------------------------------------------
  // The transfer form
  // ---------------------------------------------------------------------------

  datatype TransferError = SameAccount | MissingTransferFields | SaveFailed

  /**
   * The transfer a submitted form saves: the two accounts must differ, every
   * field must be filled, and both accounts must exist (their names are copied
   * into the document; an unknown account makes the save fail).
   */
  function SubmitTransfer(newId: string, origem: string, destino: string, valor: int, data: string, obs: string,
                          contas: seq<BankAccount>): (r: Result<Transfer, TransferError>)
    ensures r == Err(SameAccount) <==> origem == destino
    ensures r == Err(MissingTransferFields) <==>
      origem != destino && (valor == 0 || !Present(data) || !Present(origem) || !Present(destino))
    ensures r == Err(SaveFailed) <==>
      origem != destino && valor != 0 && Present(data) && Present(origem) && Present(destino) &&
      (FindAccount(contas, origem).None? || FindAccount(contas, destino).None?)
    ensures r.Ok? ==>
      && r.value.contaOrigemId == Some(origem) && r.value.contaDestinoId == Some(destino)
      && r.value.contaOrigemId != r.value.contaDestinoId
      && r.value.valor == valor && r.value.dataTransacao == data && !r.value.conciliado
      && r.value.contaOrigemNome == FindAccount(contas, origem).value.nome
      && r.value.contaDestinoNome == FindAccount(contas, destino).value.nome
  {
    if origem == destino then Err(SameAccount)
    else if valor == 0 || !Present(data) || !Present(origem) || !Present(destino) then Err(MissingTransferFields)
    else
      var from, to := FindAccount(contas, origem), FindAccount(contas, destino);
      if from.None? || to.None? then Err(SaveFailed)
      else Ok(Transfer(newId, data, valor, Some(origem), from.value.nome, Some(destino), to.value.nome, false, obs))
  }

  /** A transfer saved through the form is never a transfer from an account to itself. */
  lemma SubmittedTransferNotSelf(newId: string, origem: string, destino: string, valor: int, data: string, obs: string,
                                 contas: seq<BankAccount>, conta: AccountFilter)
    requires SubmitTransfer(newId, origem, destino, valor, data, obs, contas).Ok?
    ensures NoSelfTransfer([TransferLine(SubmitTransfer(newId, origem, destino, valor, data, obs, contas).value)], conta)
  {
  }

  // ---------------------------------------------------------------------------
  // The what-if scenario and the saved scenarios
  // ---------------------------------------------------------------------------

  datatype SavedScenario = SavedScenario(id: string, name: string, transactions: seq<WhatIfItem>)

  /** `savedScenarios.find(s => s.id === id)`. */
  function FindScenario(saved: seq<SavedScenario>, id: string): (r: Option<SavedScenario>)
    ensures r.None? <==> forall s :: s in saved ==> s.id != id
    ensures r.Some? ==> r.value.id == id
    ensures r.Some? ==> exists k :: 0 <= k < |saved| && saved[k] == r.value && (forall j :: 0 <= j < k ==> saved[j].id != id)
    decreases |saved|
  {
    if saved == [] then None
    else if saved[0].id == id then Some(saved[0])
    else
      var r := FindScenario(saved[1..], id);
      assert forall k :: 1 <= k < |saved| ==> saved[k] == saved[1..][k - 1];
      assert saved == [saved[0]] + saved[1..];
      r
  }

  function ItemIdIsNot(id: string): WhatIfItem -> bool
  {
    (item: WhatIfItem) => item.id != id
  }

  function ScenarioIdIsNot(id: string): SavedScenario -> bool
  {
    (s: SavedScenario) => s.id != id
  }

  /** The page's what-if state: the current scenario, the saved ones, and the one compared. */
  class WhatIfSession {
    var scenario: seq<WhatIfItem>
    var saved: seq<SavedScenario>
    var comparison: Option<seq<WhatIfItem>>

    constructor ()
      ensures scenario == [] && saved == [] && comparison == None
    {
      scenario := [];
      saved := [];
      comparison := None;
    }

    /**
     * handleWhatIfFormSubmit: the form's items, as `ExpandWhatIf` builds them (with the
     * corrected installments of finding 1), are appended to the scenario.
     */
    method Submit(f: WhatIfForm, baseId: string, addMonths: (string, int) -> string)
      returns (r: Result<seq<WhatIfItem>, WhatIfError>)
      modifies this
      ensures r.Ok? ==> scenario == old(scenario) + r.value
      ensures r.Err? ==> scenario == old(scenario)
      ensures r == Err(MissingFields) <==> !Present(f.descricao) || f.valorTotal == 0 || !Present(f.dataInicio)
      ensures r == Err(InvalidInstallments) <==>
        Present(f.descricao) && f.valorTotal != 0 && Present(f.dataInicio) &&
        f.formaPagamento == "installment" && !ValidCount(f.parcelas)
      ensures r == Err(InvalidRecurrences) <==>
        Present(f.descricao) && f.valorTotal != 0 && Present(f.dataInicio) &&
        f.formaPagamento == "recurring" && !ValidCount(f.recorrencias)
      ensures r.Ok? && f.formaPagamento == "single" ==>
        r.value == [WhatIfItem(baseId, f.dir, f.descricao, f.dataInicio, f.valorTotal, baseId)]
      ensures r.Ok? && f.formaPagamento == "installment" ==>
        && |r.value| == f.parcelas.value
        && (forall i :: 0 <= i < |r.value| ==> r.value[i] == InstallmentItem(f, baseId, addMonths, |r.value|, i))
        && Sum(r.value, Valores()) == f.valorTotal
      ensures r.Ok? && f.formaPagamento == "recurring" ==>
        && |r.value| == f.recorrencias.value
        && (forall i :: 0 <= i < |r.value| ==> r.value[i] == RecurrenceItem(f, baseId, addMonths, |r.value|, i))
      ensures r.Ok? && f.formaPagamento !in {"single", "installment", "recurring"} ==> r.value == []
      ensures saved == old(saved) && comparison == old(comparison)
    {
      r := ExpandWhatIf(f, baseId, addMonths);
      if r.Ok? {
        scenario := scenario + r.value;
      }
    }

    /** Removing one item keeps every other item, in order. */
    method RemoveItem(id: string)
      modifies this
      ensures scenario == Filter(old(scenario), ItemIdIsNot(id))
      ensures forall x :: x in scenario <==> x in old(scenario) && x.id != id
      ensures saved == old(saved) && comparison == old(comparison)
    {
      scenario := Filter(scenario, ItemIdIsNot(id));
    }

    method ClearScenario()
      modifies this
      ensures scenario == [] && saved == old(saved) && comparison == old(comparison)
    {
      scenario := [];
    }

    /** A named, non-empty scenario is saved as a copy. */
    method Save(name: string, savedId: string)
      modifies this
      ensures Present(name) && |old(scenario)| > 0 ==> saved == old(saved) + [SavedScenario(savedId, name, old(scenario))]
      ensures !(Present(name) && |old(scenario)| > 0) ==> saved == old(saved)
      ensures scenario == old(scenario) && comparison == old(comparison)
    {
      if Present(name) && |scenario| > 0 {
        saved := saved + [SavedScenario(savedId, name, scenario)];
      }
    }

    /** Loading replaces the scenario with the first saved one with the id, if any. */
    method Load(id: string)
      modifies this
      ensures FindScenario(old(saved), id).Some? ==> scenario == FindScenario(old(saved), id).value.transactions
      ensures FindScenario(old(saved), id).None? ==> scenario == old(scenario)
      ensures saved == old(saved) && comparison == old(comparison)
    {
      var found := FindScenario(saved, id);
      if found.Some? {
        scenario := found.value.transactions;
      }
    }

    method DeleteSaved(id: string)
      modifies this
      ensures saved == Filter(old(saved), ScenarioIdIsNot(id))
      ensures scenario == old(scenario) && comparison == old(comparison)
    {
      saved := Filter(saved, ScenarioIdIsNot(id));
    }

    /** Ticking a saved scenario's box compares against it; unticking compares against nothing. */
    method SetComparison(id: string, checked: bool)
      modifies this
      ensures checked && FindScenario(old(saved), id).Some? ==> comparison == Some(FindScenario(old(saved), id).value.transactions)
      ensures !checked || FindScenario(old(saved), id).None? ==> comparison == None
      ensures scenario == old(scenario) && saved == old(saved)
    {
      var found := FindScenario(saved, id);
      if checked && found.Some? {
        comparison := Some(found.value.transactions);
      } else {
        comparison := None;
      }
    }
  }
}
