/**
 * The bank-reconciliation screen (movimentacoesBancarias): the opening balance
 * before the period, the period's statement sorted by date with its KPIs and
 * running balance, the enablement of the three action buttons, the bulk
 * reconciliation toggle, and the reversal ("estorno") transaction that deletes a
 * movement and reopens the payable or receivable it settled.
 */
module BankMovements {
  import opened Common
  import opened Records

  /** A bank movement document. An absent `origemTipo` is `None`: reading it throws. */
  datatype Movement = Movement(
    id: string,
    contaBancariaId: string,
    dataTransacao: string,
    valor: int,
    descricao: string,
    estornado: bool,
    conciliado: bool,
    createdAt: Option<int>,       // milliseconds of the server timestamp
    origemParentId: string,       // the title whose payment or receipt produced the movement
    origemId: string,             // that payment or receipt in the title's history
    origemTipo: Option<string>,   // "PAGAMENTO_DESPESA", "RECEBIMENTO_RECEITA", ...
    dataConciliacao: Option<string>,
    usuarioConciliacao: Option<string>)

  /** `createdAt?.toMillis() || 0`. */
  function TimeOf(m: Movement): int
  {
    if m.createdAt.Some? then m.createdAt.value else 0
  }

  /** What a movement adds to a balance: nothing once it has been reversed. */
  function Contribution(): Movement -> int
  {
    (m: Movement) => if m.estornado then 0 else m.valor
  }

  // ---------------------------------------------------------------------------
  // processAndRender: opening balance, period list, KPIs
  // ---------------------------------------------------------------------------

  /** Dated before a set start of the period. */
  predicate BeforePeriod(m: Movement, de: string)
  {
    Present(de) && Less(m.dataTransacao, de)
  }

  /** Dated after a set end of the period. */
  predicate AfterPeriod(m: Movement, ate: string)
  {
    Present(ate) && Less(ate, m.dataTransacao)
  }

  function BeforeP(de: string): Movement -> bool
  {
    (m: Movement) => BeforePeriod(m, de)
  }

  function InPeriodP(de: string, ate: string): Movement -> bool
  {
    (m: Movement) => !BeforePeriod(m, de) && !AfterPeriod(m, ate)
  }

  function NotAfterP(ate: string): Movement -> bool
  {
    (m: Movement) => !AfterPeriod(m, ate)
  }

  function ContributionBefore(de: string): Movement -> int
  {
    (m: Movement) => if BeforePeriod(m, de) then Contribution()(m) else 0
  }

  /** The account's `saldoInicial`, or 0 when the account document does not exist. */
  function SaldoInicialOf(accounts: map<string, BankAccount>, contaId: string): int
  {
    if contaId in accounts then accounts[contaId].saldoInicial else 0
  }

  /** The fold of "Saldo Anterior": every non-reversed movement dated before the period. */
  method SaldoAnterior(saldoInicial: int, docs: seq<Movement>, de: string) returns (saldo: int)
    ensures saldo == saldoInicial + Sum(Keep(docs, BeforeP(de)), Contribution())
    ensures !Present(de) ==> saldo == saldoInicial
  {
    saldo := saldoInicial;
    for i := 0 to |docs|
      invariant saldo == saldoInicial + Sum(docs[..i], ContributionBefore(de))
    {
      SumStep(docs, i, ContributionBefore(de));
      var mov := docs[i];
      assert Contribution()(mov) == if mov.estornado then 0 else mov.valor;
      assert ContributionBefore(de)(mov) == if BeforePeriod(mov, de) && !mov.estornado then mov.valor else 0;
      if Present(de) && Less(mov.dataTransacao, de) {
        if !mov.estornado {
          saldo := saldo + mov.valor;
        }
      }
    }
    assert docs[..|docs|] == docs;
    SumGuarded(docs, BeforeP(de), Contribution(), ContributionBefore(de));
    if !Present(de) {
      KeepNone(docs, BeforeP(de));
    }
  }

  /** The statement order: by date, then by creation time. */
  function MovLe(): (Movement, Movement) -> bool
  {
    (a: Movement, b: Movement) =>
      Less(a.dataTransacao, b.dataTransacao) || (a.dataTransacao == b.dataTransacao && TimeOf(a) <= TimeOf(b))
  }

  lemma MovLeIsTotalPreorder()
    ensures TotalPreorder(MovLe())
  {
    forall a: Movement, b: Movement ensures MovLe()(a, b) || MovLe()(b, a) {
      LessTotal(a.dataTransacao, b.dataTransacao);
    }
    forall a: Movement, b: Movement, c: Movement | MovLe()(a, b) && MovLe()(b, c) ensures MovLe()(a, c) {
      if Less(a.dataTransacao, b.dataTransacao) && Less(b.dataTransacao, c.dataTransacao) {
        LessTransitive(a.dataTransacao, b.dataTransacao, c.dataTransacao);
      }
    }
  }

  /** The movements of the period, sorted (a stable sort, as the engine's). */
  function Periodo(docs: seq<Movement>, de: string, ate: string): seq<Movement>
  {
    MovLeIsTotalPreorder();
    Sort(Keep(docs, InPeriodP(de, ate)), MovLe())
  }

  /** The period list holds exactly the movements inside the bounds, in date and then creation order. */
  lemma PeriodoMeaning(docs: seq<Movement>, de: string, ate: string)
    ensures var r := Periodo(docs, de, ate);
      && multiset(r) == multiset(Keep(docs, InPeriodP(de, ate)))
      && (forall m :: m in r <==> m in docs && !BeforePeriod(m, de) && !AfterPeriod(m, ate))
      && (forall i, j :: 0 <= i < j < |r| ==> AtMost(r[i].dataTransacao, r[j].dataTransacao))
      && (forall i, j :: 0 <= i < j < |r| && r[i].dataTransacao == r[j].dataTransacao ==> TimeOf(r[i]) <= TimeOf(r[j]))
  {
    var r := Periodo(docs, de, ate);
    MovLeIsTotalPreorder();
    KeepMember(docs, InPeriodP(de, ate));
    forall m ensures m in r <==> m in Keep(docs, InPeriodP(de, ate)) {
      assert m in r <==> m in multiset(r);
    }
    forall i, j | 0 <= i < j < |r| ensures AtMost(r[i].dataTransacao, r[j].dataTransacao) {
      assert MovLe()(r[i], r[j]);
      LessAsymmetric(r[i].dataTransacao, r[j].dataTransacao);
      LessIrreflexive(r[i].dataTransacao);
    }
    forall i, j | 0 <= i < j < |r| && r[i].dataTransacao == r[j].dataTransacao ensures TimeOf(r[i]) <= TimeOf(r[j]) {
      assert MovLe()(r[i], r[j]);
      LessIrreflexive(r[i].dataTransacao);
    }
  }

  function EntradaOf(): Movement -> int
  {
    (m: Movement) => if !m.estornado && m.valor > 0 then m.valor else 0
  }

  function SaidaOf(): Movement -> int
  {
    (m: Movement) => if !m.estornado && m.valor <= 0 then m.valor else 0
  }

  function PendenteOf(): Movement -> int
  {
    (m: Movement) => if !m.estornado && !m.conciliado then m.valor else 0
  }

  function Unreconciled(): Movement -> bool
  {
    (m: Movement) => !m.conciliado
  }

  /** The KPI loop over the period list. */
  method PeriodKpis(periodo: seq<Movement>) returns (totalEntradas: int, totalSaidas: int, saldoAConciliar: int)
    ensures totalEntradas == Sum(periodo, EntradaOf())
    ensures totalSaidas == Sum(periodo, SaidaOf())
    ensures saldoAConciliar == Sum(periodo, PendenteOf())
  {
    totalEntradas, totalSaidas, saldoAConciliar := 0, 0, 0;
    for i := 0 to |periodo|
      invariant totalEntradas == Sum(periodo[..i], EntradaOf())
      invariant totalSaidas == Sum(periodo[..i], SaidaOf())
      invariant saldoAConciliar == Sum(periodo[..i], PendenteOf())
    {
      SumStep(periodo, i, EntradaOf());
      SumStep(periodo, i, SaidaOf());
      SumStep(periodo, i, PendenteOf());
      var mov := periodo[i];
      if !mov.estornado {
        var valor := mov.valor;
        if valor > 0 {
          totalEntradas := totalEntradas + valor;
        } else {
          totalSaidas := totalSaidas + valor;
        }
        if !mov.conciliado {
          saldoAConciliar := saldoAConciliar + valor;
        }
      }
    }
    assert periodo[..|periodo|] == periodo;
  }

  /**
   * The KPIs skip reversed movements: inflows are not negative, outflows not
   * positive, together they are the period's net movement, and the amount to
   * reconcile is the net of the unreconciled movements.
   */
  lemma KpisMeaning(periodo: seq<Movement>)
    ensures Sum(periodo, EntradaOf()) >= 0
    ensures Sum(periodo, SaidaOf()) <= 0
    ensures Sum(periodo, EntradaOf()) + Sum(periodo, SaidaOf()) == Sum(periodo, Contribution())
    ensures Sum(periodo, PendenteOf()) == Sum(Keep(periodo, Unreconciled()), Contribution())
  {
    SumNonNegative(periodo, EntradaOf());
    SumNonPositive(periodo, SaidaOf());
    SumAdd(periodo, EntradaOf(), SaidaOf(), Contribution());
    SumGuarded(periodo, Unreconciled(), Contribution(), PendenteOf());
  }

  /** A statement row: the inflow and outflow columns are blank for a reversed movement. */
  datatype Row = Row(id: string, entrada: Option<int>, saida: Option<int>, saldo: int, selectable: bool, conciliado: bool)

  function RowOf(m: Movement, saldo: int): Row
  {
    Row(m.id,
        if m.valor > 0 && !m.estornado then Some(m.valor) else None,
        if m.valor < 0 && !m.estornado then Some(-m.valor) else None,
        saldo, !m.estornado, m.conciliado)
  }

  /** The balance after the first `k + 1` movements of the list. */
  function Balance(ms: seq<Movement>, saldoInicial: int, k: nat): int
    requires k < |ms|
  {
    saldoInicial + Sum(ms[..k + 1], Contribution())
  }

  /** `renderMovimentacoes`: the running balance, one row per movement. */
  method RenderMovimentacoes(ms: seq<Movement>, saldoInicial: int) returns (rows: seq<Row>)
    ensures |rows| == |ms|
    ensures forall k :: 0 <= k < |ms| ==> rows[k] == RowOf(ms[k], Balance(ms, saldoInicial, k))
  {
    rows := [];
    var saldoCorrente := saldoInicial;
    for i := 0 to |ms|
      invariant |rows| == i
      invariant saldoCorrente == saldoInicial + Sum(ms[..i], Contribution())
      invariant forall k :: 0 <= k < i ==> rows[k] == RowOf(ms[k], Balance(ms, saldoInicial, k))
    {
      SumStep(ms, i, Contribution());
      var mov := ms[i];
      assert Contribution()(mov) == if mov.estornado then 0 else mov.valor;
      if !mov.estornado {
        saldoCorrente := saldoCorrente + mov.valor;
      }
      rows := rows + [RowOf(mov, saldoCorrente)];
    }
  }

  /**
   * Each balance is the previous one plus the movement's value, or the same
   * when the movement is reversed; the last is the opening balance plus the list's net movement.
   */
  lemma BalanceMeaning(ms: seq<Movement>, saldoInicial: int)
    ensures ms != [] ==> Balance(ms, saldoInicial, 0) == saldoInicial + (if ms[0].estornado then 0 else ms[0].valor)
    ensures forall k :: 0 < k < |ms| ==>
      Balance(ms, saldoInicial, k) == Balance(ms, saldoInicial, k - 1) + (if ms[k].estornado then 0 else ms[k].valor)
    ensures ms != [] ==> Balance(ms, saldoInicial, |ms| - 1) == saldoInicial + Sum(ms, Contribution())
  {
    if ms != [] {
      SumStep(ms, 0, Contribution());
      assert ms[..0] == [];
      assert ms[..|ms|] == ms;
    }
    forall k | 0 < k < |ms|
      ensures Balance(ms, saldoInicial, k) == Balance(ms, saldoInicial, k - 1) + (if ms[k].estornado then 0 else ms[k].valor)
    {
      SumStep(ms, k, Contribution());
    }
  }

  /** What the screen shows: the six KPI cards, the period list and its rows. */
  datatype Screen = Screen(
    saldoAnterior: int,
    totalEntradas: int,
    totalSaidas: int,
    saldoPeriodo: int,
    saldoFinal: int,
    saldoAConciliar: int,
    periodo: seq<Movement>,
    rows: seq<Row>)

  /** `processAndRender` over the movements of the selected account. */
  method ProcessAndRender(accounts: map<string, BankAccount>, contaId: string, docs: seq<Movement>, de: string, ate: string)
    returns (s: Screen)
    ensures s.saldoAnterior == SaldoInicialOf(accounts, contaId) + Sum(Keep(docs, BeforeP(de)), Contribution())
    ensures s.periodo == Periodo(docs, de, ate)
    ensures s.totalEntradas == Sum(s.periodo, EntradaOf()) >= 0
    ensures s.totalSaidas == Sum(s.periodo, SaidaOf()) <= 0
    ensures s.saldoAConciliar == Sum(Keep(s.periodo, Unreconciled()), Contribution())
    ensures s.saldoPeriodo == s.totalEntradas + s.totalSaidas == Sum(Keep(docs, InPeriodP(de, ate)), Contribution())
    ensures s.saldoFinal == s.saldoAnterior + s.saldoPeriodo
    ensures |s.rows| == |s.periodo|
    ensures forall k :: 0 <= k < |s.rows| ==> s.rows[k] == RowOf(s.periodo[k], Balance(s.periodo, s.saldoAnterior, k))
    ensures s.rows != [] ==> s.rows[|s.rows| - 1].saldo == s.saldoFinal
  {
    var saldoInicialConta := SaldoInicialOf(accounts, contaId);
    var saldoAnterior := SaldoAnterior(saldoInicialConta, docs, de);
    var periodo := Periodo(docs, de, ate);
    var totalEntradas, totalSaidas, saldoAConciliar := PeriodKpis(periodo);
    KpisMeaning(periodo);
    PeriodoMeaning(docs, de, ate);
    SumPermutation(periodo, Keep(docs, InPeriodP(de, ate)), Contribution());
    var saldoPeriodo := totalEntradas + totalSaidas;
    var saldoFinal := saldoAnterior + saldoPeriodo;
    var rows := RenderMovimentacoes(periodo, saldoAnterior);
    BalanceMeaning(periodo, saldoAnterior);
    s := Screen(saldoAnterior, totalEntradas, totalSaidas, saldoPeriodo, saldoFinal, saldoAConciliar, periodo, rows);
  }

  /**
   * When the period's start is not after its end, the closing balance is the
   * opening balance of the account plus every non-reversed movement up to the
   * end of the period.
   */
  lemma SaldoFinalMeaning(saldoInicial: int, docs: seq<Movement>, de: string, ate: string)
    requires !(Present(de) && Present(ate) && Less(ate, de))
    ensures saldoInicial + Sum(Keep(docs, BeforeP(de)), Contribution()) + Sum(Keep(docs, InPeriodP(de, ate)), Contribution())
         == saldoInicial + Sum(Keep(docs, NotAfterP(ate)), Contribution())
  {
    var before := ContributionBefore(de);
    var inPeriod := (m: Movement) => if InPeriodP(de, ate)(m) then Contribution()(m) else 0;
    var notAfter := (m: Movement) => if NotAfterP(ate)(m) then Contribution()(m) else 0;
    SumGuarded(docs, BeforeP(de), Contribution(), before);
    SumGuarded(docs, InPeriodP(de, ate), Contribution(), inPeriod);
    SumGuarded(docs, NotAfterP(ate), Contribution(), notAfter);
    forall m | m in docs ensures notAfter(m) == before(m) + inPeriod(m) {
      if BeforePeriod(m, de) && AfterPeriod(m, ate) {
        LessTransitive(ate, m.dataTransacao, de);
      }
    }
    SumAdd(docs, before, inPeriod, notAfter);
  }

  // ---------------------------------------------------------------------------
  // updateActionButtons
  // ---------------------------------------------------------------------------

  datatype Buttons = Buttons(conciliarDisabled: bool, desfazerDisabled: bool, estornarDisabled: bool)

  /** `some` over the selected movements. */
  predicate Any(ms: seq<Movement>, p: Movement -> bool)
    decreases |ms|
  {
    ms != [] && (p(ms[0]) || Any(ms[1..], p))
  }

  lemma {:induction false} AnyMeaning(ms: seq<Movement>, p: Movement -> bool)
    ensures Any(ms, p) <==> exists k :: 0 <= k < |ms| && p(ms[k])
    decreases |ms|
  {
    if ms != [] {
      AnyMeaning(ms[1..], p);
      if p(ms[0]) {
        assert 0 < |ms| && p(ms[0]);
      }
      if Any(ms[1..], p) {
        var k :| 0 <= k < |ms[1..]| && p(ms[1..][k]);
        assert p(ms[k + 1]);
      }
      if exists k :: 0 <= k < |ms| && p(ms[k]) {
        var k :| 0 <= k < |ms| && p(ms[k]);
        if k > 0 {
          assert p(ms[1..][k - 1]);
        }
      }
    }
  }

  function IsConciliado(): Movement -> bool
  {
    (m: Movement) => m.conciliado
  }

  function IsEstornado(): Movement -> bool
  {
    (m: Movement) => m.estornado
  }

  /**
   * The buttons for a selection: reconcile needs every selected movement
   * unreconciled and live, undo needs every one reconciled and live, and
   * reversal needs exactly one live movement.
   */
  function ActionButtons(selected: seq<Movement>): (b: Buttons)
    ensures selected == [] ==> b == Buttons(true, true, true)
    ensures !b.conciliarDisabled <==>
      (selected != [] && forall k :: 0 <= k < |selected| ==> !selected[k].conciliado && !selected[k].estornado)
    ensures !b.desfazerDisabled <==>
      (selected != [] && forall k :: 0 <= k < |selected| ==> selected[k].conciliado && !selected[k].estornado)
    ensures !b.estornarDisabled <==> |selected| == 1 && !selected[0].estornado
    ensures b.conciliarDisabled || b.desfazerDisabled
  {
    if selected == [] then Buttons(true, true, true)
    else
      AnyMeaning(selected, IsConciliado());
      AnyMeaning(selected, Unreconciled());
      AnyMeaning(selected, IsEstornado());
      var anyConciliado := Any(selected, IsConciliado());
      var anyNaoConciliado := Any(selected, Unreconciled());
      var anyEstornado := Any(selected, IsEstornado());
      assert selected[0].conciliado ==> anyConciliado;
      assert !selected[0].conciliado ==> anyNaoConciliado;
      Buttons(anyConciliado || anyEstornado, anyNaoConciliado || anyEstornado, |selected| != 1 || anyEstornado)
  }

  /** `allMovimentacoes.find(m => m.id === id)`: the first movement with the id. */
  function FindMovement(all: seq<Movement>, id: string): (r: Option<Movement>)
    ensures r.Some? ==> r.value in all && r.value.id == id
    ensures r.None? ==> forall k :: 0 <= k < |all| ==> all[k].id != id
    decreases |all|
  {
    if all == [] then None
    else if all[0].id == id then Some(all[0])
    else
      var r := FindMovement(all[1..], id);
      assert forall k :: 1 <= k < |all| ==> all[k] == all[1..][k - 1];
      r
  }

  /** The selected ids mapped to the listed movements; `None` when one is not listed. */
  function SelectedMovements(ids: seq<string>, all: seq<Movement>): (r: Option<seq<Movement>>)
    ensures r.Some? ==> |r.value| == |ids| && forall k :: 0 <= k < |ids| ==> r.value[k] in all && r.value[k].id == ids[k]
    ensures r.None? ==> exists k :: 0 <= k < |ids| && FindMovement(all, ids[k]).None?
    ensures r.Some? <==> forall k :: 0 <= k < |ids| ==> FindMovement(all, ids[k]).Some?
    ensures r.Some? ==> forall k :: 0 <= k < |ids| ==> r.value[k] == FindMovement(all, ids[k]).value
    decreases |ids|
  {
    if ids == [] then Some([])
    else
      match (FindMovement(all, ids[0]), SelectedMovements(ids[1..], all))
      case (Some(m), Some(rest)) =>
        assert forall k :: 1 <= k < |ids| ==> ids[k] == ids[1..][k - 1];
        Some([m] + rest)
      case (None, _) => None
      case (_, None) =>
        ghost var k :| 0 <= k < |ids[1..]| && FindMovement(all, ids[1..][k]).None?;
        assert FindMovement(all, ids[k + 1]).None?;
        None
  }

  /** `selectedIds.map(id => allMovimentacoes.find(...))`: one lookup per id, `None` for `undefined`. */
  function Lookups(ids: seq<string>, all: seq<Movement>): (r: seq<Option<Movement>>)
    ensures |r| == |ids| && forall k :: 0 <= k < |ids| ==> r[k] == FindMovement(all, ids[k])
  {
    seq(|ids|, k requires 0 <= k < |ids| => FindMovement(all, ids[k]))
  }

  /**
   * `some(p)` over the looked-up movements: it stops at the first movement that
   * passes, and reading a property of `undefined` throws (`None`) when a missing
   * entry is reached first.
   */
  function ScanSome(ms: seq<Option<Movement>>, p: Movement -> bool): Option<bool>
    decreases |ms|
  {
    if ms == [] then Some(false)
    else match ms[0]
      case None => None
      case Some(m) => if p(m) then Some(true) else ScanSome(ms[1..], p)
  }

  /** A missing entry comes before every movement that passes `p`. */
  predicate MissingBeforeMatch(ms: seq<Option<Movement>>, p: Movement -> bool)
  {
    exists k :: 0 <= k < |ms| && ms[k].None? && forall j :: 0 <= j < k ==> ms[j].Some? && !p(ms[j].value)
  }

  lemma {:induction false} ScanSomeThrows(ms: seq<Option<Movement>>, p: Movement -> bool)
    ensures ScanSome(ms, p).None? <==> MissingBeforeMatch(ms, p)
    decreases |ms|
  {
    if ms != [] {
      var t := ms[1..];
      ScanSomeThrows(t, p);
      if ms[0].None? {
        assert 0 < |ms| && ms[0].None?;
      } else if !p(ms[0].value) {
        if MissingBeforeMatch(t, p) {
          var k :| 0 <= k < |t| && t[k].None? && forall j :: 0 <= j < k ==> t[j].Some? && !p(t[j].value);
          assert forall j :: 1 <= j < k + 1 ==> ms[j] == t[j - 1];
          assert ms[k + 1].None? && forall j :: 0 <= j < k + 1 ==> ms[j].Some? && !p(ms[j].value);
        }
        if MissingBeforeMatch(ms, p) {
          var k :| 0 <= k < |ms| && ms[k].None? && forall j :: 0 <= j < k ==> ms[j].Some? && !p(ms[j].value);
          assert k > 0;
          assert forall j :: 0 <= j < k - 1 ==> t[j] == ms[j + 1];
          assert t[k - 1].None? && forall j :: 0 <= j < k - 1 ==> t[j].Some? && !p(t[j].value);
        }
      }
    }
  }

  /** A scan that ends without a match has read every entry. */
  lemma {:induction false} ScanSomeFalse(ms: seq<Option<Movement>>, p: Movement -> bool)
    ensures ScanSome(ms, p) == Some(false) ==> forall k :: 0 <= k < |ms| ==> ms[k].Some? && !p(ms[k].value)
    decreases |ms|
  {
    if ms != [] {
      ScanSomeFalse(ms[1..], p);
      assert forall k :: 1 <= k < |ms| ==> ms[k] == ms[1..][k - 1];
    }
  }

  /** With every entry present, `ScanSome` is `Any` over the movements. */
  lemma {:induction false} ScanSomeFound(ids: seq<string>, all: seq<Movement>, ms: seq<Movement>, p: Movement -> bool)
    requires SelectedMovements(ids, all) == Some(ms)
    ensures ScanSome(Lookups(ids, all), p) == Some(Any(ms, p))
    decreases |ids|
  {
    if ids != [] {
      var rest := SelectedMovements(ids[1..], all);
      assert rest.Some? && ms == [FindMovement(all, ids[0]).value] + rest.value;
      assert Lookups(ids, all)[1..] == Lookups(ids[1..], all);
      assert ms[1..] == rest.value;
      ScanSomeFound(ids[1..], all, rest.value, p);
    }
  }

  /**
   * One of the three scans of `updateActionButtons` (reconciled, unreconciled,
   * reversed) reaches a missing entry before it finds a match.
   */
  predicate UpdateThrows(ids: seq<string>, all: seq<Movement>)
  {
    || MissingBeforeMatch(Lookups(ids, all), IsConciliado())
    || MissingBeforeMatch(Lookups(ids, all), Unreconciled())
    || MissingBeforeMatch(Lookups(ids, all), IsEstornado())
  }

  /**
   * `updateActionButtons`. The three scans run in the source's order; when one of
   * them reaches a selected id that is not among the listed movements before it
   * finds a match, the property read throws before any button is set, so the
   * buttons keep their state.
   */
  function UpdateActionButtons(ids: seq<string>, all: seq<Movement>, current: Buttons): (b: Buttons)
    ensures ids == [] ==> b == Buttons(true, true, true)
    ensures ids != [] && (forall k :: 0 <= k < |ids| ==> FindMovement(all, ids[k]).Some?) ==>
      && SelectedMovements(ids, all).Some?
      && b == ActionButtons(SelectedMovements(ids, all).value)
      && (!b.estornarDisabled <==> |ids| == 1 && !FindMovement(all, ids[0]).value.estornado)
      && (b.conciliarDisabled || b.desfazerDisabled)
    ensures ids != [] && UpdateThrows(ids, all) ==> b == current
    ensures ids != [] && !UpdateThrows(ids, all) && (exists k :: 0 <= k < |ids| && FindMovement(all, ids[k]).None?) ==>
      b == Buttons(true, true, true)
  {
    if ids == [] then Buttons(true, true, true)
    else
      var ls := Lookups(ids, all);
      var conciliado := ScanSome(ls, IsConciliado());
      var naoConciliado := ScanSome(ls, Unreconciled());
      var estornado := ScanSome(ls, IsEstornado());
      ScanSomeThrows(ls, IsConciliado());
      ScanSomeThrows(ls, Unreconciled());
      ScanSomeThrows(ls, IsEstornado());
      if conciliado.None? || naoConciliado.None? || estornado.None? then current
      else
        var anyConciliado := conciliado.value;
        var anyNaoConciliado := naoConciliado.value;
        var anyEstornado := estornado.value;
        match SelectedMovements(ids, all)
        case Some(sel) =>
          ScanSomeFound(ids, all, sel, IsConciliado());
          ScanSomeFound(ids, all, sel, Unreconciled());
          ScanSomeFound(ids, all, sel, IsEstornado());
          Buttons(anyConciliado || anyEstornado, anyNaoConciliado || anyEstornado, |ids| != 1 || anyEstornado)
        case None =>
          ScanSomeFalse(ls, IsConciliado());
          ScanSomeFalse(ls, Unreconciled());
          ScanSomeFalse(ls, IsEstornado());
          Buttons(anyConciliado || anyEstornado, anyNaoConciliado || anyEstornado, |ids| != 1 || anyEstornado)
  }

  /**
   * Scans that all stop before a missing entry: the first movement is reconciled
   * and reversed, the second unreconciled, and the third id is not listed, so
   * no scan reaches it and every button is disabled.
   */
  lemma UpdateActionButtonsShortCircuit(a: Movement, b: Movement, current: Buttons)
    requires a.id == "a" && a.conciliado && a.estornado
    requires b.id == "b" && !b.conciliado
    ensures UpdateActionButtons(["a", "b", "x"], [a, b], current) == Buttons(true, true, true)
  {
    assert "a" != "b" && "a" != "x" && "b" != "x" by {
      assert "a"[0] != "b"[0] && "a"[0] != "x"[0] && "b"[0] != "x"[0];
    }
    assert [a, b][1..] == [b];
    assert FindMovement([b], "b") == Some(b);
    assert FindMovement([a, b], "b") == FindMovement([b], "b");
    var ls := Lookups(["a", "b", "x"], [a, b]);
    assert ls[0] == Some(a);
    assert ls[1] == Some(b);
    assert ScanSome(ls, IsConciliado()) == Some(true);
    assert ScanSome(ls[1..], Unreconciled()) == Some(true);
    assert ScanSome(ls, IsEstornado()) == Some(true);
  }

  // ---------------------------------------------------------------------------
  // handleConciliacao
  // ---------------------------------------------------------------------------

  /**
   * One update of the reconciliation batch as written: the reconciling user
   * is the literal string "currentUserName", whoever is signed in.
   */
  function ReconcileAsWritten(m: Movement, conciliar: bool, today: string): Movement
  {
    m.(conciliado := conciliar,
       dataConciliacao := if conciliar then Some(today) else None,
       usuarioConciliacao := if conciliar then Some("currentUserName") else None)
  }

  /** One update of the reconciliation batch, recording the signed-in user. */
  function Reconcile(m: Movement, conciliar: bool, today: string, userName: string): Movement
  {
    m.(conciliado := conciliar,
       dataConciliacao := if conciliar then Some(today) else None,
       usuarioConciliacao := if conciliar then Some(userName) else None)
  }

  /** The reconciliation flag is set, the date and user follow it, and nothing else of the movement changes. */
  lemma ReconcileMeaning(m: Movement, conciliar: bool, today: string, userName: string)
    ensures var r := Reconcile(m, conciliar, today, userName);
      && r.conciliado == conciliar
      && (conciliar ==> r.dataConciliacao == Some(today) && r.usuarioConciliacao == Some(userName))
      && (!conciliar ==> r.dataConciliacao.None? && r.usuarioConciliacao.None?)
      && r.(conciliado := m.conciliado, dataConciliacao := m.dataConciliacao, usuarioConciliacao := m.usuarioConciliacao) == m
  {
  }

  /** As written, the recorded user is never the signed-in user, unless that user is named "currentUserName". */
  lemma ReconcileAsWrittenIgnoresUser(m: Movement, today: string, userName: string)
    requires userName != "currentUserName"
    ensures ReconcileAsWritten(m, true, today).usuarioConciliacao != Some(userName)
    ensures Reconcile(m, true, today, userName).usuarioConciliacao == Some(userName)
  {
  }

  /** The state of the movements after a committed batch: the selected ones updated, the others as they were. */
  function ReconcileAll(movs: map<string, Movement>, ids: seq<string>, conciliar: bool, today: string, userName: string)
    : map<string, Movement>
  {
    map k | k in movs :: if k in ids then Reconcile(movs[k], conciliar, today, userName) else movs[k]
  }

  /** Applying the toggle twice with the same arguments is applying it once. */
  lemma ReconcileAllIdempotent(movs: map<string, Movement>, ids: seq<string>, conciliar: bool, today: string, userName: string)
    ensures var once := ReconcileAll(movs, ids, conciliar, today, userName);
      ReconcileAll(once, ids, conciliar, today, userName) == once
  {
  }

  /** Undoing a reconciliation clears the flag, the date and the user of every selected movement, whatever they were. */
  lemma ReconcileThenUndo(movs: map<string, Movement>, ids: seq<string>, today: string, userName: string, k: string)
    requires k in movs && k in ids
    ensures var after := ReconcileAll(ReconcileAll(movs, ids, true, today, userName), ids, false, today, userName);
      && k in after
      && !after[k].conciliado && after[k].dataConciliacao.None? && after[k].usuarioConciliacao.None?
      && after[k] == Reconcile(movs[k], false, today, userName)
  {
  }

  /** Reconciling again an already reconciled movement changes nothing. */
  lemma ReconcileIdempotent(m: Movement, conciliar: bool, today: string, userName: string)
    ensures Reconcile(Reconcile(m, conciliar, today, userName), conciliar, today, userName)
         == Reconcile(m, conciliar, today, userName)
  {
  }

  /** The `forEach` that queues one update per selected id; an id with no document makes the commit fail. */
  method StageConciliacao(movs: map<string, Movement>, ids: seq<string>, conciliar: bool, today: string, userName: string)
    returns (staged: map<string, Movement>, missing: bool)
    ensures missing <==> exists k :: 0 <= k < |ids| && ids[k] !in movs
    ensures !missing ==> staged == ReconcileAll(movs, ids, conciliar, today, userName)
  {
    staged := movs;
    missing := false;
    for i := 0 to |ids|
      invariant missing <==> exists k :: 0 <= k < i && ids[k] !in movs
      invariant staged.Keys == movs.Keys
      invariant forall x :: x in movs ==> staged[x] == if x in ids[..i] then Reconcile(movs[x], conciliar, today, userName) else movs[x]
    {
      var id := ids[i];
      assert ids[..i + 1] == ids[..i] + [id];
      if id in staged {
        ReconcileIdempotent(movs[id], conciliar, today, userName);
        staged := staged[id := Reconcile(staged[id], conciliar, today, userName)];
      } else {
        missing := true;
      }
    }
    assert ids[..|ids|] == ids;
  }

  // ---------------------------------------------------------------------------
  // handleEstorno
  // ---------------------------------------------------------------------------

  /** A record of a title's history, addressed by the title and the record's own id. */
  datatype HistKey = HistKey(parentId: string, id: string)

  /** The documents the reversal reads and writes. */
  datatype Ledger = Ledger(
    movs: map<string, Movement>,
    despesas: map<string, Title>,
    receitas: map<string, Title>,
    pagamentos: map<HistKey, HistoryRecord>,
    recebimentos: map<HistKey, HistoryRecord>)

  /** How a movement is tied to the payment or receipt it came from. */
  datatype Bridge =
    | Manual    // no way back to an origin record: the movement is only deleted
    | Linked    // both ids and a typed origin: the origin is reversed
    | Broken    // both ids but no origemTipo: the `includes` call throws

  function BridgeOf(m: Movement): Bridge
  {
    if !Present(m.origemParentId) || !Present(m.origemId) then Manual
    else if m.origemTipo.None? then Broken
    else if '_' !in m.origemTipo.value then Manual
    else Linked
  }

  const PagamentoDespesa := "PAGAMENTO_DESPESA"

  const MovementNotFound := "Lançamento bancário não encontrado para exclusão."

  const OrigemTipoUndefined := "Cannot read properties of undefined (reading 'includes')"

  function ParentNotFound(parentId: string): string
  {
    "O título original (ID: " + parentId + ") não foi encontrado."
  }

  function OriginNotFound(origemId: string): string
  {
    "O registro de pagamento/recebimento original (ID: " + origemId + ") não foi encontrado no histórico."
  }

  /** The amounts the reversal takes back. */
  datatype Amounts = Amounts(principal: int, juros: int, descontos: int)

  function AmountsOf(h: HistoryRecord): Amounts
  {
    Amounts(h.valorPrincipal, Or(h.jurosPagos, h.jurosRecebidos), Or(h.descontosAplicados, h.descontosConcedidos))
  }

  /** The "Estorno" record appended to the title's history. */
  function EstornoRecord(parentId: string, newId: string, a: Amounts, today: string, userName: string): (r: HistoryRecord)
    ensures r.tipoTransacao == "Estorno" && r.dataTransacao == today
    ensures AmountsOf(r) == a
    ensures !r.estornado && !r.conciliado
  {
    HistoryRecord(newId, parentId, "Estorno", today, a.principal, a.juros, 0, a.descontos, 0, None, None,
                  false, false, OrElse(userName, "Sistema"), "Estornado via Conciliação Bancária")
  }

  /** `new Date(due + 'T00:00:00') < today`: an absent due date gives an invalid date, which is before nothing. */
  predicate DueBefore(due: string, today: string)
  {
    Present(due) && Less(due, today)
  }

  /** The status of a reopened title: unpaid again, or still partly paid. */
  function ReopenedStatus(total: int, due: string, today: string, partial: string): string
  {
    if total <= 0 then (if DueBefore(due, today) then "Vencido" else "Pendente") else partial
  }

  /** The payable after its payment is taken back. */
  function ReopenPayable(t: Title, a: Amounts, today: string): (r: Title)
    ensures r.totalPago + a.principal == t.totalPago
    ensures r.totalJuros + a.juros == t.totalJuros
    ensures r.totalDescontos + a.descontos == t.totalDescontos
    ensures r.valorSaldo == r.valorOriginal + r.totalJuros - r.totalPago - r.totalDescontos
    ensures t.valorSaldo == t.valorOriginal + t.totalJuros - t.totalPago - t.totalDescontos ==>
      r.valorSaldo == t.valorSaldo + a.principal + a.descontos - a.juros
    ensures r.status in {"Vencido", "Pendente", "Pago Parcialmente"}
    ensures r.status == "Pago Parcialmente" <==> r.totalPago > 0
    ensures r.status == "Vencido" <==> r.totalPago <= 0 && DueBefore(t.vencimento, today)
    ensures r.valorSaldoPresente
    ensures r.(totalPago := t.totalPago, totalJuros := t.totalJuros, totalDescontos := t.totalDescontos,
               valorSaldo := t.valorSaldo, valorSaldoPresente := t.valorSaldoPresente, status := t.status) == t
  {
    var totalPago := t.totalPago - a.principal;
    var totalJuros := t.totalJuros - a.juros;
    var totalDescontos := t.totalDescontos - a.descontos;
    t.(totalPago := totalPago, totalJuros := totalJuros, totalDescontos := totalDescontos,
       valorSaldo := t.valorOriginal + totalJuros - totalPago - totalDescontos, valorSaldoPresente := true,
       status := ReopenedStatus(totalPago, t.vencimento, today, "Pago Parcialmente"))
  }

  /** The receivable after its receipt is taken back; its due date is `dataVencimento`, else `vencimento`. */
  function ReopenReceivable(t: Title, a: Amounts, today: string): (r: Title)
    ensures r.totalRecebido + a.principal == t.totalRecebido
    ensures r.totalJuros + a.juros == t.totalJuros
    ensures r.totalDescontos + a.descontos == t.totalDescontos
    ensures r.saldoPendente == r.valorOriginal + r.totalJuros - r.totalRecebido - r.totalDescontos
    ensures t.saldoPendente == t.valorOriginal + t.totalJuros - t.totalRecebido - t.totalDescontos ==>
      r.saldoPendente == t.saldoPendente + a.principal + a.descontos - a.juros
    ensures r.status in {"Vencido", "Pendente", "Recebido Parcialmente"}
    ensures r.status == "Recebido Parcialmente" <==> r.totalRecebido > 0
    ensures r.status == "Vencido" <==> r.totalRecebido <= 0 && DueBefore(OrElse(t.dataVencimento, t.vencimento), today)
    ensures r.(totalRecebido := t.totalRecebido, totalJuros := t.totalJuros, totalDescontos := t.totalDescontos,
               saldoPendente := t.saldoPendente, status := t.status) == t
  {
    var totalRecebido := t.totalRecebido - a.principal;
    var totalJuros := t.totalJuros - a.juros;
    var totalDescontos := t.totalDescontos - a.descontos;
    t.(totalRecebido := totalRecebido, totalJuros := totalJuros, totalDescontos := totalDescontos,
       saldoPendente := t.valorOriginal + totalJuros - totalRecebido - totalDescontos,
       status := ReopenedStatus(totalRecebido, OrElse(t.dataVencimento, t.vencimento), today, "Recebido Parcialmente"))
  }

  /** The writes of a linked reversal on one side (a title collection and its history collection). */
  function ReverseLinked(titles: map<string, Title>, hist: map<HistKey, HistoryRecord>, despesa: bool,
                         parentId: string, origemId: string, today: string, userName: string, newId: string)
    : (map<string, Title>, map<HistKey, HistoryRecord>)
    requires parentId in titles && HistKey(parentId, origemId) in hist
  {
    var key := HistKey(parentId, origemId);
    var a := AmountsOf(hist[key]);
    var parent := if despesa then ReopenPayable(titles[parentId], a, today) else ReopenReceivable(titles[parentId], a, today);
    (titles[parentId := parent],
     hist[key := hist[key].(estornado := true)][HistKey(parentId, newId) := EstornoRecord(parentId, newId, a, today, userName)])
  }

  /** The transaction body of `handleEstorno` on movement `movId`; `newId` is the store's fresh id for the new record. */
  function Estorno(l: Ledger, movId: string, today: string, userName: string, newId: string): Result<Ledger, string>
  {
    if movId !in l.movs then Err(MovementNotFound)
    else
      var m := l.movs[movId];
      match BridgeOf(m)
      case Manual => Ok(l.(movs := l.movs - {movId}))
      case Broken => Err(OrigemTipoUndefined)
      case Linked =>
        var despesa := m.origemTipo.value == PagamentoDespesa;
        var titles := if despesa then l.despesas else l.receitas;
        var hist := if despesa then l.pagamentos else l.recebimentos;
        if m.origemParentId !in titles then Err(ParentNotFound(m.origemParentId))
        else if HistKey(m.origemParentId, m.origemId) !in hist then Err(OriginNotFound(m.origemId))
        else
          var (titles', hist') := ReverseLinked(titles, hist, despesa, m.origemParentId, m.origemId, today, userName, newId);
          if despesa then Ok(l.(movs := l.movs - {movId}, despesas := titles', pagamentos := hist'))
          else Ok(l.(movs := l.movs - {movId}, receitas := titles', recebimentos := hist'))
  }

  /** The reversal fails exactly when the movement, the origin's type, the title or the history record is missing. */
  lemma EstornoFailures(l: Ledger, movId: string, today: string, userName: string, newId: string)
    ensures movId !in l.movs ==> Estorno(l, movId, today, userName, newId) == Err(MovementNotFound)
    ensures movId in l.movs && BridgeOf(l.movs[movId]) == Broken ==>
      Estorno(l, movId, today, userName, newId) == Err(OrigemTipoUndefined)
    ensures Estorno(l, movId, today, userName, newId).Err? <==>
      (movId !in l.movs
       || BridgeOf(l.movs[movId]) == Broken
       || (BridgeOf(l.movs[movId]) == Linked &&
           var m := l.movs[movId];
           var despesa := m.origemTipo.value == PagamentoDespesa;
           (m.origemParentId !in (if despesa then l.despesas else l.receitas)
            || HistKey(m.origemParentId, m.origemId) !in (if despesa then l.pagamentos else l.recebimentos))))
  {
  }

  /** A movement with no way back to its origin is deleted and no other document changes. */
  lemma EstornoManual(l: Ledger, movId: string, today: string, userName: string, newId: string)
    requires movId in l.movs && BridgeOf(l.movs[movId]) == Manual
    ensures var r := Estorno(l, movId, today, userName, newId);
      && r.Ok?
      && r.value.movs.Keys == l.movs.Keys - {movId}
      && (forall id :: id in r.value.movs ==> r.value.movs[id] == l.movs[id])
      && r.value.despesas == l.despesas && r.value.receitas == l.receitas
      && r.value.pagamentos == l.pagamentos && r.value.recebimentos == l.recebimentos
  {
  }

  /**
   * A linked reversal of a payment: the movement is deleted, the payment is
   * flagged as reversed, one "Estorno" record with the same amounts is added,
   * the payable's totals drop by those amounts, and the receivable side is untouched.
   */
  lemma EstornoLinkedPayment(l: Ledger, movId: string, today: string, userName: string, newId: string)
    requires movId in l.movs
    requires var m := l.movs[movId];
      && BridgeOf(m) == Linked && m.origemTipo.value == PagamentoDespesa
      && m.origemParentId in l.despesas && HistKey(m.origemParentId, m.origemId) in l.pagamentos
      && HistKey(m.origemParentId, newId) !in l.pagamentos
    ensures var m := l.movs[movId];
      var key := HistKey(m.origemParentId, m.origemId);
      var newKey := HistKey(m.origemParentId, newId);
      var r := Estorno(l, movId, today, userName, newId);
      && r.Ok?
      && r.value.movs == l.movs - {movId}
      && r.value.pagamentos.Keys == l.pagamentos.Keys + {newKey}
      && r.value.pagamentos[key] == l.pagamentos[key].(estornado := true)
      && r.value.pagamentos[newKey] == EstornoRecord(m.origemParentId, newId, AmountsOf(l.pagamentos[key]), today, userName)
      && (forall k :: k in l.pagamentos && k != key ==> r.value.pagamentos[k] == l.pagamentos[k])
      && r.value.despesas.Keys == l.despesas.Keys
      && r.value.despesas[m.origemParentId] == ReopenPayable(l.despesas[m.origemParentId], AmountsOf(l.pagamentos[key]), today)
      && (forall id :: id in l.despesas && id != m.origemParentId ==> r.value.despesas[id] == l.despesas[id])
      && r.value.receitas == l.receitas && r.value.recebimentos == l.recebimentos
  {
    var m := l.movs[movId];
    var key := HistKey(m.origemParentId, m.origemId);
    assert key != HistKey(m.origemParentId, newId);
  }

  /** The same for a receipt: any typed origin other than a payment is read as a receipt. */
  lemma EstornoLinkedReceipt(l: Ledger, movId: string, today: string, userName: string, newId: string)
    requires movId in l.movs
    requires var m := l.movs[movId];
      && BridgeOf(m) == Linked && m.origemTipo.value != PagamentoDespesa
      && m.origemParentId in l.receitas && HistKey(m.origemParentId, m.origemId) in l.recebimentos
      && HistKey(m.origemParentId, newId) !in l.recebimentos
    ensures var m := l.movs[movId];
      var key := HistKey(m.origemParentId, m.origemId);
      var newKey := HistKey(m.origemParentId, newId);
      var r := Estorno(l, movId, today, userName, newId);
      && r.Ok?
      && r.value.movs == l.movs - {movId}
      && r.value.recebimentos.Keys == l.recebimentos.Keys + {newKey}
      && r.value.recebimentos[key] == l.recebimentos[key].(estornado := true)
      && r.value.recebimentos[newKey] == EstornoRecord(m.origemParentId, newId, AmountsOf(l.recebimentos[key]), today, userName)
      && (forall k :: k in l.recebimentos && k != key ==> r.value.recebimentos[k] == l.recebimentos[k])
      && r.value.receitas.Keys == l.receitas.Keys
      && r.value.receitas[m.origemParentId] == ReopenReceivable(l.receitas[m.origemParentId], AmountsOf(l.recebimentos[key]), today)
      && (forall id :: id in l.receitas && id != m.origemParentId ==> r.value.receitas[id] == l.receitas[id])
      && r.value.despesas == l.despesas && r.value.pagamentos == l.pagamentos
  {
    var m := l.movs[movId];
    var key := HistKey(m.origemParentId, m.origemId);
    assert key != HistKey(m.origemParentId, newId);
  }

  /** A movement can be reversed once: reversing it again fails because it no longer exists. */
  lemma EstornoOnce(l: Ledger, movId: string, today: string, userName: string, newId: string, today2: string, newId2: string)
    requires Estorno(l, movId, today, userName, newId).Ok?
    ensures Estorno(Estorno(l, movId, today, userName, newId).value, movId, today2, userName, newId2) == Err(MovementNotFound)
  {
  }

  // ---------------------------------------------------------------------------
  // The store the two actions write
  // ---------------------------------------------------------------------------

  datatype BatchOutcome = NothingSelected | Committed(count: nat) | CommitFailed

  datatype EstornoOutcome = NotOneSelected | NotConfirmed | Reverted | Failed(message: string)

  class BankStore {
    var movs: map<string, Movement>
    var despesas: map<string, Title>
    var receitas: map<string, Title>
    var pagamentos: map<HistKey, HistoryRecord>
    var recebimentos: map<HistKey, HistoryRecord>

    function State(): Ledger
      reads this
    {
      Ledger(movs, despesas, receitas, pagamentos, recebimentos)
    }

    constructor (l: Ledger)
      ensures State() == l
    {
      movs, despesas, receitas, pagamentos, recebimentos := l.movs, l.despesas, l.receitas, l.pagamentos, l.recebimentos;
    }

    /**
     * `handleConciliacao(conciliar)`: one batch over the selection, committed as a
     * whole or not at all. It records the signed-in user as the reconciling user,
     * the corrected update of finding 3; `ReconcileAsWritten` keeps the code's literal.
     */
    method HandleConciliacao(ids: seq<string>, conciliar: bool, today: string, userName: string) returns (outcome: BatchOutcome)
      modifies this
      ensures outcome.NothingSelected? <==> ids == []
      ensures outcome.CommitFailed? <==> ids != [] && exists k :: 0 <= k < |ids| && ids[k] !in old(movs)
      ensures outcome.Committed? ==> outcome.count == |ids| && movs == ReconcileAll(old(movs), ids, conciliar, today, userName)
      ensures !outcome.Committed? ==> movs == old(movs)
      ensures despesas == old(despesas) && receitas == old(receitas)
      ensures pagamentos == old(pagamentos) && recebimentos == old(recebimentos)
    {
      if ids == [] {
        return NothingSelected;
      }
      var staged, missing := StageConciliacao(movs, ids, conciliar, today, userName);
      if missing {
        return CommitFailed;
      }
      movs := staged;
      return Committed(|ids|);
    }

    /**
     * `handleEstorno`: only with exactly one selected movement and the user's
     * confirmation; the transaction either applies every write or none.
     */
    method HandleEstorno(ids: seq<string>, confirmed: bool, today: string, userName: string, newId: string)
      returns (outcome: EstornoOutcome)
      modifies this
      ensures |ids| != 1 ==> outcome == NotOneSelected && State() == old(State())
      ensures |ids| == 1 && !confirmed ==> outcome == NotConfirmed && State() == old(State())
      ensures |ids| == 1 && confirmed ==>
        match Estorno(old(State()), ids[0], today, userName, newId)
        case Ok(l) => outcome == Reverted && State() == l
        case Err(e) => outcome == Failed(e) && State() == old(State())
    {
      if |ids| != 1 {
        return NotOneSelected;
      }
      if !confirmed {
        return NotConfirmed;
      }
      var movId := ids[0];
      if movId !in movs {
        return Failed(MovementNotFound);
      }
      var m := movs[movId];
      var bridge := BridgeOf(m);
      if bridge == Manual {
        movs := movs - {movId};
        return Reverted;
      }
      if bridge == Broken {
        return Failed(OrigemTipoUndefined);
      }
      var despesa := m.origemTipo.value == PagamentoDespesa;
      var titles := if despesa then despesas else receitas;
      var hist := if despesa then pagamentos else recebimentos;
      if m.origemParentId !in titles {
        return Failed(ParentNotFound(m.origemParentId));
      }
      if HistKey(m.origemParentId, m.origemId) !in hist {
        return Failed(OriginNotFound(m.origemId));
      }
      var (titles', hist') := ReverseLinked(titles, hist, despesa, m.origemParentId, m.origemId, today, userName, newId);
      movs := movs - {movId};
      if despesa {
        despesas, pagamentos := titles', hist';
      } else {
        receitas, recebimentos := titles', hist';
      }
      return Reverted;
    }
  }
}
