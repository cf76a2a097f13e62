/**
 * The report screen of receivables (contas a receber) and payables (contas a
 * pagar): the client-side status and beneficiary filters, the aging buckets of
 * overdue titles, the monthly forecasts and the chart-of-accounts roll-up tree.
 * Today's date and the number of days a title is late are inputs: the screen
 * reads them from the clock.
 */
module Reports {
  import opened Common
  import opened Records

  // ---------------------------------------------------------------------------
  // Client-side selection of titles
  // ---------------------------------------------------------------------------

  function NotDesdobrado(): Title -> bool
  {
    (t: Title) => t.status != "Desdobrado"
  }

  /** The receivables the report works on: every fetched title that was not split into installments. */
  function ReceivablesBase(fetched: seq<Title>): (r: seq<Title>)
    ensures SubsequenceOf(r, fetched)
    ensures forall t :: t in r <==> t in fetched && t.status != "Desdobrado"
  {
    Filter(fetched, NotDesdobrado())
  }

  function HasStatus(status: string): Title -> bool
  {
    (t: Title) => t.status == status
  }

  /** posicao-carteira: every title under 'todos', else the titles with exactly the chosen status. */
  function PosicaoCarteira(dados: seq<Title>, status: string): (r: seq<Title>)
    ensures SubsequenceOf(r, dados)
    ensures status == "todos" ==> r == dados
    ensures status != "todos" ==> forall t :: t in r <==> t in dados && t.status == status
  {
    SubsequenceOfSelf(dados);
    if status == "todos" then dados else Filter(dados, HasStatus(status))
  }

  /** Status sets of the reports. */
  const InadimplenciaStatuses: set<string> := {"Pendente", "Vencido", "Recebido Parcialmente"}
  const PrevisaoRecebimentosStatuses: set<string> := {"Pendente", "Recebido Parcialmente"}
  const AnaliseAtrasoStatuses: set<string> := {"Pendente", "Vencido", "Pago Parcialmente"}
  const PrevisaoDesembolsosStatuses: set<string> := {"Pendente", "Pago Parcialmente"}

  function StatusIn(statuses: set<string>): Title -> bool
  {
    (t: Title) => t.status in statuses
  }

  /** The titles a report of the given status set is drawn from. */
  function WithStatusIn(dados: seq<Title>, statuses: set<string>): (r: seq<Title>)
    ensures SubsequenceOf(r, dados)
    ensures forall t :: t in r <==> t in dados && t.status in statuses
  {
    Filter(dados, StatusIn(statuses))
  }

  /** The payables filter: the chosen beneficiary (or 'todos') and the chosen status (or 'todos'). */
  predicate PayableMatches(t: Title, beneficiarioId: string, status: string)
  {
    (beneficiarioId == "todos" || t.favorecidoId == beneficiarioId) && (status == "todos" || t.status == status)
  }

  function PayableFilter(beneficiarioId: string, status: string): Title -> bool
  {
    (t: Title) => PayableMatches(t, beneficiarioId, status)
  }

  function FilterPayables(dados: seq<Title>, beneficiarioId: string, status: string): (r: seq<Title>)
    ensures SubsequenceOf(r, dados)
    ensures forall t :: t in r <==> t in dados && (beneficiarioId == "todos" || t.favorecidoId == beneficiarioId) && (status == "todos" || t.status == status)
    ensures beneficiarioId == "todos" && status == "todos" ==> r == dados
  {
    Filter(dados, PayableFilter(beneficiarioId, status))
  }

  // ---------------------------------------------------------------------------
  // Overdue titles and aging buckets (renderInadimplencia, renderAnaliseAtraso)
  // ---------------------------------------------------------------------------

  /** A due date before today: an absent date parses to an invalid date, which is before nothing. */
  predicate DueBefore(due: string, hoje: string)
  {
    Present(due) && Less(due, hoje)
  }

  /** The due date of a receivable or of a payable, as the aging reports read it. */
  function ReceivableDue(): Title -> string
  {
    (t: Title) => t.dataVencimento
  }

  function PayableDue(): Title -> string
  {
    (t: Title) => t.vencimento
  }

  function IsOverdue(hoje: string, due: Title -> string, statuses: set<string>): Title -> bool
  {
    (t: Title) => DueBefore(due(t), hoje) && t.status in statuses
  }

  /** An overdue title with its number of days late. */
  datatype Late = Late(title: Title, diasAtraso: int)

  function WithDays(ts: seq<Title>, due: Title -> string, diasAtraso: string -> int): (r: seq<Late>)
    ensures |r| == |ts|
    ensures forall i :: 0 <= i < |ts| ==> r[i] == Late(ts[i], diasAtraso(due(ts[i])))
    decreases |ts|
  {
    if ts == [] then [] else WithDays(ts[..|ts| - 1], due, diasAtraso) + [Late(ts[|ts| - 1], diasAtraso(due(ts[|ts| - 1])))]
  }

  /**
   * dadosComAtraso: the titles due strictly before today whose status is in the
   * report's set, in their order, each with its days late.
   */
  function Overdue(dados: seq<Title>, hoje: string, due: Title -> string, statuses: set<string>, diasAtraso: string -> int): (r: seq<Late>)
    ensures forall l :: l in r <==> l.title in dados && DueBefore(due(l.title), hoje) && l.title.status in statuses && l.diasAtraso == diasAtraso(due(l.title))
  {
    var kept := Filter(dados, IsOverdue(hoje, due, statuses));
    var r := WithDays(kept, due, diasAtraso);
    assert forall l :: l in r ==> l.title in kept && l.diasAtraso == diasAtraso(due(l.title));
    assert forall t :: t in kept ==> Late(t, diasAtraso(due(t))) in r by {
      forall t | t in kept ensures Late(t, diasAtraso(due(t))) in r {
        var i :| 0 <= i < |kept| && kept[i] == t;
        assert r[i] == Late(t, diasAtraso(due(t)));
      }
    }
    r
  }

  /** The bucket of a title late by `dias` days: up to 30, up to 60, up to 90, or more. */
  function BucketOf(dias: int): (k: nat)
    ensures k < 4
    ensures k == 0 <==> dias <= 30
    ensures k == 1 <==> 30 < dias <= 60
    ensures k == 2 <==> 60 < dias <= 90
    ensures k == 3 <==> 90 < dias
  {
    if dias <= 30 then 0 else if dias <= 60 then 1 else if dias <= 90 then 2 else 3
  }

  function InBucket(k: nat): Late -> bool
  {
    (l: Late) => BucketOf(l.diasAtraso) == k
  }

  /** The amount the receivables aging adds up: `saldoPendente || 0`. */
  function SaldoPendenteOf(): Late -> int
  {
    (l: Late) => l.title.saldoPendente
  }

  /** The amount the payables aging adds up: `valorSaldo || 0`. */
  function ValorSaldoOf(): Late -> int
  {
    (l: Late) => l.title.valorSaldo
  }

  datatype Bucket = Bucket(total: int, items: seq<Late>)

  /** The buckets '30', '60', '90' and '91+'. */
  datatype Buckets = Buckets(upTo30: Bucket, upTo60: Bucket, upTo90: Bucket, over90: Bucket)
  {
    function GrandTotal(): int
    {
      upTo30.total + upTo60.total + upTo90.total + over90.total
    }
  }

  /** The overdue titles of bucket `k`, in their order. */
  function BucketItems(late: seq<Late>, k: nat): seq<Late>
    decreases |late|
  {
    if late == [] then []
    else BucketItems(late[..|late| - 1], k) + (if BucketOf(late[|late| - 1].diasAtraso) == k then [late[|late| - 1]] else [])
  }

  /** A bucket's titles are the overdue titles whose days late fall in its range, in their order. */
  lemma {:induction false} BucketItemsAreFilter(late: seq<Late>, k: nat)
    ensures BucketItems(late, k) == Filter(late, InBucket(k))
    ensures forall l :: l in BucketItems(late, k) <==> l in late && BucketOf(l.diasAtraso) == k
    decreases |late|
  {
    if late != [] {
      BucketItemsAreFilter(late[..|late| - 1], k);
    }
  }

  /** The four bucket sums of `f` split the sum of `f` over all overdue titles. */
  lemma {:induction false} BucketsPartitionSum(late: seq<Late>, f: Late -> int)
    ensures Sum(late, f) == Sum(BucketItems(late, 0), f) + Sum(BucketItems(late, 1), f)
                          + Sum(BucketItems(late, 2), f) + Sum(BucketItems(late, 3), f)
    decreases |late|
  {
    if late != [] {
      var init, last := late[..|late| - 1], late[|late| - 1];
      BucketsPartitionSum(init, f);
      var k := BucketOf(last.diasAtraso);
      forall j | 0 <= j < 4
        ensures Sum(BucketItems(late, j), f) == Sum(BucketItems(init, j), f) + (if j == k then f(last) else 0)
      {
        SumAppend(BucketItems(init, j), if j == k then [last] else [], f);
        assert Sum([last], f) == f(last) by {
          assert [last][..0] == [];
        }
      }
    }
  }

  lemma BucketItemsStep(late: seq<Late>, i: nat, k: nat, f: Late -> int)
    requires i < |late|
    ensures BucketItems(late[..i + 1], k) == BucketItems(late[..i], k) + (if BucketOf(late[i].diasAtraso) == k then [late[i]] else [])
    ensures Sum(BucketItems(late[..i + 1], k), f) == Sum(BucketItems(late[..i], k), f) + (if BucketOf(late[i].diasAtraso) == k then f(late[i]) else 0)
  {
    assert late[..i + 1][..i] == late[..i];
    var add := if BucketOf(late[i].diasAtraso) == k then [late[i]] else [];
    SumAppend(BucketItems(late[..i], k), add, f);
    assert Sum([late[i]], f) == f(late[i]) by {
      assert [late[i]][..0] == [];
    }
  }

  /** Bucket `k` holds exactly the overdue titles of its range, in their order, and their total under `f`. */
  predicate Holds(b: Bucket, late: seq<Late>, k: nat, f: Late -> int)
  {
    b.items == BucketItems(late, k) && b.total == Sum(b.items, f)
  }

  /** Bucket `k` has no items and the total under `f` of the overdue titles of its range. */
  predicate Totals(b: Bucket, late: seq<Late>, k: nat, f: Late -> int)
  {
    b.items == [] && b.total == Sum(BucketItems(late, k), f)
  }

  /** Bucket `k` after the title at `i`: that title is added iff it falls in the bucket's range. */
  lemma HoldsStep(late: seq<Late>, i: nat, k: nat, f: Late -> int, b: Bucket, next: Bucket)
    requires i < |late| && Holds(b, late[..i], k, f)
    requires next == if BucketOf(late[i].diasAtraso) == k then Bucket(b.total + f(late[i]), b.items + [late[i]]) else b
    ensures Holds(next, late[..i + 1], k, f)
  {
    BucketItemsStep(late, i, k, f);
  }

  /** Bucket `k` after the title at `i`, totals only. */
  lemma TotalsStep(late: seq<Late>, i: nat, k: nat, f: Late -> int, b: Bucket, next: Bucket)
    requires i < |late| && Totals(b, late[..i], k, f)
    requires next == if BucketOf(late[i].diasAtraso) == k then b.(total := b.total + f(late[i])) else b
    ensures Totals(next, late[..i + 1], k, f)
  {
    BucketItemsStep(late, i, k, f);
  }

  /**
   * The forEach of renderInadimplencia: every overdue receivable goes to the one
   * bucket of its days late, which adds its `saldoPendente`; the grand total
   * adds the four bucket totals, which is the total of every overdue title.
   */
  method DistributeInadimplencia(late: seq<Late>) returns (buckets: Buckets, grandTotal: int)
    ensures Holds(buckets.upTo30, late, 0, SaldoPendenteOf()) && Holds(buckets.upTo60, late, 1, SaldoPendenteOf())
    ensures Holds(buckets.upTo90, late, 2, SaldoPendenteOf()) && Holds(buckets.over90, late, 3, SaldoPendenteOf())
    ensures grandTotal == buckets.GrandTotal()
    ensures grandTotal == Sum(late, SaldoPendenteOf())
  {
    var b30, b60, b90, b91 := Bucket(0, []), Bucket(0, []), Bucket(0, []), Bucket(0, []);
    var i := 0;
    while i < |late|
      invariant 0 <= i <= |late|
      invariant Holds(b30, late[..i], 0, SaldoPendenteOf()) && Holds(b60, late[..i], 1, SaldoPendenteOf())
      invariant Holds(b90, late[..i], 2, SaldoPendenteOf()) && Holds(b91, late[..i], 3, SaldoPendenteOf())
    {
      var d := late[i];
      var saldo := d.title.saldoPendente;
      var n30, n60, n90, n91 := b30, b60, b90, b91;
      if d.diasAtraso <= 30 {
        n30 := Bucket(b30.total + saldo, b30.items + [d]);
      } else if d.diasAtraso <= 60 {
        n60 := Bucket(b60.total + saldo, b60.items + [d]);
      } else if d.diasAtraso <= 90 {
        n90 := Bucket(b90.total + saldo, b90.items + [d]);
      } else {
        n91 := Bucket(b91.total + saldo, b91.items + [d]);
      }
      HoldsStep(late, i, 0, SaldoPendenteOf(), b30, n30);
      HoldsStep(late, i, 1, SaldoPendenteOf(), b60, n60);
      HoldsStep(late, i, 2, SaldoPendenteOf(), b90, n90);
      HoldsStep(late, i, 3, SaldoPendenteOf(), b91, n91);
      b30, b60, b90, b91 := n30, n60, n90, n91;
      i := i + 1;
    }
    assert late[..|late|] == late;
    buckets := Buckets(b30, b60, b90, b91);
    grandTotal := b30.total + b60.total + b90.total + b91.total;
    BucketsPartitionSum(late, SaldoPendenteOf());
  }

  /**
   * The forEach of renderAnaliseAtraso: only the bucket totals of `valorSaldo`
   * are kept (no items), and the 'todos' bucket sums the four totals and lists
   * every overdue payable.
   */
  method DistributeAtraso(late: seq<Late>) returns (buckets: Buckets, todos: Bucket)
    ensures Totals(buckets.upTo30, late, 0, ValorSaldoOf()) && Totals(buckets.upTo60, late, 1, ValorSaldoOf())
    ensures Totals(buckets.upTo90, late, 2, ValorSaldoOf()) && Totals(buckets.over90, late, 3, ValorSaldoOf())
    ensures todos.total == buckets.GrandTotal() && todos.items == late
    ensures todos.total == Sum(late, ValorSaldoOf())
  {
    var b30, b60, b90, b91 := Bucket(0, []), Bucket(0, []), Bucket(0, []), Bucket(0, []);
    var i := 0;
    while i < |late|
      invariant 0 <= i <= |late|
      invariant Totals(b30, late[..i], 0, ValorSaldoOf()) && Totals(b60, late[..i], 1, ValorSaldoOf())
      invariant Totals(b90, late[..i], 2, ValorSaldoOf()) && Totals(b91, late[..i], 3, ValorSaldoOf())
    {
      var d := late[i];
      var saldo := d.title.valorSaldo;
      var n30, n60, n90, n91 := b30, b60, b90, b91;
      if d.diasAtraso <= 30 {
        n30 := b30.(total := b30.total + saldo);
      } else if d.diasAtraso <= 60 {
        n60 := b60.(total := b60.total + saldo);
      } else if d.diasAtraso <= 90 {
        n90 := b90.(total := b90.total + saldo);
      } else {
        n91 := b91.(total := b91.total + saldo);
      }
      TotalsStep(late, i, 0, ValorSaldoOf(), b30, n30);
      TotalsStep(late, i, 1, ValorSaldoOf(), b60, n60);
      TotalsStep(late, i, 2, ValorSaldoOf(), b90, n90);
      TotalsStep(late, i, 3, ValorSaldoOf(), b91, n91);
      b30, b60, b90, b91 := n30, n60, n90, n91;
      i := i + 1;
    }
    assert late[..|late|] == late;
    buckets := Buckets(b30, b60, b90, b91);
    todos := Bucket(b30.total + b60.total + b90.total + b91.total, late);
    BucketsPartitionSum(late, ValorSaldoOf());
  }

  /** Which rows of the overdue-payables table a clicked card shows. */
  predicate CardShows(card: string, diasAtraso: int)
  {
    if card == "todos" then true
    else if card == "30" then diasAtraso <= 30
    else if card == "60" then 30 < diasAtraso <= 60
    else if card == "91+" then diasAtraso > 60
    else false
  }

  /**
   * The cards of the payables aging: 'todos', '30', '60' and '91+'. The '90'
   * bucket has no card of its own, and the '91+' card shows the rows of both
   * the '90' and the '91+' buckets although its total is that of '91+' alone.
   */
  lemma CardRows(dias: int)
    ensures CardShows("todos", dias)
    ensures CardShows("30", dias) <==> BucketOf(dias) == 0
    ensures CardShows("60", dias) <==> BucketOf(dias) == 1
    ensures CardShows("91+", dias) <==> BucketOf(dias) == 2 || BucketOf(dias) == 3
  {
  }

  // ---------------------------------------------------------------------------
  // Monthly forecasts (renderPrevisaoDesembolsos, renderPrevisaoRecebimentos)
  // ---------------------------------------------------------------------------

  /**
   * The "YYYY-MM" key of a due date: the year and month of an ISO date, and
   * "NaN-NaN" for a date too short to parse.
   */
  function MonthKey(d: string): (k: string)
    ensures |d| >= 7 ==> k == d[..7]
    ensures |d| < 7 ==> k == "NaN-NaN"
  {
    if |d| >= 7 then d[..7] else "NaN-NaN"
  }

  /** Month keys are in the order of the dates: a later date never has an earlier month. */
  lemma MonthKeyMonotone(a: string, b: string)
    requires |a| >= 7 && |b| >= 7 && AtMost(a, b)
    ensures AtMost(MonthKey(a), MonthKey(b))
  {
    PrefixAtMost(a, b, 7);
  }

  datatype MonthGroup = MonthGroup(total: int, items: seq<Title>)

  /** The included titles whose due date falls in month `k`, in their order. */
  function MonthItems(dados: seq<Title>, due: Title -> string, counted: Title -> bool, k: string): seq<Title>
    decreases |dados|
  {
    if dados == [] then []
    else
      var t := dados[|dados| - 1];
      MonthItems(dados[..|dados| - 1], due, counted, k) + (if counted(t) && MonthKey(due(t)) == k then [t] else [])
  }

  /** The months of the included titles. */
  function Months(dados: seq<Title>, due: Title -> string, counted: Title -> bool): set<string>
    decreases |dados|
  {
    if dados == [] then {}
    else
      var t := dados[|dados| - 1];
      Months(dados[..|dados| - 1], due, counted) + (if counted(t) then {MonthKey(due(t))} else {})
  }

  /** A month is listed iff some included title is due in it, and it lists exactly those titles. */
  lemma {:induction false} MonthItemsMeaning(dados: seq<Title>, due: Title -> string, counted: Title -> bool, k: string)
    ensures k in Months(dados, due, counted) <==> exists t :: t in dados && counted(t) && MonthKey(due(t)) == k
    ensures forall t :: t in MonthItems(dados, due, counted, k) <==> t in dados && counted(t) && MonthKey(due(t)) == k
    decreases |dados|
  {
    if dados != [] {
      var init, t := dados[..|dados| - 1], dados[|dados| - 1];
      MonthItemsMeaning(init, due, counted, k);
      assert dados == init + [t];
      if counted(t) && MonthKey(due(t)) == k {
        assert t in dados;
      }
      assert forall u :: u in dados <==> u in init || u == t;
    }
  }

  lemma MonthItemsStep(dados: seq<Title>, i: nat, due: Title -> string, counted: Title -> bool, k: string)
    requires i < |dados|
    ensures MonthItems(dados[..i + 1], due, counted, k)
         == MonthItems(dados[..i], due, counted, k) + (if counted(dados[i]) && MonthKey(due(dados[i])) == k then [dados[i]] else [])
    ensures Months(dados[..i + 1], due, counted) == Months(dados[..i], due, counted) + (if counted(dados[i]) then {MonthKey(due(dados[i]))} else {})
  {
    assert dados[..i + 1][..i] == dados[..i];
  }

  /** A month not yet met has no titles. */
  lemma {:induction false} UnmetMonthIsEmpty(dados: seq<Title>, due: Title -> string, counted: Title -> bool, k: string)
    requires k !in Months(dados, due, counted)
    ensures MonthItems(dados, due, counted, k) == []
    decreases |dados|
  {
    if dados != [] {
      UnmetMonthIsEmpty(dados[..|dados| - 1], due, counted, k);
    }
  }

  /** The group of month `k`: present iff some included title is due in it, with those titles and their total. */
  predicate GroupOk(previsoes: map<string, MonthGroup>, dados: seq<Title>, due: Title -> string, saldo: Title -> int, counted: Title -> bool, k: string)
  {
    && (k in previsoes <==> k in Months(dados, due, counted))
    && (k in previsoes ==> previsoes[k].items == MonthItems(dados, due, counted, k))
    && (k in previsoes ==> previsoes[k].total == Sum(previsoes[k].items, saldo))
  }

  /** `previsoes` over the titles `dados`: one group per month met, with its titles and their total. */
  ghost predicate GroupsUpTo(previsoes: map<string, MonthGroup>, dados: seq<Title>, due: Title -> string, saldo: Title -> int, counted: Title -> bool)
  {
    forall k :: GroupOk(previsoes, dados, due, saldo, counted, k)
  }


  /** The groups after one more title: an included title joins the group of its month, opened empty when the month is new. */
  function Grouping(previsoes: map<string, MonthGroup>, d: Title, due: Title -> string, saldo: Title -> int, counted: Title -> bool): map<string, MonthGroup>
  {
    if counted(d) then
      var key := MonthKey(due(d));
      var prior := if key in previsoes then previsoes[key] else MonthGroup(0, []);
      previsoes[key := MonthGroup(prior.total + saldo(d), prior.items + [d])]
    else previsoes
  }

  /** The groups after the titles, taken one after the other. */
  function GroupAll(dados: seq<Title>, due: Title -> string, saldo: Title -> int, counted: Title -> bool): map<string, MonthGroup>
    decreases |dados|
  {
    if dados == [] then map[]
    else Grouping(GroupAll(dados[..|dados| - 1], due, saldo, counted), dados[|dados| - 1], due, saldo, counted)
  }

  /** What one more title does to the group of month `k`. */
  lemma GroupsStepAt(before: map<string, MonthGroup>, dados: seq<Title>, i: nat,
                     due: Title -> string, saldo: Title -> int, counted: Title -> bool, k: string)
    requires i < |dados| && GroupOk(before, dados[..i], due, saldo, counted, k)
    ensures GroupOk(Grouping(before, dados[i], due, saldo, counted), dados[..i + 1], due, saldo, counted, k)
  {
    MonthItemsStep(dados, i, due, counted, k);
    if counted(dados[i]) && k == MonthKey(due(dados[i])) {
      GroupsStepJoin(before, dados[..i], dados[i], due, saldo, counted);
    } else {
      var after := Grouping(before, dados[i], due, saldo, counted);
      assert k in after ==> after[k] == before[k];
    }
  }

  /** The group an included title joins: its items and total grow by the title. */
  lemma GroupsStepJoin(before: map<string, MonthGroup>, prefix: seq<Title>, d: Title,
                       due: Title -> string, saldo: Title -> int, counted: Title -> bool)
    requires counted(d) && GroupOk(before, prefix, due, saldo, counted, MonthKey(due(d)))
    ensures var key, after := MonthKey(due(d)), Grouping(before, d, due, saldo, counted);
      var prior := if key in before then before[key] else MonthGroup(0, []);
      && prior.items == MonthItems(prefix, due, counted, key)
      && after[key] == MonthGroup(prior.total + saldo(d), prior.items + [d])
      && after[key].total == Sum(after[key].items, saldo)
  {
    var key := MonthKey(due(d));
    var prior := if key in before then before[key] else MonthGroup(0, []);
    if key !in before {
      UnmetMonthIsEmpty(prefix, due, counted, key);
    }
    SumAppend(prior.items, [d], saldo);
    assert Sum([d], saldo) == saldo(d) by {
      assert [d][..0] == [];
    }
  }

  /** The title at `i` goes to the group of its month. */
  lemma GroupsStep(before: map<string, MonthGroup>, dados: seq<Title>, i: nat,
                   due: Title -> string, saldo: Title -> int, counted: Title -> bool)
    requires i < |dados| && GroupsUpTo(before, dados[..i], due, saldo, counted)
    ensures GroupsUpTo(Grouping(before, dados[i], due, saldo, counted), dados[..i + 1], due, saldo, counted)
  {
    var after, next := Grouping(before, dados[i], due, saldo, counted), dados[..i + 1];
    forall k
      ensures GroupOk(after, next, due, saldo, counted, k)
    {
      GroupsStepAt(before, dados, i, due, saldo, counted, k);
    }
  }

  /** Taking the titles in turn gives one group per month met, with its titles and their total. */
  lemma {:induction false} GroupAllMeaning(dados: seq<Title>, due: Title -> string, saldo: Title -> int, counted: Title -> bool)
    ensures GroupsUpTo(GroupAll(dados, due, saldo, counted), dados, due, saldo, counted)
    decreases |dados|
  {
    if dados != [] {
      var n := |dados| - 1;
      GroupAllMeaning(dados[..n], due, saldo, counted);
      GroupsStep(GroupAll(dados[..n], due, saldo, counted), dados, n, due, saldo, counted);
      assert dados[..n + 1] == dados;
    }
  }

  method AccumulateMonths(dados: seq<Title>, due: Title -> string, saldo: Title -> int, counted: Title -> bool)
    returns (previsoes: map<string, MonthGroup>, keys: seq<string>)
    ensures previsoes == GroupAll(dados, due, saldo, counted)
    ensures GroupsUpTo(previsoes, dados, due, saldo, counted)
    ensures NoDuplicates(keys) && forall k :: k in keys <==> k in previsoes
  {
    previsoes := map[];
    keys := [];
    var i := 0;
    while i < |dados|
      invariant 0 <= i <= |dados|
      invariant previsoes == GroupAll(dados[..i], due, saldo, counted)
      invariant NoDuplicates(keys) && forall k :: k in keys <==> k in previsoes
    {
      var d := dados[i];
      ghost var before := previsoes;
      var mesAno := MonthKey(due(d));
      if counted(d) {
        if mesAno !in previsoes {
          previsoes := previsoes[mesAno := MonthGroup(0, [])];
          keys := keys + [mesAno];
        }
        var group := previsoes[mesAno];
        previsoes := previsoes[mesAno := MonthGroup(group.total + saldo(d), group.items + [d])];
      }
      assert dados[..i + 1][..i] == dados[..i];
      assert previsoes == Grouping(before, d, due, saldo, counted);
      i := i + 1;
    }
    assert dados[..|dados|] == dados;
    GroupAllMeaning(dados, due, saldo, counted);
  }
  /**
   * The forEach of the forecasts: each counted title adds its amount to the
   * group of its month; the months are then listed in increasing order.
   */
  method GroupByMonth(dados: seq<Title>, due: Title -> string, saldo: Title -> int, counted: Title -> bool)
    returns (previsoes: map<string, MonthGroup>, meses: seq<string>)
    ensures GroupsUpTo(previsoes, dados, due, saldo, counted)
    ensures forall k :: k in meses <==> k in previsoes
    ensures forall i, j :: 0 <= i < j < |meses| ==> Less(meses[i], meses[j])
  {
    var keys;
    previsoes, keys := AccumulateMonths(dados, due, saldo, counted);
    StringOrderIsTotalPreorder();
    meses := Sort(keys, StringLe());
    NoDuplicatesPermutation(keys, meses);
    SortedDistinctIsIncreasing(meses);
    forall k ensures k in meses <==> k in keys {
      assert k in meses <==> k in multiset(meses);
      assert k in keys <==> k in multiset(keys);
    }
  }


  function Always(): Title -> bool
  {
    (t: Title) => true
  }

  function ValorSaldoOfTitle(): Title -> int
  {
    (t: Title) => t.valorSaldo
  }

  function SaldoPendenteOfTitle(): Title -> int
  {
    (t: Title) => t.saldoPendente
  }

  /** renderPrevisaoDesembolsos: every payable it is given, grouped by the month of `vencimento`. */
  method PrevisaoDesembolsos(dados: seq<Title>) returns (previsoes: map<string, MonthGroup>, meses: seq<string>)
    ensures GroupsUpTo(previsoes, dados, PayableDue(), ValorSaldoOfTitle(), Always())
    ensures forall k :: k in meses <==> k in previsoes
    ensures forall i, j :: 0 <= i < j < |meses| ==> Less(meses[i], meses[j])
  {
    previsoes, meses := GroupByMonth(dados, PayableDue(), ValorSaldoOfTitle(), Always());
  }

  /** The clock reading `new Date()`: today's date and the milliseconds since midnight. */
  datatype Instant = Instant(date: string, msOfDay: nat)

  /**
   * The receivables forecast's test as written: midnight of the due date is
   * compared with the current instant, so a title due today passes only at
   * exactly midnight.
   */
  predicate DueNotBeforeNowAsWritten(due: string, now: Instant)
  {
    Present(due) && (Less(now.date, due) || (due == now.date && now.msOfDay == 0))
  }

  /** The intended test: due today or later, as the aging report counts every earlier date as overdue. */
  predicate DueFromToday(due: string, hoje: string)
  {
    Present(due) && AtMost(hoje, due)
  }

  /**
   * As written, a receivable due today after midnight is in neither report: it
   * is not overdue (its date is not before today) and not in the forecast.
   */
  lemma ForecastAsWrittenSkipsDueToday(t: Title, now: Instant)
    requires Present(now.date) && t.dataVencimento == now.date && now.msOfDay > 0
    ensures !DueNotBeforeNowAsWritten(t.dataVencimento, now)
    ensures !DueBefore(t.dataVencimento, now.date)
  {
    LessIrreflexive(now.date);
  }

  /** With the intended test, every dated receivable is either overdue or in the forecast, never both. */
  lemma ForecastAndAgingPartition(due: string, hoje: string)
    requires Present(due)
    ensures DueBefore(due, hoje) != DueFromToday(due, hoje)
  {
    AtMostIsLessOrEqual(hoje, due);
    LessAsymmetric(due, hoje);
    LessIrreflexive(due);
    LessTotal(due, hoje);
  }

  function ReceivableDueFrom(hoje: string): Title -> bool
  {
    (t: Title) => DueFromToday(t.dataVencimento, hoje)
  }

  /**
   * renderPrevisaoRecebimentos, corrected: the receivables due today or later,
   * grouped by the month of `dataVencimento`. The source compares the due date
   * with the current instant (`DueNotBeforeNowAsWritten`), which drops titles
   * due today once the day has begun; this uses today's date instead.
   */
  method PrevisaoRecebimentos(dados: seq<Title>, hoje: string) returns (previsoes: map<string, MonthGroup>, meses: seq<string>)
    ensures GroupsUpTo(previsoes, dados, ReceivableDue(), SaldoPendenteOfTitle(), ReceivableDueFrom(hoje))
    ensures forall k :: k in meses <==> k in previsoes
    ensures forall i, j :: 0 <= i < j < |meses| ==> Less(meses[i], meses[j])
  {
    previsoes, meses := GroupByMonth(dados, ReceivableDue(), SaldoPendenteOfTitle(), ReceivableDueFrom(hoje));
  }

  // ---------------------------------------------------------------------------
  // buildCashFlowTree: the chart-of-accounts roll-up
  // ---------------------------------------------------------------------------

  /** A node of the tree: the account, the codes of its children, its total and its lançamentos. */
  datatype Node = Node(conta: PlanoDeContas, children: seq<string>, total: int, items: seq<Title>)

  /** The codes of the accounts in the order they are first met. */
  function CodesInOrder(planos: seq<PlanoDeContas>): seq<string>
    decreases |planos|
  {
    if planos == [] then []
    else
      var init := CodesInOrder(planos[..|planos| - 1]);
      var c := planos[|planos| - 1].codigo;
      init + (if c in init then [] else [c])
  }

  /** The account a code ends up holding: the last one with that code. */
  function LastWithCode(planos: seq<PlanoDeContas>, c: string): Option<PlanoDeContas>
    decreases |planos|
  {
    if planos == [] then None
    else if planos[|planos| - 1].codigo == c then Some(planos[|planos| - 1])
    else LastWithCode(planos[..|planos| - 1], c)
  }

  /** The nodes of the accounts before any lançamento: one per code, the later account winning. */
  ghost predicate Initialised(tree: map<string, Node>, keys: seq<string>, planos: seq<PlanoDeContas>)
  {
    && keys == CodesInOrder(planos)
    && (forall c :: c in tree <==> c in keys)
    && (forall c :: c in tree ==> LastWithCode(planos, c).Some? && tree[c] == Node(LastWithCode(planos, c).value, [], 0, []))
  }

  /** The codes in order are the distinct codes of the accounts. */
  lemma {:induction false} CodesInOrderMeaning(planos: seq<PlanoDeContas>)
    ensures NoDuplicates(CodesInOrder(planos))
    ensures forall c :: c in CodesInOrder(planos) <==> LastWithCode(planos, c).Some?
    ensures forall c :: LastWithCode(planos, c).Some? ==> LastWithCode(planos, c).value in planos && LastWithCode(planos, c).value.codigo == c
    decreases |planos|
  {
    if planos != [] {
      var init := planos[..|planos| - 1];
      CodesInOrderMeaning(init);
      assert forall p :: p in init ==> p in planos;
    }
  }

  /** The first forEach: a node for every account. */
  method InitTree(planos: seq<PlanoDeContas>) returns (tree: map<string, Node>, keys: seq<string>)
    ensures Initialised(tree, keys, planos)
  {
    tree := map[];
    keys := [];
    var i := 0;
    while i < |planos|
      invariant 0 <= i <= |planos|
      invariant Initialised(tree, keys, planos[..i])
    {
      var conta := planos[i];
      assert planos[..i + 1][..i] == planos[..i];
      CodesInOrderMeaning(planos[..i]);
      if conta.codigo !in tree {
        keys := keys + [conta.codigo];
      }
      tree := tree[conta.codigo := Node(conta, [], 0, [])];
      i := i + 1;
    }
    assert planos[..|planos|] == planos;
  }

  predicate IsDigit(ch: char)
  {
    '0' <= ch <= '9'
  }

  /** The number a string of decimal digits denotes. */
  function DigitsValue(s: string): nat
    decreases |s|
  {
    if s == [] then 0
    else DigitsValue(s[..|s| - 1]) * 10 + (if IsDigit(s[|s| - 1]) then s[|s| - 1] as int - '0' as int else 0)
  }

  /**
   * An array index in JavaScript's sense: the canonical decimal form (no sign,
   * no leading zero) of an integer below 2^32 - 1, such as "1" or "20" but not
   * "01" or "1.1". Objects list these keys before all others.
   */
  predicate IsIndexKey(s: string)
  {
    && |s| > 0
    && (forall i :: 0 <= i < |s| ==> IsDigit(s[i]))
    && (s[0] != '0' || |s| == 1)
    && DigitsValue(s) < 4294967295
  }

  function IndexKey(): string -> bool
  {
    (s: string) => IsIndexKey(s)
  }

  function OtherKey(): string -> bool
  {
    (s: string) => !IsIndexKey(s)
  }

  /** Ascending numeric order of the array-index keys. */
  function ByIndexValue(): (string, string) -> bool
  {
    (a: string, b: string) => DigitsValue(a) <= DigitsValue(b)
  }

  lemma ByIndexValueIsTotalPreorder()
    ensures TotalPreorder(ByIndexValue())
  {
  }

  /**
   * The order in which `Object.keys` and `Object.values` list the properties of
   * an object whose keys were created in the order `keys`: the array-index keys
   * first, in ascending numeric order, then the other keys in creation order.
   * Assigning to an existing key does not move it.
   */
  function ObjectKeyOrder(keys: seq<string>): (r: seq<string>)
    ensures multiset(r) == multiset(keys)
  {
    ByIndexValueIsTotalPreorder();
    KeepPartition(keys, IndexKey(), OtherKey());
    Sort(Keep(keys, IndexKey()), ByIndexValue()) + Keep(keys, OtherKey())
  }

  /** The listing puts the array indices first, in ascending order, and keeps the other keys' creation order. */
  lemma ObjectKeyOrderMeaning(keys: seq<string>)
    ensures var r := ObjectKeyOrder(keys);
      && (forall i, j :: 0 <= i < j < |r| && IsIndexKey(r[j]) ==> IsIndexKey(r[i]))
      && (forall i, j :: 0 <= i < j < |r| && IsIndexKey(r[i]) && IsIndexKey(r[j]) ==> DigitsValue(r[i]) <= DigitsValue(r[j]))
      && Keep(r, OtherKey()) == Keep(keys, OtherKey())
  {
    ByIndexValueIsTotalPreorder();
    var indices := Sort(Keep(keys, IndexKey()), ByIndexValue());
    var others := Keep(keys, OtherKey());
    KeepPartition(keys, IndexKey(), OtherKey());
    KeyGroups(keys, indices, others);
    KeyLayout(indices, others);
  }

  /** Codes "2", "1", "1.1" created in that order are listed "1", "2", "1.1". */
  lemma ObjectKeyOrderExample()
    ensures ObjectKeyOrder(["2", "1", "1.1"]) == ["1", "2", "1.1"]
  {
    ExampleKeys();
    ExampleGroups();
    ExampleSort();
  }

  lemma ExampleKeys()
    ensures IsIndexKey("2") && IsIndexKey("1") && !IsIndexKey("1.1")
    ensures DigitsValue("1") == 1 && DigitsValue("2") == 2
  {
    assert "1"[..0] == [] && "2"[..0] == [];
    assert !IsDigit("1.1"[1]);
  }

  lemma ExampleGroups()
    requires IsIndexKey("2") && IsIndexKey("1") && !IsIndexKey("1.1")
    ensures Keep(["2", "1", "1.1"], IndexKey()) == ["2", "1"]
    ensures Keep(["2", "1", "1.1"], OtherKey()) == ["1.1"]
  {
    assert [] + ["2"] == ["2"] && ["2"] + ["1"] == ["2", "1"] && ["2", "1"] + ["1.1"] == ["2", "1", "1.1"];
    ExampleKeep(IndexKey());
    ExampleKeep(OtherKey());
  }

  lemma ExampleKeep(p: string -> bool)
    ensures Keep(["2", "1", "1.1"], p)
         == (if p("2") then ["2"] else []) + (if p("1") then ["1"] else []) + (if p("1.1") then ["1.1"] else [])
  {
    assert [] + ["2"] == ["2"] && ["2"] + ["1"] == ["2", "1"] && ["2", "1"] + ["1.1"] == ["2", "1", "1.1"];
    KeepSnoc([], "2", p);
    KeepSnoc(["2"], "1", p);
    KeepSnoc(["2", "1"], "1.1", p);
  }

  lemma ExampleSort()
    requires DigitsValue("1") == 1 && DigitsValue("2") == 2
    ensures TotalPreorder(ByIndexValue()) && Sort(["2", "1"], ByIndexValue()) == ["1", "2"]
  {
    ByIndexValueIsTotalPreorder();
    assert ["2", "1"][1..] == ["1"] && ["1"][1..] == [];
    assert Sort(["1"], ByIndexValue()) == ["1"];
  }

  /** Without array-index keys the listing order is the creation order. */
  lemma ObjectKeyOrderWithoutIndices(keys: seq<string>)
    requires forall k :: k in keys ==> !IsIndexKey(k)
    ensures ObjectKeyOrder(keys) == keys
  {
    var r := ObjectKeyOrder(keys);
    ObjectKeyOrderMeaning(keys);
    forall k | k in r ensures !IsIndexKey(k) {
      assert k in multiset(keys);
    }
    KeepIsFilter(r, OtherKey());
    KeepIsFilter(keys, OtherKey());
  }

  /** The two groups of keys: the sorted array indices and the others. */
  lemma KeyGroups(keys: seq<string>, indices: seq<string>, others: seq<string>)
    requires multiset(indices) == multiset(Keep(keys, IndexKey()))
    requires others == Keep(keys, OtherKey())
    ensures forall x :: x in indices ==> IsIndexKey(x)
    ensures forall x :: x in others ==> !IsIndexKey(x)
  {
    KeepMember(keys, IndexKey());
    KeepMember(keys, OtherKey());
    forall x | x in indices ensures IsIndexKey(x) {
      assert x in multiset(Keep(keys, IndexKey()));
      assert x in Keep(keys, IndexKey());
      assert IndexKey()(x);
    }
  }

  /** Array indices in ascending order, then the other keys. */
  lemma KeyLayout(indices: seq<string>, others: seq<string>)
    requires forall x :: x in indices ==> IsIndexKey(x)
    requires forall x :: x in others ==> !IsIndexKey(x)
    requires SortedBy(indices, ByIndexValue())
    ensures var r := indices + others;
      && (forall i, j :: 0 <= i < j < |r| && IsIndexKey(r[j]) ==> IsIndexKey(r[i]))
      && (forall i, j :: 0 <= i < j < |r| && IsIndexKey(r[i]) && IsIndexKey(r[j]) ==> DigitsValue(r[i]) <= DigitsValue(r[j]))
      && Keep(r, OtherKey()) == others
  {
    var r := indices + others;
    forall i, j | 0 <= i < j < |r| && IsIndexKey(r[j])
      ensures IsIndexKey(r[i])
    {
      assert r[i] in indices;
    }
    forall i, j | 0 <= i < j < |r| && IsIndexKey(r[i]) && IsIndexKey(r[j])
      ensures DigitsValue(r[i]) <= DigitsValue(r[j])
    {
      assert ByIndexValue()(indices[i], indices[j]);
    }
    KeepAppend(indices, others, OtherKey());
    KeepNone(indices, OtherKey());
    KeepIsFilter(others, OtherKey());
  }

  /** The amount a lançamento adds to its account: `valorOriginal || valor || 0`. */
  function LancamentoValor(): Title -> int
  {
    (l: Title) => Or(l.valorOriginal, l.valor)
  }

  /** The lançamentos booked to code `c`, in their order. */
  function OwnItems(lancamentos: seq<Title>, c: string): seq<Title>
    decreases |lancamentos|
  {
    if lancamentos == [] then []
    else
      var l := lancamentos[|lancamentos| - 1];
      OwnItems(lancamentos[..|lancamentos| - 1], c) + (if l.codigoPlanoDeContas == Some(c) then [l] else [])
  }

  /** The lançamentos of a code are exactly those whose `codigoPlanoDeContas` is that code. */
  lemma {:induction false} OwnItemsMeaning(lancamentos: seq<Title>, c: string)
    ensures forall l :: l in OwnItems(lancamentos, c) <==> l in lancamentos && l.codigoPlanoDeContas == Some(c)
    decreases |lancamentos|
  {
    if lancamentos != [] {
      var init := lancamentos[..|lancamentos| - 1];
      OwnItemsMeaning(init, c);
      assert lancamentos == init + [lancamentos[|lancamentos| - 1]];
    }
  }

  /** Every node of `tree0` with its own lançamentos and their total, over the first lançamentos. */
  ghost predicate Posted(tree: map<string, Node>, tree0: map<string, Node>, lancamentos: seq<Title>)
  {
    && (forall c :: c in tree <==> c in tree0)
    && (forall c :: c in tree ==> tree[c].conta == tree0[c].conta && tree[c].children == tree0[c].children)
    && (forall c :: c in tree ==> tree[c].items == tree0[c].items + OwnItems(lancamentos, c))
    && (forall c :: c in tree ==> tree[c].total == tree0[c].total + Sum(OwnItems(lancamentos, c), LancamentoValor()))
  }

  lemma OwnItemsStep(lancamentos: seq<Title>, i: nat, c: string)
    requires i < |lancamentos|
    ensures OwnItems(lancamentos[..i + 1], c)
         == OwnItems(lancamentos[..i], c) + (if lancamentos[i].codigoPlanoDeContas == Some(c) then [lancamentos[i]] else [])
    ensures Sum(OwnItems(lancamentos[..i + 1], c), LancamentoValor())
         == Sum(OwnItems(lancamentos[..i], c), LancamentoValor())
            + (if lancamentos[i].codigoPlanoDeContas == Some(c) then Or(lancamentos[i].valorOriginal, lancamentos[i].valor) else 0)
  {
    var l := lancamentos[i];
    assert lancamentos[..i + 1][..i] == lancamentos[..i];
    var extra := if l.codigoPlanoDeContas == Some(c) then [l] else [];
    SumAppend(OwnItems(lancamentos[..i], c), extra, LancamentoValor());
    assert Sum([l], LancamentoValor()) == Or(l.valorOriginal, l.valor) by {
      assert [l][..0] == [];
    }
  }

  /** One lançamento posted to node `c`: it joins the node only when it carries that code. */
  predicate PostedOne(node: Node, next: Node, l: Title, c: string)
  {
    && next.conta == node.conta && next.children == node.children
    && next.items == node.items + (if l.codigoPlanoDeContas == Some(c) then [l] else [])
    && next.total == node.total + (if l.codigoPlanoDeContas == Some(c) then Or(l.valorOriginal, l.valor) else 0)
  }

  /** The tree after one lançamento: it joins its node, if its code is one. */
  function Posting(tree: map<string, Node>, l: Title): map<string, Node>
  {
    var code := l.codigoPlanoDeContas;
    if code.Some? && code.value in tree
    then tree[code.value := tree[code.value].(items := tree[code.value].items + [l], total := tree[code.value].total + Or(l.valorOriginal, l.valor))]
    else tree
  }

  lemma PostingAt(tree: map<string, Node>, l: Title)
    ensures forall c :: c in Posting(tree, l) <==> c in tree
    ensures forall c :: c in tree ==> PostedOne(tree[c], Posting(tree, l)[c], l, c)
  {
  }

  lemma PostStepAt(node: Node, next: Node, node0: Node, lancamentos: seq<Title>, i: nat, c: string)
    requires i < |lancamentos| && PostedOne(node, next, lancamentos[i], c)
    requires node.items == node0.items + OwnItems(lancamentos[..i], c)
    requires node.total == node0.total + Sum(OwnItems(lancamentos[..i], c), LancamentoValor())
    ensures next.items == node0.items + OwnItems(lancamentos[..i + 1], c)
    ensures next.total == node0.total + Sum(OwnItems(lancamentos[..i + 1], c), LancamentoValor())
  {
    OwnItemsStep(lancamentos, i, c);
  }

  lemma PostStep(tree: map<string, Node>, tree0: map<string, Node>, lancamentos: seq<Title>, i: nat)
    requires i < |lancamentos| && Posted(tree, tree0, lancamentos[..i])
    ensures Posted(Posting(tree, lancamentos[i]), tree0, lancamentos[..i + 1])
  {
    var next := Posting(tree, lancamentos[i]);
    PostingAt(tree, lancamentos[i]);
    forall c | c in tree
      ensures next[c].items == tree0[c].items + OwnItems(lancamentos[..i + 1], c)
      ensures next[c].total == tree0[c].total + Sum(OwnItems(lancamentos[..i + 1], c), LancamentoValor())
    {
      PostStepAt(tree[c], next[c], tree0[c], lancamentos, i, c);
    }
  }

  /** The tree after the lançamentos, posted one after the other. */
  function PostAll(tree0: map<string, Node>, lancamentos: seq<Title>): map<string, Node>
    decreases |lancamentos|
  {
    if lancamentos == [] then tree0
    else Posting(PostAll(tree0, lancamentos[..|lancamentos| - 1]), lancamentos[|lancamentos| - 1])
  }

  /** Posting the lançamentos in turn gives every node its own lançamentos and their total. */
  lemma {:induction false} PostAllMeaning(tree0: map<string, Node>, lancamentos: seq<Title>)
    ensures Posted(PostAll(tree0, lancamentos), tree0, lancamentos)
    decreases |lancamentos|
  {
    if lancamentos == [] {
      assert forall c :: OwnItems([], c) == [];
    } else {
      var n := |lancamentos| - 1;
      PostAllMeaning(tree0, lancamentos[..n]);
      PostStep(PostAll(tree0, lancamentos[..n]), tree0, lancamentos, n);
      assert lancamentos[..n + 1] == lancamentos;
    }
  }

  /** The second forEach: every lançamento with a known code joins that node and adds to its total. */
  method PostLancamentos(tree0: map<string, Node>, lancamentos: seq<Title>) returns (tree: map<string, Node>)
    ensures tree == PostAll(tree0, lancamentos)
    ensures Posted(tree, tree0, lancamentos)
  {
    tree := tree0;
    var i := 0;
    while i < |lancamentos|
      invariant 0 <= i <= |lancamentos|
      invariant tree == PostAll(tree0, lancamentos[..i])
    {
      var lancamento := lancamentos[i];
      var codigo := lancamento.codigoPlanoDeContas;
      ghost var before := tree;
      if codigo.Some? && codigo.value in tree {
        var valor := Or(lancamento.valorOriginal, lancamento.valor);
        tree := tree[codigo.value := tree[codigo.value].(items := tree[codigo.value].items + [lancamento], total := tree[codigo.value].total + valor)];
      }
      assert lancamentos[..i + 1][..i] == lancamentos[..i];
      assert tree == Posting(before, lancamento);
      i := i + 1;
    }
    assert lancamentos[..|lancamentos|] == lancamentos;
    PostAllMeaning(tree0, lancamentos);
  }

  /** The comparator `(a, b) => b.length - a.length`: longer codes first. */
  function LongerFirst(): (string, string) -> bool
  {
    (a: string, b: string) => |b| <= |a|
  }

  lemma LongerFirstIsTotalPreorder()
    ensures TotalPreorder(LongerFirst())
  {
  }

  /** The node's parent is a node of the tree (`node.codigoPai && tree[node.codigoPai]`). */
  predicate HasParentIn(tree: map<string, Node>, c: string)
  {
    c in tree && Present(tree[c].conta.codigoPai) && tree[c].conta.codigoPai in tree
  }

  /** `c` is a child of `p`: its parent code is `p` and `p` is in the tree. */
  function IsChildOf(tree: map<string, Node>, p: string): string -> bool
  {
    (c: string) => HasParentIn(tree, c) && tree[c].conta.codigoPai == p
  }

  function TotalIn(tree: map<string, Node>): string -> int
  {
    (c: string) => if c in tree then tree[c].total else 0
  }

  /** What a node contributes to the total of `p`: its total if it is a child of `p`. */
  function ChildTerm(tree: map<string, Node>, p: string): string -> int
  {
    (c: string) => if IsChildOf(tree, p)(c) then TotalIn(tree)(c) else 0
  }

  /** Every child code is longer than its parent's: the roll-up then sees every child before its parent. */
  ghost predicate ChildrenLonger(tree: map<string, Node>)
  {
    forall c :: HasParentIn(tree, c) ==> |tree[c].conta.codigoPai| < |c|
  }

  /** The same nodes with the same accounts, lançamentos and children: only totals differ. */
  ghost predicate SameShape(tree: map<string, Node>, tree0: map<string, Node>)
  {
    && (forall c :: c in tree <==> c in tree0)
    && (forall c :: c in tree ==> tree[c].conta == tree0[c].conta && tree[c].children == tree0[c].children && tree[c].items == tree0[c].items)
  }

  /** After the first `i` codes of the roll-up, each node holds its own total plus its rolled-up children so far. */
  ghost predicate RolledUpTo(tree: map<string, Node>, tree0: map<string, Node>, sorted: seq<string>, i: nat)
    requires i <= |sorted|
  {
    forall c :: c in tree && c in tree0 ==> tree[c].total == tree0[c].total + Sum(sorted[..i], ChildTerm(tree, c))
  }

  /** The tree after one node of the roll-up adds its total to its parent's. */
  function AddedToParent(tree: map<string, Node>, c: string): map<string, Node>
  {
    if HasParentIn(tree, c)
    then tree[tree[c].conta.codigoPai := tree[tree[c].conta.codigoPai].(total := tree[tree[c].conta.codigoPai].total + tree[c].total)]
    else tree
  }

  lemma AddedToParentShape(tree: map<string, Node>, tree0: map<string, Node>, c: string)
    requires SameShape(tree, tree0)
    ensures SameShape(AddedToParent(tree, c), tree0)
  {
  }

  /** A node rolled up later than `x` has a shorter code, so it cannot be `x`'s parent: `x`'s term is untouched. */
  lemma EarlierTermUnchanged(tree: map<string, Node>, tree0: map<string, Node>, sorted: seq<string>, i: nat, j: nat, c: string)
    requires j < i < |sorted|
    requires SameShape(tree, tree0) && ChildrenLonger(tree0)
    requires SortedBy(sorted, LongerFirst())
    ensures ChildTerm(AddedToParent(tree, sorted[i]), c)(sorted[j]) == ChildTerm(tree, c)(sorted[j])
  {
    var e, x := sorted[i], sorted[j];
    var next := AddedToParent(tree, e);
    assert LongerFirst()(sorted[j], sorted[i]);
    if HasParentIn(tree, e) {
      assert HasParentIn(tree0, e);
      assert x != tree[e].conta.codigoPai;
      assert x in tree ==> next[x] == tree[x];
    }
    assert IsChildOf(next, c)(x) == IsChildOf(tree, c)(x);
    assert TotalIn(next)(x) == TotalIn(tree)(x);
  }

  /** The node rolled up adds its total to its parent and to no other node. */
  lemma RolledNodeTotal(tree: map<string, Node>, tree0: map<string, Node>, e: string, c: string)
    requires e in tree && c in tree
    requires SameShape(tree, tree0) && ChildrenLonger(tree0)
    ensures c in AddedToParent(tree, e)
    ensures AddedToParent(tree, e)[c].total == tree[c].total + ChildTerm(AddedToParent(tree, e), c)(e)
  {
    var next := AddedToParent(tree, e);
    if HasParentIn(tree, e) {
      var p := tree[e].conta.codigoPai;
      assert HasParentIn(tree0, e);
      assert next[e] == tree[e];
      assert HasParentIn(next, e);
      assert IsChildOf(next, c)(e) == (c == p);
      assert TotalIn(next)(e) == tree[e].total;
    } else {
      assert !HasParentIn(next, e);
      assert !IsChildOf(next, c)(e);
    }
  }

  lemma RollUpStep(tree: map<string, Node>, next: map<string, Node>, tree0: map<string, Node>, sorted: seq<string>, i: nat)
    requires i < |sorted| && sorted[i] in tree
    requires SameShape(tree, tree0) && ChildrenLonger(tree0)
    requires SortedBy(sorted, LongerFirst())
    requires RolledUpTo(tree, tree0, sorted, i)
    requires next == AddedToParent(tree, sorted[i])
    ensures RolledUpTo(next, tree0, sorted, i + 1)
  {
    var e := sorted[i];
    assert sorted[..i + 1][..i] == sorted[..i];
    AddedToParentShape(tree, tree0, e);
    forall c | c in next && c in tree0
      ensures next[c].total == tree0[c].total + Sum(sorted[..i + 1], ChildTerm(next, c))
    {
      forall x | x in sorted[..i]
        ensures ChildTerm(next, c)(x) == ChildTerm(tree, c)(x)
      {
        var j :| 0 <= j < i && sorted[..i][j] == x;
        EarlierTermUnchanged(tree, tree0, sorted, i, j, c);
      }
      SumCongruent(sorted[..i], ChildTerm(next, c), ChildTerm(tree, c));
      RolledNodeTotal(tree, tree0, e, c);
    }
  }



  /** The roll-up over the codes in turn. */
  function RollAll(tree0: map<string, Node>, sorted: seq<string>): map<string, Node>
    decreases |sorted|
  {
    if sorted == [] then tree0
    else AddedToParent(RollAll(tree0, sorted[..|sorted| - 1]), sorted[|sorted| - 1])
  }

  /**
   * The roll-up keeps every node's account, lançamentos and children; when every
   * child code is longer than its parent's, it leaves each node with its own
   * total plus the totals of its children that come among the codes rolled up.
   */
  lemma {:induction false} RollAllMeaning(tree0: map<string, Node>, sorted: seq<string>, i: nat)
    requires i <= |sorted|
    requires forall j :: 0 <= j < |sorted| ==> sorted[j] in tree0
    requires SortedBy(sorted, LongerFirst())
    ensures SameShape(RollAll(tree0, sorted[..i]), tree0)
    ensures ChildrenLonger(tree0) ==> RolledUpTo(RollAll(tree0, sorted[..i]), tree0, sorted, i)
  {
    if i == 0 {
      assert sorted[..0] == [];
      forall c | c in tree0
        ensures Sum(sorted[..0], ChildTerm(tree0, c)) == 0
      {
      }
    } else {
      RollAllMeaning(tree0, sorted, i - 1);
      var tree := RollAll(tree0, sorted[..i - 1]);
      assert sorted[..i][..i - 1] == sorted[..i - 1];
      assert RollAll(tree0, sorted[..i]) == AddedToParent(tree, sorted[i - 1]);
      AddedToParentShape(tree, tree0, sorted[i - 1]);
      if ChildrenLonger(tree0) {
        RollUpStep(tree, AddedToParent(tree, sorted[i - 1]), tree0, sorted, i - 1);
      }
    }
  }

  /**
   * The third forEach, over the codes longest first: each node whose parent is
   * in the tree adds its total, as accumulated so far, to its parent. When every
   * child code is longer than its parent's, each node's total ends as its own
   * total plus the final totals of its children.
   */
  method RollUp(tree0: map<string, Node>, sorted: seq<string>) returns (tree: map<string, Node>)
    requires forall i :: 0 <= i < |sorted| ==> sorted[i] in tree0
    requires SortedBy(sorted, LongerFirst())
    ensures tree == RollAll(tree0, sorted)
    ensures SameShape(tree, tree0)
    ensures ChildrenLonger(tree0) ==> RolledUpTo(tree, tree0, sorted, |sorted|)
  {
    tree := tree0;
    var i := 0;
    while i < |sorted|
      invariant 0 <= i <= |sorted|
      invariant tree == RollAll(tree0, sorted[..i])
    {
      var codigo := sorted[i];
      ghost var before := tree;
      if codigo in tree {
        var node := tree[codigo];
        if Present(node.conta.codigoPai) && node.conta.codigoPai in tree {
          tree := tree[node.conta.codigoPai := tree[node.conta.codigoPai].(total := tree[node.conta.codigoPai].total + node.total)];
        }
      }
      assert sorted[..i + 1][..i] == sorted[..i];
      assert tree == AddedToParent(before, codigo);
      i := i + 1;
    }
    assert sorted[..|sorted|] == sorted;
    RollAllMeaning(tree0, sorted, |sorted|);
  }


  /** The node has no parent code at all: it is a root. */
  function IsRootIn(tree: map<string, Node>): string -> bool
  {
    (c: string) => c in tree && !Present(tree[c].conta.codigoPai)
  }

  /** The same codes with the same accounts: which node is whose child is the same in both. */
  ghost predicate SameAccounts(tree: map<string, Node>, tree0: map<string, Node>)
  {
    && (forall c :: c in tree <==> c in tree0)
    && (forall c :: c in tree ==> tree[c].conta == tree0[c].conta)
  }

  lemma SameAccountsHierarchy(tree: map<string, Node>, tree0: map<string, Node>)
    requires SameAccounts(tree, tree0)
    ensures forall c :: HasParentIn(tree, c) == HasParentIn(tree0, c)
    ensures forall c, p :: IsChildOf(tree, p)(c) == IsChildOf(tree0, p)(c)
    ensures forall c :: IsRootIn(tree)(c) == IsRootIn(tree0)(c)
    ensures ChildrenLonger(tree) == ChildrenLonger(tree0)
  {
  }

  /** One node of the last forEach: it joins its parent's children, or the roots when it has no parent code. */
  function Linking(state: (map<string, Node>, seq<string>), c: string): (map<string, Node>, seq<string>)
  {
    var (tree, roots) := state;
    if HasParentIn(tree, c)
    then (tree[tree[c].conta.codigoPai := tree[tree[c].conta.codigoPai].(children := tree[tree[c].conta.codigoPai].children + [c])], roots)
    else if c in tree && !Present(tree[c].conta.codigoPai) then (tree, roots + [c])
    else (tree, roots)
  }

  /** The last forEach over the codes in turn, from the given tree and no roots. */
  function LinkAll(tree0: map<string, Node>, keys: seq<string>): (map<string, Node>, seq<string>)
    decreases |keys|
  {
    if keys == [] then (tree0, [])
    else Linking(LinkAll(tree0, keys[..|keys| - 1]), keys[|keys| - 1])
  }

  /** The result of linking the codes `keys` in turn: each node lists its children, the roots are the nodes without a parent code. */
  ghost predicate Linked(state: (map<string, Node>, seq<string>), tree0: map<string, Node>, keys: seq<string>)
  {
    var (tree, roots) := state;
    && SameAccounts(tree, tree0)
    && (forall c :: c in tree ==> tree[c].total == tree0[c].total && tree[c].items == tree0[c].items)
    && (forall c :: c in tree ==> tree[c].children == tree0[c].children + Keep(keys, IsChildOf(tree0, c)))
    && roots == Keep(keys, IsRootIn(tree0))
  }

  /** `tree` and `tree0` agree on whether `x` is a code and on its account. */
  predicate AgreesOn(tree: map<string, Node>, tree0: map<string, Node>, x: string)
  {
    (x in tree <==> x in tree0) && (x in tree ==> tree[x].conta == tree0[x].conta)
  }

  /** What one node of the linking does to node `c`. */
  lemma LinkingAt(state: (map<string, Node>, seq<string>), tree0: map<string, Node>, e: string, c: string)
    requires c in state.0 && AgreesOn(state.0, tree0, c) && AgreesOn(state.0, tree0, e)
    requires e in tree0 ==> AgreesOn(state.0, tree0, tree0[e].conta.codigoPai)
    ensures var next := Linking(state, e).0;
      && c in next && next[c].total == state.0[c].total && next[c].items == state.0[c].items
      && next[c].children == state.0[c].children + (if IsChildOf(tree0, c)(e) then [e] else [])
  {
  }

  /** What one node of the linking does to the roots. */
  lemma LinkingRoots(state: (map<string, Node>, seq<string>), tree0: map<string, Node>, e: string)
    requires AgreesOn(state.0, tree0, e)
    requires e in tree0 ==> AgreesOn(state.0, tree0, tree0[e].conta.codigoPai)
    ensures Linking(state, e).1 == state.1 + (if IsRootIn(tree0)(e) then [e] else [])
  {
  }


  lemma LinkStepAt(state: (map<string, Node>, seq<string>), tree0: map<string, Node>, keys: seq<string>, e: string, c: string)
    requires c in state.0 && AgreesOn(state.0, tree0, c) && AgreesOn(state.0, tree0, e)
    requires e in tree0 ==> AgreesOn(state.0, tree0, tree0[e].conta.codigoPai)
    requires state.0[c].total == tree0[c].total && state.0[c].items == tree0[c].items
    requires state.0[c].children == tree0[c].children + Keep(keys, IsChildOf(tree0, c))
    ensures var next := Linking(state, e).0;
      && c in next && next[c].total == tree0[c].total && next[c].items == tree0[c].items
      && next[c].children == tree0[c].children + Keep(keys + [e], IsChildOf(tree0, c))
  {
    var extra := if IsChildOf(tree0, c)(e) then [e] else [];
    var own, kept := tree0[c].children, Keep(keys, IsChildOf(tree0, c));
    LinkingAt(state, tree0, e, c);
    KeepSnoc(keys, e, IsChildOf(tree0, c));
    ConcatAssociative(own, kept, extra);
  }

  lemma LinkStep(tree0: map<string, Node>, keys: seq<string>)
    requires keys != [] && Linked(LinkAll(tree0, keys[..|keys| - 1]), tree0, keys[..|keys| - 1])
    ensures Linked(LinkAll(tree0, keys), tree0, keys)
  {
    var n := |keys| - 1;
    SplitLast(keys);
    LinkedSnoc(LinkAll(tree0, keys[..n]), tree0, keys[..n], keys[n], keys);
  }

  /** Linking one more code keeps the linked state in step with the codes linked so far. */
  lemma LinkedSnoc(state: (map<string, Node>, seq<string>), tree0: map<string, Node>, init: seq<string>, e: string, keys: seq<string>)
    requires Linked(state, tree0, init)
    requires keys == init + [e]
    ensures Linked(Linking(state, e), tree0, keys)
  {
    var next := Linking(state, e);
    KeepSnoc(init, e, IsRootIn(tree0));
    assert AgreesOn(state.0, tree0, e);
    assert e in tree0 ==> AgreesOn(state.0, tree0, tree0[e].conta.codigoPai);
    LinkingRoots(state, tree0, e);
    forall c | c in state.0
      ensures c in next.0 && next.0[c].total == tree0[c].total && next.0[c].items == tree0[c].items
      ensures next.0[c].children == tree0[c].children + Keep(keys, IsChildOf(tree0, c))
    {
      assert AgreesOn(state.0, tree0, c);
      LinkStepAt(state, tree0, init, e, c);
    }
    LinkingAccounts(state, tree0, e);
  }

  lemma LinkingAccounts(state: (map<string, Node>, seq<string>), tree0: map<string, Node>, e: string)
    requires SameAccounts(state.0, tree0)
    ensures SameAccounts(Linking(state, e).0, tree0)
  {
  }

  lemma {:induction false} LinkAllMeaning(tree0: map<string, Node>, keys: seq<string>)
    ensures Linked(LinkAll(tree0, keys), tree0, keys)
    decreases |keys|
  {
    if keys != [] {
      LinkAllMeaning(tree0, keys[..|keys| - 1]);
      LinkStep(tree0, keys);
    } else {
      assert forall c :: c in tree0 ==> tree0[c].children == tree0[c].children + [];
    }
  }

  /**
   * The last forEach: each node whose parent is in the tree is appended to its
   * parent's children; each node with no parent code is appended to the roots;
   * a node whose parent code names no account is in neither.
   */
  method LinkChildren(tree0: map<string, Node>, keys: seq<string>) returns (tree: map<string, Node>, roots: seq<string>)
    ensures (tree, roots) == LinkAll(tree0, keys)
    ensures Linked((tree, roots), tree0, keys)
  {
    tree, roots := tree0, [];
    var i := 0;
    while i < |keys|
      invariant 0 <= i <= |keys|
      invariant (tree, roots) == LinkAll(tree0, keys[..i])
    {
      var codigo := keys[i];
      ghost var before := (tree, roots);
      if codigo in tree {
        var node := tree[codigo];
        if Present(node.conta.codigoPai) && node.conta.codigoPai in tree {
          tree := tree[node.conta.codigoPai := tree[node.conta.codigoPai].(children := tree[node.conta.codigoPai].children + [codigo])];
        } else if !Present(node.conta.codigoPai) {
          roots := roots + [codigo];
        }
      }
      assert keys[..i + 1][..i] == keys[..i];
      assert (tree, roots) == Linking(before, codigo);
      i := i + 1;
    }
    assert keys[..|keys|] == keys;
    LinkAllMeaning(tree0, keys);
  }

  /**
   * buildCashFlowTree: one node per account code (the later account of a repeated
   * code wins), each lançamento booked to its code, totals rolled up from the
   * longest codes to the shortest, and children and roots listed in the order
   * `Object.keys` and `Object.values` give the codes: array-index codes such as
   * "1" and "2" ascending, then the others in the order they were first met.
   * When every child code is longer than its parent's
   * (as in a chart of accounts numbered 1, 1.1, 1.1.01, ...), each node's total
   * is the sum of its own lançamentos plus the totals of its children.
   */
  method BuildCashFlowTree(planos: seq<PlanoDeContas>, lancamentos: seq<Title>) returns (roots: seq<string>, tree: map<string, Node>)
    ensures forall c :: c in tree <==> LastWithCode(planos, c).Some?
    ensures forall c :: c in tree ==> tree[c].conta == LastWithCode(planos, c).value
    ensures forall c :: c in tree ==> tree[c].items == OwnItems(lancamentos, c)
    ensures forall c :: c in tree ==> tree[c].children == Keep(ObjectKeyOrder(CodesInOrder(planos)), IsChildOf(tree, c))
    ensures roots == Keep(ObjectKeyOrder(CodesInOrder(planos)), IsRootIn(tree))
    ensures ChildrenLonger(tree) ==> forall c :: c in tree ==>
      tree[c].total == Sum(tree[c].items, LancamentoValor()) + Sum(tree[c].children, TotalIn(tree))
  {
    var initial, keys := InitTree(planos);
    var posted := PostLancamentos(initial, lancamentos);
    var order := ObjectKeyOrder(keys);
    LongerFirstIsTotalPreorder();
    var sorted := Sort(order, LongerFirst());
    forall i | 0 <= i < |sorted|
      ensures sorted[i] in posted
    {
      assert sorted[i] in multiset(order);
      assert sorted[i] in multiset(keys);
    }
    var rolled := RollUp(posted, sorted);
    tree, roots := LinkChildren(rolled, order);
    BuiltNodes(planos, lancamentos, keys, order, initial, posted, rolled, tree, roots);
    BuiltHierarchy(order, rolled, tree, roots);
    BuiltTotals(order, sorted, posted, rolled, tree, roots);
  }

  /** The codes and accounts of the final tree. */
  lemma BuiltAccounts(planos: seq<PlanoDeContas>, keys: seq<string>, initial: map<string, Node>,
                      posted: map<string, Node>, rolled: map<string, Node>, tree: map<string, Node>)
    requires Initialised(initial, keys, planos)
    requires SameAccounts(posted, initial) && SameAccounts(rolled, posted) && SameAccounts(tree, rolled)
    ensures forall c :: c in tree <==> LastWithCode(planos, c).Some?
    ensures forall c :: c in tree ==> tree[c].conta == LastWithCode(planos, c).value
  {
    CodesInOrderMeaning(planos);
  }

  /** The lançamentos, children and own totals of the nodes, through the phases. */
  lemma BuiltItems(lancamentos: seq<Title>, initial: map<string, Node>, posted: map<string, Node>,
                   rolled: map<string, Node>, tree: map<string, Node>)
    requires forall c :: c in initial ==> initial[c].children == [] && initial[c].items == [] && initial[c].total == 0
    requires Posted(posted, initial, lancamentos)
    requires SameShape(rolled, posted)
    requires SameAccounts(tree, rolled) && forall c :: c in tree ==> tree[c].items == rolled[c].items
    ensures forall c :: c in tree ==> tree[c].items == OwnItems(lancamentos, c)
    ensures forall c :: c in rolled ==> rolled[c].children == []
    ensures forall c :: c in posted ==> posted[c].total == Sum(posted[c].items, LancamentoValor())
  {
  }

  /** The account and lançamentos of a node of the final tree. */
  lemma BuiltNodes(planos: seq<PlanoDeContas>, lancamentos: seq<Title>, keys: seq<string>, order: seq<string>,
                   initial: map<string, Node>, posted: map<string, Node>,
                   rolled: map<string, Node>, tree: map<string, Node>, roots: seq<string>)
    requires Initialised(initial, keys, planos)
    requires Posted(posted, initial, lancamentos)
    requires SameShape(rolled, posted)
    requires Linked((tree, roots), rolled, order)
    ensures forall c :: c in tree <==> LastWithCode(planos, c).Some?
    ensures forall c :: c in tree ==> tree[c].conta == LastWithCode(planos, c).value
    ensures forall c :: c in tree ==> tree[c].items == OwnItems(lancamentos, c)
    ensures forall c :: c in rolled ==> rolled[c].children == []
    ensures forall c :: c in posted ==> posted[c].total == Sum(posted[c].items, LancamentoValor())
  {
    assert SameAccounts(posted, initial);
    assert SameAccounts(rolled, posted);
    BuiltAccounts(planos, keys, initial, posted, rolled, tree);
    BuiltItems(lancamentos, initial, posted, rolled, tree);
  }


  /** The children and roots of the final tree: which node is whose child does not change after the roll-up. */
  lemma BuiltHierarchy(keys: seq<string>, rolled: map<string, Node>, tree: map<string, Node>, roots: seq<string>)
    requires forall c :: c in rolled ==> rolled[c].children == []
    requires Linked((tree, roots), rolled, keys)
    ensures forall c :: c in tree ==> tree[c].children == Keep(keys, IsChildOf(tree, c))
    ensures roots == Keep(keys, IsRootIn(tree))
  {
    SameAccountsHierarchy(tree, rolled);
    forall c | c in tree
      ensures tree[c].children == Keep(keys, IsChildOf(tree, c))
    {
      KeepCongruent(keys, IsChildOf(tree, c), IsChildOf(rolled, c));
    }
    KeepCongruent(keys, IsRootIn(tree), IsRootIn(rolled));
  }

  /** The final totals, in terms of each node's list of children. */
  lemma BuiltTotals(keys: seq<string>, sorted: seq<string>, posted: map<string, Node>,
                    rolled: map<string, Node>, tree: map<string, Node>, roots: seq<string>)
    requires multiset(sorted) == multiset(keys)
    requires SameShape(rolled, posted)
    requires forall c :: c in posted ==> posted[c].total == Sum(posted[c].items, LancamentoValor())
    requires ChildrenLonger(posted) ==> RolledUpTo(rolled, posted, sorted, |sorted|)
    requires Linked((tree, roots), rolled, keys)
    requires forall c :: c in tree ==> tree[c].children == Keep(keys, IsChildOf(tree, c))
    ensures ChildrenLonger(tree) ==> forall c :: c in tree ==>
      tree[c].total == Sum(tree[c].items, LancamentoValor()) + Sum(tree[c].children, TotalIn(tree))
  {
    assert SameAccounts(rolled, posted);
    SameAccountsHierarchy(tree, rolled);
    SameAccountsHierarchy(rolled, posted);
    if ChildrenLonger(tree) {
      assert sorted[..|sorted|] == sorted;
      forall c | c in tree
        ensures tree[c].total == Sum(tree[c].items, LancamentoValor()) + Sum(tree[c].children, TotalIn(tree))
      {
        BuiltTotal(keys, sorted, posted, rolled, tree, c);
      }
    }
  }

  /** The rolled-up total of one node, in terms of its list of children. */
  lemma BuiltTotal(keys: seq<string>, sorted: seq<string>, posted: map<string, Node>,
                   rolled: map<string, Node>, tree: map<string, Node>, c: string)
    requires multiset(sorted) == multiset(keys)
    requires c in rolled && c in posted && c in tree
    requires rolled[c].total == posted[c].total + Sum(sorted, ChildTerm(rolled, c))
    requires SameAccounts(tree, rolled) && (forall d :: d in tree ==> tree[d].total == rolled[d].total)
    requires tree[c].children == Keep(keys, IsChildOf(tree, c))
    ensures tree[c].total == posted[c].total + Sum(tree[c].children, TotalIn(tree))
  {
    SameAccountsHierarchy(tree, rolled);
    KeepCongruent(keys, IsChildOf(tree, c), IsChildOf(rolled, c));
    SumPermutation(sorted, keys, ChildTerm(rolled, c));
    SumGuarded(keys, IsChildOf(rolled, c), TotalIn(rolled), ChildTerm(rolled, c));
    SumCongruent(tree[c].children, TotalIn(tree), TotalIn(rolled));
  }

  /**
   * Who appears where in the tree: the roots are exactly the accounts without a
   * parent code, the children of a node are exactly the accounts naming it as
   * parent, and an account whose parent code names no account is in neither.
   */
  lemma TreePlacement(keys: seq<string>, tree: map<string, Node>, roots: seq<string>, d: string)
    requires forall c :: c in tree ==> tree[c].children == Keep(keys, IsChildOf(tree, c))
    requires roots == Keep(keys, IsRootIn(tree))
    requires d in keys && d in tree
    ensures d in roots <==> !Present(tree[d].conta.codigoPai)
    ensures forall p :: p in tree ==> (d in tree[p].children <==> tree[d].conta.codigoPai == p && Present(p))
    ensures Present(tree[d].conta.codigoPai) && tree[d].conta.codigoPai !in tree ==>
      d !in roots && forall p :: p in tree ==> d !in tree[p].children
  {
    KeepIsFilter(keys, IsRootIn(tree));
    forall p | p in tree
      ensures d in tree[p].children <==> tree[d].conta.codigoPai == p && Present(p)
    {
      KeepIsFilter(keys, IsChildOf(tree, p));
    }
  }
}
