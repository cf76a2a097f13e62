/**
 * Notifications: the alerts generated for payables and receivables that fall due
 * soon or are overdue, the notifications collection they are written to (at most
 * one notification per related title and type), the sidebar list (clear, pin,
 * mark important, sort, unread count) and the full notifications page (search,
 * status and type filters, grouping by date, mark all read, delete).
 */
module Notifications {
  import opened Common
  import opened Records

  // ---------------------------------------------------------------------------
  // Documents of the notifications collection
  // ---------------------------------------------------------------------------

  /** What a check hands to `createNotification`. */
  datatype NotificationData = NotificationData(
    relatedId: string,    // the id of the title the alert is about
    kind: string,         // the notification type, e.g. "aviso_vencimento_pagar"
    icon: string,
    iconClass: string,
    message: string,
    link: string)

  /**
   * A stored notification with its document id. Flags that the screens only test
   * for truthiness or with `=== true` are held as `false` when absent; `createdAt`
   * is the server timestamp in milliseconds, `None` while it is still pending.
   */
  datatype Notification = Notification(
    id: nat,
    relatedId: string,
    kind: string,
    icon: string,
    iconClass: string,
    message: string,
    link: string,
    read: bool,
    pinned: bool,
    important: bool,
    clearedFromSidebar: bool,
    createdAt: Option<int>,
    adminId: string)

  /** The pair a notification is deduplicated on. */
  datatype Key = Key(relatedId: string, kind: string)

  function KeyOf(n: Notification): Key
  {
    Key(n.relatedId, n.kind)
  }

  function DataKey(d: NotificationData): Key
  {
    Key(d.relatedId, d.kind)
  }

  /** The document `createNotification` adds: the data, unread, stamped, owned by the user. */
  function Stored(id: nat, userId: string, d: NotificationData, now: int): Notification
  {
    Notification(id, d.relatedId, d.kind, d.icon, d.iconClass, d.message, d.link,
                 false, false, false, false, Some(now), userId)
  }

  /**
   * The notifications collection of one user. Document ids are generated by the
   * store; here they are the values of a counter, so a new id is never in use.
   */
  datatype Collection = Collection(docs: map<nat, Notification>, nextId: nat)

  /** `notificationExists`: some stored notification has this (relatedId, type). */
  predicate HasKey(docs: map<nat, Notification>, k: Key)
  {
    exists i :: i in docs && KeyOf(docs[i]) == k
  }

  /** No two stored notifications share (relatedId, type). */
  ghost predicate UniqueKeys(docs: map<nat, Notification>)
  {
    forall i, j :: i in docs && j in docs && i != j ==> KeyOf(docs[i]) != KeyOf(docs[j])
  }

  ghost predicate WellFormed(c: Collection)
  {
    && (forall i :: i in c.docs ==> c.docs[i].id == i && i < c.nextId)
    && UniqueKeys(c.docs)
  }

  /** `createNotification`: adds the notification unless its (relatedId, type) is already stored. */
  function Create(c: Collection, userId: string, d: NotificationData, now: int): Collection
  {
    if HasKey(c.docs, DataKey(d)) then c
    else Collection(c.docs[c.nextId := Stored(c.nextId, userId, d, now)], c.nextId + 1)
  }

  /** A notification is added iff none with the same (relatedId, type) exists; it is unread, and nothing stored changes. */
  lemma CreateMeaning(c: Collection, userId: string, d: NotificationData, now: int)
    requires WellFormed(c)
    ensures var r := Create(c, userId, d, now);
      && (r.docs.Keys != c.docs.Keys <==> !HasKey(c.docs, DataKey(d)))
      && (forall i :: i in c.docs ==> i in r.docs && r.docs[i] == c.docs[i])
      && (forall i :: i in r.docs && i !in c.docs ==>
            KeyOf(r.docs[i]) == DataKey(d) && !r.docs[i].read && r.docs[i].message == d.message)
  {
    if !HasKey(c.docs, DataKey(d)) {
      assert c.nextId !in c.docs;
      assert c.nextId in Create(c, userId, d, now).docs.Keys;
    }
  }

  /** Adding keeps the collection free of duplicate (relatedId, type) pairs. */
  lemma CreateWellFormed(c: Collection, userId: string, d: NotificationData, now: int)
    requires WellFormed(c)
    ensures WellFormed(Create(c, userId, d, now))
  {
    if !HasKey(c.docs, DataKey(d)) {
      var r := Create(c, userId, d, now);
      forall i, j | i in r.docs && j in r.docs && i != j
        ensures KeyOf(r.docs[i]) != KeyOf(r.docs[j])
      {
        if i == c.nextId {
          assert KeyOf(r.docs[j]) == KeyOf(c.docs[j]);
        } else if j == c.nextId {
          assert KeyOf(r.docs[i]) == KeyOf(c.docs[i]);
        }
      }
    }
  }

  /** The stored pairs after an add: the old ones and the new one. */
  lemma CreateKeys(c: Collection, userId: string, d: NotificationData, now: int, k: Key)
    requires WellFormed(c)
    ensures HasKey(Create(c, userId, d, now).docs, k) <==> HasKey(c.docs, k) || k == DataKey(d)
  {
    var r := Create(c, userId, d, now);
    if HasKey(c.docs, k) {
      var i :| i in c.docs && KeyOf(c.docs[i]) == k;
      assert i in r.docs && r.docs[i] == c.docs[i];
    }
    if !HasKey(c.docs, DataKey(d)) {
      assert c.nextId in r.docs && KeyOf(r.docs[c.nextId]) == DataKey(d);
      if HasKey(r.docs, k) {
        var i :| i in r.docs && KeyOf(r.docs[i]) == k;
        if i != c.nextId {
          assert i in c.docs;
        }
      }
    }
  }

  /** Calling `createNotification` twice with the same data adds at most once. */
  lemma CreateTwice(c: Collection, userId: string, d: NotificationData, now: int, later: int)
    requires WellFormed(c)
    ensures Create(Create(c, userId, d, now), userId, d, later) == Create(c, userId, d, now)
  {
    CreateKeys(c, userId, d, now, DataKey(d));
  }

  /** A sequence of `createNotification` calls, in order. */
  function CreateAll(c: Collection, userId: string, ds: seq<NotificationData>, now: int): Collection
    decreases |ds|
  {
    if ds == [] then c
    else Create(CreateAll(c, userId, ds[..|ds| - 1], now), userId, ds[|ds| - 1], now)
  }

  /** After any sequence of adds no two notifications share (relatedId, type), and nothing stored changed. */
  lemma {:induction false} CreateAllWellFormed(c: Collection, userId: string, ds: seq<NotificationData>, now: int)
    requires WellFormed(c)
    ensures WellFormed(CreateAll(c, userId, ds, now))
    ensures forall i :: i in c.docs ==>
      (i in CreateAll(c, userId, ds, now).docs && CreateAll(c, userId, ds, now).docs[i] == c.docs[i])
    decreases |ds|
  {
    if ds != [] {
      var init := ds[..|ds| - 1];
      CreateAllWellFormed(c, userId, init, now);
      CreateWellFormed(CreateAll(c, userId, init, now), userId, ds[|ds| - 1], now);
      CreateMeaning(CreateAll(c, userId, init, now), userId, ds[|ds| - 1], now);
    }
  }

  /** After a sequence of adds exactly the old pairs and the pairs of the added data are stored. */
  lemma {:induction false} CreateAllKeys(c: Collection, userId: string, ds: seq<NotificationData>, now: int, k: Key)
    requires WellFormed(c)
    ensures HasKey(CreateAll(c, userId, ds, now).docs, k)
        <==> HasKey(c.docs, k) || exists j :: 0 <= j < |ds| && DataKey(ds[j]) == k
    decreases |ds|
  {
    if ds != [] {
      var init := ds[..|ds| - 1];
      CreateAllKeys(c, userId, init, now, k);
      CreateAllWellFormed(c, userId, init, now);
      CreateKeys(CreateAll(c, userId, init, now), userId, ds[|ds| - 1], now, k);
      if exists j :: 0 <= j < |ds| && DataKey(ds[j]) == k {
        var j :| 0 <= j < |ds| && DataKey(ds[j]) == k;
        if j < |init| {
          assert DataKey(init[j]) == k;
        }
      }
      if exists j :: 0 <= j < |init| && DataKey(init[j]) == k {
        var j :| 0 <= j < |init| && DataKey(init[j]) == k;
        assert DataKey(ds[j]) == k;
      }
    }
  }

  /** Adds whose pairs are all stored already change nothing. */
  lemma {:induction false} CreateAllPresent(c: Collection, userId: string, ds: seq<NotificationData>, now: int)
    requires WellFormed(c)
    requires forall j :: 0 <= j < |ds| ==> HasKey(c.docs, DataKey(ds[j]))
    ensures CreateAll(c, userId, ds, now) == c
    decreases |ds|
  {
    if ds != [] {
      CreateAllPresent(c, userId, ds[..|ds| - 1], now);
      assert HasKey(c.docs, DataKey(ds[|ds| - 1]));
    }
  }

  /** Running the same checks again, five minutes later, adds nothing. */
  lemma CreateAllIdempotent(c: Collection, userId: string, ds: seq<NotificationData>, now: int, later: int)
    requires WellFormed(c)
    ensures CreateAll(CreateAll(c, userId, ds, now), userId, ds, later) == CreateAll(c, userId, ds, now)
  {
    var r := CreateAll(c, userId, ds, now);
    CreateAllWellFormed(c, userId, ds, now);
    forall j | 0 <= j < |ds| ensures HasKey(r.docs, DataKey(ds[j])) {
      CreateAllKeys(c, userId, ds, now, DataKey(ds[j]));
    }
    CreateAllPresent(r, userId, ds, later);
  }

  lemma CreateAllSnoc(c: Collection, userId: string, ds: seq<NotificationData>, d: NotificationData, now: int)
    ensures CreateAll(c, userId, ds + [d], now) == Create(CreateAll(c, userId, ds, now), userId, d, now)
  {
    assert (ds + [d])[..|ds|] == ds;
  }

  /** Creating the alerts of one more title: its alert, if any, is created after the earlier ones. */
  lemma CreateCollectStep(c: Collection, userId: string, ts: seq<Title>, i: nat, f: Title -> Option<NotificationData>, now: int)
    requires i < |ts|
    ensures CreateAll(c, userId, Collect(ts[..i + 1], f), now)
         == if f(ts[i]).Some? then Create(CreateAll(c, userId, Collect(ts[..i], f), now), userId, f(ts[i]).value, now)
            else CreateAll(c, userId, Collect(ts[..i], f), now)
  {
    CollectStep(ts, i, f);
    if f(ts[i]).Some? {
      CreateAllSnoc(c, userId, Collect(ts[..i], f), f(ts[i]).value, now);
    }
  }

  lemma {:induction false} CreateAllAppend(c: Collection, userId: string, a: seq<NotificationData>, b: seq<NotificationData>, now: int)
    ensures CreateAll(c, userId, a + b, now) == CreateAll(CreateAll(c, userId, a, now), userId, b, now)
    decreases |b|
  {
    if b == [] {
      assert a + b == a;
    } else {
      assert (a + b)[..|a + b| - 1] == a + b[..|b| - 1];
      CreateAllAppend(c, userId, a, b[..|b| - 1], now);
    }
  }

  // ---------------------------------------------------------------------------
  // checkContasAPagar / checkContasAReceber: which titles get which alert
  // ---------------------------------------------------------------------------

  datatype Side = Pagar | Receber

  /**
   * The day the checks run: the ISO strings of today and of three days ahead bound the due-soon query, and `daysUntil` gives the whole number of
   * days from today's midnight to the midnight of a due date.
   */
  datatype Window = Window(today: string, in3Days: string, daysUntil: string -> int)

  /** The pt-BR formatting of an amount in cents and of an ISO date. */
  datatype Formats = Formats(currency: int -> string, date: string -> string)

  /** Payables are due on `vencimento`, receivables on `dataVencimento`. */
  function DueDate(side: Side, t: Title): string
  {
    if side == Pagar then t.vencimento else t.dataVencimento
  }

  /** The statuses that get a due-soon alert. */
  predicate RelevantStatus(side: Side, status: string)
  {
    status == "Pendente" || status == (if side == Pagar then "Pago Parcialmente" else "Recebido Parcialmente")
  }

  /** The due-soon query: due date between today and three days ahead, inclusive. */
  predicate InWindow(due: string, w: Window)
  {
    AtMost(w.today, due) && AtMost(due, w.in3Days)
  }

  function HojeKind(side: Side): string
  {
    if side == Pagar then "alerta_vencimento_hoje_pagar" else "alerta_vencimento_hoje_receber"
  }

  function AvisoKind(side: Side): string
  {
    if side == Pagar then "aviso_vencimento_pagar" else "aviso_vencimento_receber"
  }

  function AtrasoKind(side: Side): string
  {
    if side == Pagar then "alerta_atraso_pagar" else "alerta_atraso_receber"
  }

  function Link(side: Side): string
  {
    if side == Pagar then "contas-a-pagar-page" else "contas-a-receber-page"
  }

  /**
   * `valorSaldo ?? valorOriginal ?? 0`: a stored balance is shown even when it
   * is 0; the original amount only when there is no balance at all.
   */
  function PayableAmount(t: Title): (v: int)
    ensures t.valorSaldoPresente ==> v == t.valorSaldo
    ensures !t.valorSaldoPresente ==> v == t.valorOriginal
  {
    if t.valorSaldoPresente then t.valorSaldo else t.valorOriginal
  }

  /** Unlike `||`, `??` keeps a stored zero balance: a settled payable shows R$ 0,00. */
  lemma PayableAmountKeepsZero(t: Title)
    requires t.valorSaldoPresente && t.valorSaldo == 0 && t.valorOriginal != 0
    ensures PayableAmount(t) == 0 && Or(t.valorSaldo, t.valorOriginal) != PayableAmount(t)
  {
  }

  function HojeData(side: Side, t: Title, fmt: Formats): NotificationData
  {
    if side == Pagar then
      NotificationData(t.id, HojeKind(side), "event_busy", "notification-icon-danger",
        "A conta de \"" + t.favorecidoNome + "\" no valor de " + fmt.currency(PayableAmount(t)) + " vence HOJE.",
        Link(side))
    else
      NotificationData(t.id, HojeKind(side), "event_busy", "notification-icon-danger",
        "Título do cliente \"" + t.clienteNome + "\" vence HOJE.",
        Link(side))
  }

  function AvisoData(side: Side, t: Title, fmt: Formats): NotificationData
  {
    if side == Pagar then
      NotificationData(t.id, AvisoKind(side), "calendar_month", "notification-icon-warning",
        "Sua provisão a pagar para \"" + t.favorecidoNome + "\" vence em " + fmt.date(t.vencimento) + ".",
        Link(side))
    else
      NotificationData(t.id, AvisoKind(side), "event_available", "notification-icon-info",
        "O título de \"" + t.clienteNome + "\" está próximo do vencimento.",
        Link(side))
  }

  function AtrasoData(side: Side, t: Title, fmt: Formats): NotificationData
  {
    if side == Pagar then
      NotificationData(t.id, AtrasoKind(side), "error", "notification-icon-danger",
        "A conta de \"" + t.favorecidoNome + "\" no valor de " + fmt.currency(PayableAmount(t)) + " venceu.",
        Link(side))
    else
      NotificationData(t.id, AtrasoKind(side), "warning", "notification-icon-danger",
        "Título do cliente \"" + t.clienteNome + "\" venceu. Deseja enviar um lembrete?",
        Link(side))
  }

  /** The first query's alert for one title, if any. */
  function DueSoonAlert(side: Side, t: Title, w: Window, fmt: Formats): Option<NotificationData>
  {
    var due := DueDate(side, t);
    if !InWindow(due, w) || !RelevantStatus(side, t.status) then None
    else if w.daysUntil(due) == 0 then Some(HojeData(side, t, fmt))
    else Some(AvisoData(side, t, fmt))
  }

  /** The second query's alert for one title, if any. */
  function OverdueAlert(side: Side, t: Title, fmt: Formats): Option<NotificationData>
  {
    if t.status == "Vencido" then Some(AtrasoData(side, t, fmt)) else None
  }

  function DueSoonF(side: Side, w: Window, fmt: Formats): Title -> Option<NotificationData>
  {
    (t: Title) => DueSoonAlert(side, t, w, fmt)
  }

  function OverdueF(side: Side, fmt: Formats): Title -> Option<NotificationData>
  {
    (t: Title) => OverdueAlert(side, t, fmt)
  }

  /** The first query's alerts for a list of titles, in list order. */
  function DueSoonAlerts(side: Side, ts: seq<Title>, w: Window, fmt: Formats): seq<NotificationData>
  {
    Collect(ts, DueSoonF(side, w, fmt))
  }

  /** The second query's alerts for a list of titles, in list order. */
  function OverdueAlerts(side: Side, ts: seq<Title>, fmt: Formats): seq<NotificationData>
  {
    Collect(ts, OverdueF(side, fmt))
  }

  /** Everything one check hands to `createNotification`: the due-soon alerts, then the overdue ones. */
  function Alerts(side: Side, ts: seq<Title>, w: Window, fmt: Formats): seq<NotificationData>
  {
    DueSoonAlerts(side, ts, w, fmt) + OverdueAlerts(side, ts, fmt)
  }

  /**
   * The classification of one title: due in the window with a relevant status gives
   * the due-today alert when the due date is today and the due-soon alert otherwise;
   * any other status gives nothing; status "Vencido" gives the overdue alert
   * whatever the due date.
   */
  lemma Classification(side: Side, t: Title, w: Window, fmt: Formats)
    ensures var a := DueSoonAlert(side, t, w, fmt);
      && (a.Some? <==> InWindow(DueDate(side, t), w) && RelevantStatus(side, t.status))
      && (a.Some? ==> a.value.relatedId == t.id && a.value.link == Link(side)
                      && a.value.kind == (if w.daysUntil(DueDate(side, t)) == 0 then HojeKind(side) else AvisoKind(side)))
    ensures var o := OverdueAlert(side, t, fmt);
      && (o.Some? <==> t.status == "Vencido")
      && (o.Some? ==> o.value.relatedId == t.id && o.value.kind == AtrasoKind(side))
    ensures DueSoonAlert(side, t, w, fmt).Some? ==> OverdueAlert(side, t, fmt).None?
  {
  }

  /**
   * The amount a payable's due-today and overdue alerts show: the stored
   * balance whenever there is one, even 0, and the original amount otherwise.
   */
  lemma PayableAlertAmount(t: Title, w: Window, fmt: Formats)
    ensures var amount := fmt.currency(if t.valorSaldoPresente then t.valorSaldo else t.valorOriginal);
      && (OverdueAlert(Pagar, t, fmt).Some? ==>
            OverdueAlert(Pagar, t, fmt).value.message == "A conta de \"" + t.favorecidoNome + "\" no valor de " + amount + " venceu.")
      && (DueSoonAlert(Pagar, t, w, fmt).Some? && w.daysUntil(t.vencimento) == 0 ==>
            DueSoonAlert(Pagar, t, w, fmt).value.message == "A conta de \"" + t.favorecidoNome + "\" no valor de " + amount + " vence HOJE.")
  {
  }

  /** The due-soon alerts are exactly the classification of each title. */
  lemma DueSoonAlertsMeaning(side: Side, ts: seq<Title>, w: Window, fmt: Formats, d: NotificationData)
    ensures d in DueSoonAlerts(side, ts, w, fmt) <==> exists k :: 0 <= k < |ts| && DueSoonAlert(side, ts[k], w, fmt) == Some(d)
  {
    CollectMeaning(ts, DueSoonF(side, w, fmt), d);
  }

  /** The overdue alerts are exactly the overdue titles' alerts. */
  lemma OverdueAlertsMeaning(side: Side, ts: seq<Title>, fmt: Formats, d: NotificationData)
    ensures d in OverdueAlerts(side, ts, fmt) <==> exists k :: 0 <= k < |ts| && OverdueAlert(side, ts[k], fmt) == Some(d)
  {
    CollectMeaning(ts, OverdueF(side, fmt), d);
  }

  /**
   * After a check every title due soon with a relevant status, and every overdue
   * title, has its notification stored, and every stored pair was stored before or
   * comes from one of the titles.
   */
  lemma CheckCovers(c: Collection, userId: string, side: Side, ts: seq<Title>, w: Window, fmt: Formats, now: int, t: Title)
    requires WellFormed(c)
    requires t in ts
    ensures var r := CreateAll(c, userId, Alerts(side, ts, w, fmt), now);
      && (DueSoonAlert(side, t, w, fmt).Some? ==> HasKey(r.docs, DataKey(DueSoonAlert(side, t, w, fmt).value)))
      && (t.status == "Vencido" ==> HasKey(r.docs, Key(t.id, AtrasoKind(side))))
  {
    CoversDueSoon(c, userId, side, ts, w, fmt, now, t);
    CoversOverdue(c, userId, side, ts, w, fmt, now, t);
  }

  lemma CoversDueSoon(c: Collection, userId: string, side: Side, ts: seq<Title>, w: Window, fmt: Formats, now: int, t: Title)
    requires WellFormed(c)
    requires t in ts
    ensures DueSoonAlert(side, t, w, fmt).Some? ==>
      HasKey(CreateAll(c, userId, Alerts(side, ts, w, fmt), now).docs, DataKey(DueSoonAlert(side, t, w, fmt).value))
  {
    var alerts := Alerts(side, ts, w, fmt);
    var a := DueSoonAlert(side, t, w, fmt);
    if a.Some? {
      var k0 :| 0 <= k0 < |ts| && ts[k0] == t;
      DueSoonAlertsMeaning(side, ts, w, fmt, a.value);
      var j :| 0 <= j < |DueSoonAlerts(side, ts, w, fmt)| && DueSoonAlerts(side, ts, w, fmt)[j] == a.value;
      assert alerts[j] == a.value;
      CreateAllKeys(c, userId, alerts, now, DataKey(a.value));
    }
  }

  lemma CoversOverdue(c: Collection, userId: string, side: Side, ts: seq<Title>, w: Window, fmt: Formats, now: int, t: Title)
    requires WellFormed(c)
    requires t in ts
    ensures t.status == "Vencido" ==> HasKey(CreateAll(c, userId, Alerts(side, ts, w, fmt), now).docs, Key(t.id, AtrasoKind(side)))
  {
    if t.status == "Vencido" {
      var alerts := Alerts(side, ts, w, fmt);
      var d := AtrasoData(side, t, fmt);
      var key := Key(t.id, AtrasoKind(side));
      assert DataKey(d) == key;
      var k0 :| 0 <= k0 < |ts| && ts[k0] == t;
      assert OverdueAlert(side, ts[k0], fmt) == Some(d);
      OverdueAlertsMeaning(side, ts, fmt, d);
      var overdue := OverdueAlerts(side, ts, fmt);
      var j :| 0 <= j < |overdue| && overdue[j] == d;
      var k := |DueSoonAlerts(side, ts, w, fmt)| + j;
      assert alerts[k] == d;
      CreateAllKeys(c, userId, alerts, now, key);
    }
  }

  // ---------------------------------------------------------------------------
  // Batched updates of stored notifications
  // ---------------------------------------------------------------------------

  /** The field updates the screens write: each sets one field to a value. */
  datatype Update = MarkRead | ClearFromSidebar | SetPinned(pinned: bool) | SetImportant(important: bool)

  function Apply(n: Notification, u: Update): Notification
  {
    match u
    case MarkRead => n.(read := true)
    case ClearFromSidebar => n.(clearedFromSidebar := true)
    case SetPinned(b) => n.(pinned := b)
    case SetImportant(b) => n.(important := b)
  }

  /** The documents after `batch.update(id, u)` for each id in turn. */
  function UpdateAll(docs: map<nat, Notification>, ids: seq<nat>, u: Update): map<nat, Notification>
    decreases |ids|
  {
    if ids == [] then docs
    else
      var d := UpdateAll(docs, ids[..|ids| - 1], u);
      var id := ids[|ids| - 1];
      if id in d then d[id := Apply(d[id], u)] else d
  }

  /** A batch changes exactly the listed documents, each by the update, and keeps the ids. */
  lemma {:induction false} UpdateAllMeaning(docs: map<nat, Notification>, ids: seq<nat>, u: Update)
    ensures UpdateAll(docs, ids, u).Keys == docs.Keys
    ensures forall i :: i in docs ==>
      UpdateAll(docs, ids, u)[i] == if i in ids then Apply(docs[i], u) else docs[i]
    decreases |ids|
  {
    if ids != [] {
      var init := ids[..|ids| - 1];
      UpdateAllMeaning(docs, init, u);
      assert forall i :: i in ids <==> i in init || i == ids[|ids| - 1] by {
        assert ids == init + [ids[|ids| - 1]];
      }
    }
  }

  lemma UpdateAllWellFormed(c: Collection, ids: seq<nat>, u: Update)
    requires WellFormed(c)
    ensures WellFormed(Collection(UpdateAll(c.docs, ids, u), c.nextId))
  {
    UpdateAllMeaning(c.docs, ids, u);
    var r := UpdateAll(c.docs, ids, u);
    assert forall i :: i in r ==> KeyOf(r[i]) == KeyOf(c.docs[i]) && r[i].id == c.docs[i].id;
  }

  /** The document ids of a list of notifications. */
  function IdsOf(ns: seq<Notification>): (ids: seq<nat>)
    ensures |ids| == |ns| && forall k :: 0 <= k < |ns| ==> ids[k] == ns[k].id
    decreases |ns|
  {
    if ns == [] then [] else IdsOf(ns[..|ns| - 1]) + [ns[|ns| - 1].id]
  }

  /** The list shows the stored documents: each listed notification is the stored one with its id. */
  ghost predicate Snapshot(docs: map<nat, Notification>, ns: seq<Notification>)
  {
    forall k :: 0 <= k < |ns| ==> ns[k].id in docs && docs[ns[k].id] == ns[k]
  }

  /** Every stored document carries its own id. */
  ghost predicate IdsMatch(docs: map<nat, Notification>)
  {
    forall i :: i in docs ==> docs[i].id == i
  }

  lemma IdsOfSnoc(ns: seq<Notification>, n: Notification)
    ensures IdsOf(ns + [n]) == IdsOf(ns) + [n.id]
  {
    assert (ns + [n])[..|ns|] == ns;
  }

  /** A selection from a list that shows the stored documents shows them too. */
  lemma SnapshotKeep(docs: map<nat, Notification>, ns: seq<Notification>, p: Notification -> bool)
    requires Snapshot(docs, ns)
    ensures Snapshot(docs, Keep(ns, p))
  {
    var ks := Keep(ns, p);
    KeepMember(ns, p);
    forall k | 0 <= k < |ks| ensures ks[k].id in docs && docs[ks[k].id] == ks[k] {
      assert ks[k] in ks;
      var m :| 0 <= m < |ns| && ns[m] == ks[k];
    }
  }

  /** A stored document is batched iff the list shows it and the selection keeps it. */
  lemma SelectedIds(docs: map<nat, Notification>, ns: seq<Notification>, p: Notification -> bool, i: nat)
    requires IdsMatch(docs) && Snapshot(docs, ns) && i in docs
    ensures i in IdsOf(Keep(ns, p)) <==> docs[i] in ns && p(docs[i])
  {
    var ks := Keep(ns, p);
    var ids := IdsOf(ks);
    KeepMember(ns, p);
    if i in ids {
      var k :| 0 <= k < |ids| && ids[k] == i;
      assert ks[k] in ks;
      var m :| 0 <= m < |ns| && ns[m] == ks[k];
    }
    if docs[i] in ns && p(docs[i]) {
      assert docs[i] in ks;
      var k :| 0 <= k < |ks| && ks[k] == docs[i];
      assert ids[k] == i;
    }
  }

  lemma ClearBatchStep(visible: seq<Notification>, i: nat, p: Notification -> bool)
    requires i < |visible|
    ensures IdsOf(Keep(visible[..i + 1], p))
         == IdsOf(Keep(visible[..i], p)) + (if p(visible[i]) then [visible[i].id] else [])
  {
    assert visible[..i + 1] == visible[..i] + [visible[i]];
    KeepSnoc(visible[..i], visible[i], p);
    if p(visible[i]) {
      IdsOfSnoc(Keep(visible[..i], p), visible[i]);
    }
  }

  /** Every entry of a batch is stored iff every selected notification is. */
  lemma IdsOfStored(docs: map<nat, Notification>, ns: seq<Notification>)
    ensures (forall t :: t in ns ==> t.id in docs) <==> (forall k :: 0 <= k < |IdsOf(ns)| ==> IdsOf(ns)[k] in docs)
  {
    if forall k :: 0 <= k < |IdsOf(ns)| ==> IdsOf(ns)[k] in docs {
      forall t | t in ns ensures t.id in docs {
        var k :| 0 <= k < |ns| && ns[k] == t;
        assert IdsOf(ns)[k] == t.id;
      }
    } else {
      var k :| 0 <= k < |IdsOf(ns)| && IdsOf(ns)[k] !in docs;
      assert ns[k] in ns;
    }
  }

  // ---------------------------------------------------------------------------
  // The sidebar: clearing, sorting, unread count, and the item buttons
  // ---------------------------------------------------------------------------

  function NotCleared(): Notification -> bool
  {
    (n: Notification) => !n.clearedFromSidebar
  }

  /** The notifications the sidebar shows. */
  function Visible(ns: seq<Notification>): seq<Notification>
  {
    Keep(ns, NotCleared())
  }

  /** A visible notification is cleared unless it is pinned or important and that box is unticked. */
  predicate ShouldClear(n: Notification, clearPinned: bool, clearImportant: bool)
  {
    (!n.pinned || clearPinned) && (!n.important || clearImportant)
  }

  function ShouldClearP(clearPinned: bool, clearImportant: bool): Notification -> bool
  {
    (n: Notification) => ShouldClear(n, clearPinned, clearImportant)
  }

  /** The notifications the clear button writes `clearedFromSidebar: true` to. */
  function ClearTargets(sidebar: seq<Notification>, clearPinned: bool, clearImportant: bool): seq<Notification>
  {
    Keep(Visible(sidebar), ShouldClearP(clearPinned, clearImportant))
  }

  /**
   * Over a sidebar that shows the stored documents, clearing marks a document iff it
   * is shown, not yet cleared, and passes the pinned/important boxes; a document
   * already cleared is left exactly as it was, and no other field changes.
   */
  lemma ClearMeaning(docs: map<nat, Notification>, sidebar: seq<Notification>, clearPinned: bool, clearImportant: bool)
    requires IdsMatch(docs) && Snapshot(docs, sidebar)
    ensures var r := UpdateAll(docs, IdsOf(ClearTargets(sidebar, clearPinned, clearImportant)), ClearFromSidebar);
      && r.Keys == docs.Keys
      && (forall i :: i in docs && docs[i].clearedFromSidebar ==> r[i] == docs[i])
      && (forall i :: i in docs && !docs[i].clearedFromSidebar ==>
            (r[i].clearedFromSidebar <==> docs[i] in sidebar && ShouldClear(docs[i], clearPinned, clearImportant)))
      && (forall i :: i in docs ==> r[i] == docs[i].(clearedFromSidebar := r[i].clearedFromSidebar))
  {
    var ids := IdsOf(ClearTargets(sidebar, clearPinned, clearImportant));
    UpdateAllMeaning(docs, ids, ClearFromSidebar);
    ClearTargetIds(docs, sidebar, clearPinned, clearImportant);
  }

  /** The batched ids are the shown, not yet cleared documents that pass the boxes. */
  lemma ClearTargetIds(docs: map<nat, Notification>, sidebar: seq<Notification>, clearPinned: bool, clearImportant: bool)
    requires IdsMatch(docs) && Snapshot(docs, sidebar)
    ensures forall i :: i in docs ==>
      (i in IdsOf(ClearTargets(sidebar, clearPinned, clearImportant)) <==>
         docs[i] in sidebar && !docs[i].clearedFromSidebar && ShouldClear(docs[i], clearPinned, clearImportant))
  {
    var p := ShouldClearP(clearPinned, clearImportant);
    KeepMember(sidebar, NotCleared());
    SnapshotKeep(docs, sidebar, NotCleared());
    forall i | i in docs
      ensures i in IdsOf(ClearTargets(sidebar, clearPinned, clearImportant))
          <==> docs[i] in sidebar && !docs[i].clearedFromSidebar && p(docs[i])
    {
      SelectedIds(docs, Visible(sidebar), p, i);
    }
  }

  /**
   * The loop of the clear button: the ids of the visible notifications to clear,
   * in sidebar order, and how many there are.
   */
  method ClearSelection(sidebar: seq<Notification>, clearPinned: bool, clearImportant: bool)
    returns (batch: seq<nat>, count: nat)
    ensures batch == IdsOf(ClearTargets(sidebar, clearPinned, clearImportant))
    ensures count == |batch| == |ClearTargets(sidebar, clearPinned, clearImportant)|
  {
    var visible := Visible(sidebar);
    batch := [];
    count := 0;
    ghost var p := ShouldClearP(clearPinned, clearImportant);
    var i := 0;
    while i < |visible|
      invariant 0 <= i <= |visible|
      invariant batch == IdsOf(Keep(visible[..i], p))
      invariant count == |batch|
    {
      var n := visible[i];
      ClearBatchStep(visible, i, p);
      if ShouldClear(n, clearPinned, clearImportant) {
        batch := batch + [n.id];
        count := count + 1;
      }
      i := i + 1;
    }
    assert visible[..i] == visible;
  }

  /** JavaScript `(x.createdAt?.toDate() || 0)`: a pending timestamp sorts as 0. */
  function TimeOf(n: Notification): int
  {
    if n.createdAt.Some? then n.createdAt.value else 0
  }

  /** The sidebar comparator: pinned first, then newest first. */
  function SidebarCompare(a: Notification, b: Notification): int
  {
    if a.pinned && !b.pinned then -1
    else if !a.pinned && b.pinned then 1
    else TimeOf(b) - TimeOf(a)
  }

  function SidebarLe(): (Notification, Notification) -> bool
  {
    (a: Notification, b: Notification) => SidebarCompare(a, b) <= 0
  }

  lemma SidebarLeIsTotalPreorder()
    ensures TotalPreorder(SidebarLe())
  {
  }

  /** The sidebar order of the visible notifications. */
  function SidebarOrder(ns: seq<Notification>): seq<Notification>
  {
    SidebarLeIsTotalPreorder();
    Sort(Visible(ns), SidebarLe())
  }

  /** The sidebar shows every visible notification once, pinned before unpinned, newest first within each. */
  lemma SidebarOrderMeaning(ns: seq<Notification>)
    ensures var r := SidebarOrder(ns);
      && multiset(r) == multiset(Visible(ns))
      && (forall k :: 0 <= k < |r| ==> !r[k].clearedFromSidebar)
      && (forall i, j :: 0 <= i < j < |r| ==> r[i].pinned || !r[j].pinned)
      && (forall i, j :: 0 <= i < j < |r| && r[i].pinned == r[j].pinned ==> TimeOf(r[i]) >= TimeOf(r[j]))
  {
    var r := SidebarOrder(ns);
    KeepMember(ns, NotCleared());
    forall k | 0 <= k < |r| ensures !r[k].clearedFromSidebar {
      assert r[k] in multiset(r);
      assert r[k] in Visible(ns);
    }
    forall i, j | 0 <= i < j < |r| ensures r[i].pinned || !r[j].pinned {
      assert SidebarLe()(r[i], r[j]);
    }
    forall i, j | 0 <= i < j < |r| && r[i].pinned == r[j].pinned ensures TimeOf(r[i]) >= TimeOf(r[j]) {
      assert SidebarLe()(r[i], r[j]);
    }
  }

  function UnreadOne(n: Notification): int
  {
    if n.read then 0 else 1
  }

  function UnreadVisible(): Notification -> bool
  {
    (n: Notification) => !n.clearedFromSidebar && !n.read
  }

  /**
   * `renderSidebarNotifications`: the visible notifications in sidebar order, the
   * number of unread ones among them, and whether the unread indicators show.
   */
  method RenderSidebar(ns: seq<Notification>) returns (shown: seq<Notification>, unreadCount: nat, indicator: bool)
    ensures shown == SidebarOrder(ns)
    ensures unreadCount == |Keep(ns, UnreadVisible())|
    ensures indicator <==> unreadCount > 0
  {
    var visible := Visible(ns);
    if |visible| == 0 {
      shown, unreadCount, indicator := [], 0, false;
      assert SidebarOrder(ns) == [] by {
        SidebarLeIsTotalPreorder();
        assert |multiset(SidebarOrder(ns))| == 0;
      }
      UnreadCountMeaning(ns, []);
      return;
    }
    shown := SidebarOrder(ns);
    unreadCount := CountUnread(shown);
    UnreadCountMeaning(ns, shown);
    indicator := unreadCount > 0;
  }

  /** The unread counter of the rendering loop. */
  method CountUnread(shown: seq<Notification>) returns (unreadCount: nat)
    ensures unreadCount == Sum(shown, UnreadOne)
  {
    unreadCount := 0;
    var i := 0;
    while i < |shown|
      invariant 0 <= i <= |shown|
      invariant unreadCount == Sum(shown[..i], UnreadOne)
    {
      assert shown[..i + 1][..i] == shown[..i];
      if !shown[i].read {
        unreadCount := unreadCount + 1;
      }
      i := i + 1;
    }
    assert shown[..i] == shown;
  }

  lemma UnreadCountMeaning(ns: seq<Notification>, shown: seq<Notification>)
    requires shown == SidebarOrder(ns)
    ensures Sum(shown, UnreadOne) == |Keep(ns, UnreadVisible())|
  {
    SidebarOrderMeaning(ns);
    SumPermutation(shown, Visible(ns), UnreadOne);
    var h := (n: Notification) => if NotCleared()(n) then UnreadOne(n) else 0;
    SumGuarded(ns, NotCleared(), UnreadOne, h);
    KeepLengthIsSum(ns, UnreadVisible(), h);
  }

  /** Where a click on a sidebar item lands. */
  datatype ClickTarget = PinButton | ImportantButton | ItemLink | Elsewhere

  /** `sidebarNotifications.find(n => n.id === id)`. */
  function FindById(ns: seq<Notification>, id: nat): (r: Option<Notification>)
    ensures r.Some? ==> r.value in ns && r.value.id == id
    ensures r.None? ==> forall k :: 0 <= k < |ns| ==> ns[k].id != id
    decreases |ns|
  {
    if ns == [] then None
    else if ns[0].id == id then Some(ns[0])
    else FindById(ns[1..], id)
  }

  /**
   * The documents after a click: the pin and star buttons write the negation of
   * the flag as the sidebar shows it, the link marks an unread notification read.
   * An update of a document that no longer exists fails and changes nothing.
   */
  function Click(docs: map<nat, Notification>, sidebar: seq<Notification>, id: nat, target: ClickTarget): map<nat, Notification>
  {
    var found := FindById(sidebar, id);
    if found.None? || id !in docs then docs
    else
      var n := found.value;
      match target
      case PinButton => docs[id := Apply(docs[id], SetPinned(!n.pinned))]
      case ImportantButton => docs[id := Apply(docs[id], SetImportant(!n.important))]
      case ItemLink => if !n.read then docs[id := Apply(docs[id], MarkRead)] else docs
      case Elsewhere => docs
  }

  /** An id the sidebar shows. */
  predicate Shown(sidebar: seq<Notification>, id: nat)
  {
    exists k :: 0 <= k < |sidebar| && sidebar[k].id == id
  }

  /** The sidebar item `find` returns for a shown id is the stored document. */
  lemma FoundIsStored(docs: map<nat, Notification>, sidebar: seq<Notification>, id: nat)
    requires Snapshot(docs, sidebar)
    ensures Shown(sidebar, id) <==> FindById(sidebar, id).Some?
    ensures Shown(sidebar, id) ==> id in docs && FindById(sidebar, id) == Some(docs[id])
  {
    var found := FindById(sidebar, id);
    if found.Some? {
      var k :| 0 <= k < |sidebar| && sidebar[k] == found.value;
      assert sidebar[k].id == id;
    }
  }

  /**
   * A click on a sidebar that shows the stored documents changes at most the
   * clicked document and only the one flag; a click on an id the sidebar does
   * not show changes nothing.
   */
  lemma ClickMeaning(docs: map<nat, Notification>, sidebar: seq<Notification>, id: nat, target: ClickTarget)
    requires Snapshot(docs, sidebar)
    ensures var r := Click(docs, sidebar, id, target);
      && r.Keys == docs.Keys
      && (forall i :: i in docs && i != id ==> r[i] == docs[i])
      && (!Shown(sidebar, id) ==> r == docs)
      && (Shown(sidebar, id) && target == PinButton ==> r[id] == docs[id].(pinned := !docs[id].pinned))
      && (Shown(sidebar, id) && target == ImportantButton ==> r[id] == docs[id].(important := !docs[id].important))
      && (Shown(sidebar, id) && target == ItemLink ==> r[id] == docs[id].(read := true))
      && (target == Elsewhere ==> r == docs)
  {
    FoundIsStored(docs, sidebar, id);
  }

  /** Clicking a button twice, the sidebar refreshed in between, restores the documents. */
  lemma ClickTwice(docs: map<nat, Notification>, sidebar: seq<Notification>, refreshed: seq<Notification>,
                   id: nat, target: ClickTarget)
    requires Snapshot(docs, sidebar) && Shown(sidebar, id)
    requires Snapshot(Click(docs, sidebar, id, target), refreshed) && Shown(refreshed, id)
    requires target != ItemLink
    ensures Click(Click(docs, sidebar, id, target), refreshed, id, target) == docs
  {
    var r := Click(docs, sidebar, id, target);
    FoundIsStored(docs, sidebar, id);
    FoundIsStored(r, refreshed, id);
  }

  // ---------------------------------------------------------------------------
  // The notifications page: filters and grouping by date
  // ---------------------------------------------------------------------------

  /** `toLowerCase` on the ASCII letters. */
  function LowerChar(c: char): char
  {
    if 'A' <= c <= 'Z' then (c as int - 'A' as int + 'a' as int) as char else c
  }

  function Lower(s: string): (r: string)
    ensures |r| == |s| && forall k :: 0 <= k < |s| ==> r[k] == LowerChar(s[k])
    decreases |s|
  {
    if s == [] then [] else Lower(s[..|s| - 1]) + [LowerChar(s[|s| - 1])]
  }

  lemma LowerIdempotent(s: string)
    ensures Lower(Lower(s)) == Lower(s)
  {
  }

  /** `s.includes(sub)`: `sub` occurs in `s` at some position. */
  predicate Contains(s: string, sub: string)
    decreases |s|
  {
    if |s| < |sub| then false
    else s[..|sub|] == sub || Contains(s[1..], sub)
  }

  /** The three tests of `applyAndRenderFilters`, the search text already lower-cased. */
  predicate Matches(n: Notification, search: string, status: string, kind: string)
  {
    && (search == [] || Contains(Lower(n.message), search))
    && (status == "all" || (status == "read" && n.read) || (status == "unread" && !n.read))
    && (kind == "all" || n.kind == kind)
  }

  function MatchesP(search: string, status: string, kind: string): Notification -> bool
  {
    (n: Notification) => Matches(n, search, status, kind)
  }

  /** The notifications the page lists for the typed search text and the two selections. */
  function ApplyFilters(all: seq<Notification>, searchInput: string, status: string, kind: string): seq<Notification>
  {
    Keep(all, MatchesP(Lower(searchInput), status, kind))
  }

  /**
   * A notification is listed iff its lower-cased message contains the lower-cased
   * search text (or the search is empty), the status selection is "all" or agrees
   * with its read flag, and the type selection is "all" or its type.
   */
  lemma FiltersMeaning(all: seq<Notification>, searchInput: string, status: string, kind: string, n: Notification)
    ensures n in ApplyFilters(all, searchInput, status, kind) <==>
      && n in all
      && (searchInput == [] || Contains(Lower(n.message), Lower(searchInput)))
      && (status == "all" || (status == "read" && n.read) || (status == "unread" && !n.read))
      && (kind == "all" || n.kind == kind)
  {
    KeepMember(all, MatchesP(Lower(searchInput), status, kind));
  }

  /** With an empty search and both selections at "all", every notification is listed, in order. */
  lemma {:induction false} FiltersDefault(all: seq<Notification>)
    ensures ApplyFilters(all, "", "all", "all") == all
    decreases |all|
  {
    if all != [] {
      FiltersDefault(all[..|all| - 1]);
      assert all == all[..|all| - 1] + [all[|all| - 1]];
    }
  }

  /** The search ignores the case of what was typed. */
  lemma FiltersIgnoreCase(all: seq<Notification>, searchInput: string, status: string, kind: string)
    ensures ApplyFilters(all, Lower(searchInput), status, kind) == ApplyFilters(all, searchInput, status, kind)
  {
    LowerIdempotent(searchInput);
  }

  /** The read and the unread listings split the "all" listing. */
  lemma {:induction false} FiltersReadUnreadSplit(all: seq<Notification>, searchInput: string, kind: string)
    ensures |ApplyFilters(all, searchInput, "read", kind)| + |ApplyFilters(all, searchInput, "unread", kind)|
         == |ApplyFilters(all, searchInput, "all", kind)|
    decreases |all|
  {
    if all != [] {
      FiltersReadUnreadSplit(all[..|all| - 1], searchInput, kind);
    }
  }

  /** The date groups of the page, in display order. */
  datatype DateGroup = Hoje | Ontem | EstaSemana | EsteMes | MaisAntigas

  /**
   * Today as a day number, the day of the week (0 = Sunday) and the day number of
   * the first of the month; `startOfWeek` is the Sunday that begins this week.
   */
  datatype Calendar = Calendar(today: int, weekday: int, monthStart: int)

  function StartOfWeek(cal: Calendar): int
  {
    cal.today - cal.weekday
  }

  /** The group of a notification created on day `day`. */
  function GroupOf(day: int, cal: Calendar): DateGroup
  {
    if day == cal.today then Hoje
    else if day == cal.today - 1 then Ontem
    else if day >= StartOfWeek(cal) then EstaSemana
    else if day >= cal.monthStart then EsteMes
    else MaisAntigas
  }

  function Rank(g: DateGroup): nat
  {
    match g
    case Hoje => 0
    case Ontem => 1
    case EstaSemana => 2
    case EsteMes => 3
    case MaisAntigas => 4
  }

  /** Up to today, an older notification never lands in a more recent group than a newer one. */
  lemma GroupOfMonotone(d1: int, d2: int, cal: Calendar)
    requires d1 <= d2 <= cal.today
    ensures Rank(GroupOf(d1, cal)) >= Rank(GroupOf(d2, cal))
  {
  }

  /** A notification dated after today (a clock ahead of the server) lands in "Esta Semana". */
  lemma GroupOfFuture(d: int, cal: Calendar)
    requires cal.weekday >= 0
    ensures d > cal.today ==> GroupOf(d, cal) == EstaSemana
  {
  }

  /** `dayOf` gives the local calendar day of a timestamp; a pending timestamp has no group. */
  function InGroup(g: DateGroup, cal: Calendar, dayOf: int -> int): Notification -> bool
  {
    (n: Notification) => n.createdAt.Some? && GroupOf(dayOf(n.createdAt.value), cal) == g
  }

  datatype Groups = Groups(
    hoje: seq<Notification>,
    ontem: seq<Notification>,
    estaSemana: seq<Notification>,
    esteMes: seq<Notification>,
    maisAntigas: seq<Notification>)

  /** Each group keeps its notifications in list order. */
  function Grouped(ns: seq<Notification>, cal: Calendar, dayOf: int -> int): Groups
  {
    Groups(Keep(ns, InGroup(Hoje, cal, dayOf)), Keep(ns, InGroup(Ontem, cal, dayOf)),
           Keep(ns, InGroup(EstaSemana, cal, dayOf)), Keep(ns, InGroup(EsteMes, cal, dayOf)),
           Keep(ns, InGroup(MaisAntigas, cal, dayOf)))
  }

  function AllOf(g: Groups): seq<Notification>
  {
    g.hoje + g.ontem + g.estaSemana + g.esteMes + g.maisAntigas
  }

  /** The groups with `n` appended to group `grp`. */
  function AddTo(g: Groups, grp: DateGroup, n: Notification): Groups
  {
    match grp
    case Hoje => g.(hoje := g.hoje + [n])
    case Ontem => g.(ontem := g.ontem + [n])
    case EstaSemana => g.(estaSemana := g.estaSemana + [n])
    case EsteMes => g.(esteMes := g.esteMes + [n])
    case MaisAntigas => g.(maisAntigas := g.maisAntigas + [n])
  }

  lemma AddToMultiset(g: Groups, grp: DateGroup, n: Notification)
    ensures multiset(AllOf(AddTo(g, grp, n))) == multiset(AllOf(g)) + multiset{n}
  {
  }

  lemma GroupedSnoc(ns: seq<Notification>, n: Notification, cal: Calendar, dayOf: int -> int)
    requires n.createdAt.Some?
    ensures Grouped(ns + [n], cal, dayOf) == AddTo(Grouped(ns, cal, dayOf), GroupOf(dayOf(n.createdAt.value), cal), n)
  {
    KeepSnoc(ns, n, InGroup(Hoje, cal, dayOf));
    KeepSnoc(ns, n, InGroup(Ontem, cal, dayOf));
    KeepSnoc(ns, n, InGroup(EstaSemana, cal, dayOf));
    KeepSnoc(ns, n, InGroup(EsteMes, cal, dayOf));
    KeepSnoc(ns, n, InGroup(MaisAntigas, cal, dayOf));
  }

  /** Every notification lands in exactly one group: together the groups hold the list, once each. */
  lemma {:induction false} GroupedPartition(ns: seq<Notification>, cal: Calendar, dayOf: int -> int)
    requires forall k :: 0 <= k < |ns| ==> ns[k].createdAt.Some?
    ensures multiset(AllOf(Grouped(ns, cal, dayOf))) == multiset(ns)
    decreases |ns|
  {
    if ns != [] {
      var init, last := ns[..|ns| - 1], ns[|ns| - 1];
      GroupedPartition(init, cal, dayOf);
      assert ns == init + [last];
      GroupedSnoc(init, last, cal, dayOf);
      AddToMultiset(Grouped(init, cal, dayOf), GroupOf(dayOf(last.createdAt.value), cal), last);
    }
  }

  /**
   * `groupNotificationsByDate`: each notification is pushed to the first group its day fits.
   * Every notification needs a timestamp: `createdAt.toDate()` (notifications.js:402) throws
   * on a pending one, and the page loads only documents the `orderBy('createdAt', 'desc')`
   * query of notifications.js:521 returns, which all carry the field.
   */
  method GroupByDate(ns: seq<Notification>, cal: Calendar, dayOf: int -> int) returns (g: Groups)
    requires forall k :: 0 <= k < |ns| ==> ns[k].createdAt.Some?
    ensures g == Grouped(ns, cal, dayOf)
  {
    g := Groups([], [], [], [], []);
    var i := 0;
    while i < |ns|
      invariant 0 <= i <= |ns|
      invariant g == Grouped(ns[..i], cal, dayOf)
    {
      var n := ns[i];
      var day := dayOf(n.createdAt.value);
      assert ns[..i + 1] == ns[..i] + [n];
      GroupedSnoc(ns[..i], n, cal, dayOf);
      if day == cal.today {
        g := g.(hoje := g.hoje + [n]);
      } else if day == cal.today - 1 {
        g := g.(ontem := g.ontem + [n]);
      } else if day >= StartOfWeek(cal) {
        g := g.(estaSemana := g.estaSemana + [n]);
      } else if day >= cal.monthStart {
        g := g.(esteMes := g.esteMes + [n]);
      } else {
        g := g.(maisAntigas := g.maisAntigas + [n]);
      }
      i := i + 1;
    }
    assert ns[..i] == ns;
  }

  /**
   * `applyAndRenderFilters`: the filtered list, grouped by date. As in `GroupByDate`, the
   * listed notifications carry a timestamp (the `orderBy('createdAt', 'desc')` query of
   * notifications.js:521; `toDate()` at :402 and :448 would throw otherwise).
   */
  method ApplyAndGroup(all: seq<Notification>, searchInput: string, status: string, kind: string,
                       cal: Calendar, dayOf: int -> int) returns (g: Groups)
    requires forall k :: 0 <= k < |ApplyFilters(all, searchInput, status, kind)| ==>
               ApplyFilters(all, searchInput, status, kind)[k].createdAt.Some?
    ensures g == Grouped(ApplyFilters(all, searchInput, status, kind), cal, dayOf)
    ensures multiset(AllOf(g)) == multiset(ApplyFilters(all, searchInput, status, kind))
  {
    var filtered := ApplyFilters(all, searchInput, status, kind);
    g := GroupByDate(filtered, cal, dayOf);
    GroupedPartition(filtered, cal, dayOf);
  }

  function OtherThan(id: nat): Notification -> bool
  {
    (n: Notification) => n.id != id
  }

  function UnreadP(): Notification -> bool
  {
    (n: Notification) => !n.read
  }

  /**
   * Marking all read over a page that lists every stored document: exactly the
   * unread documents become read, and nothing else changes.
   */
  lemma MarkAllReadMeaning(docs: map<nat, Notification>, all: seq<Notification>)
    requires IdsMatch(docs) && Snapshot(docs, all)
    requires forall i :: i in docs ==> docs[i] in all
    ensures var r := UpdateAll(docs, IdsOf(Keep(all, UnreadP())), MarkRead);
      && r.Keys == docs.Keys
      && (forall i :: i in docs ==> r[i] == docs[i].(read := true))
      && (forall i :: i in docs ==> (r[i] != docs[i] <==> !docs[i].read))
  {
    var ids := IdsOf(Keep(all, UnreadP()));
    UpdateAllMeaning(docs, ids, MarkRead);
    forall i | i in docs ensures i in ids <==> !docs[i].read {
      SelectedIds(docs, all, UnreadP(), i);
    }
  }

  // ---------------------------------------------------------------------------
  // The store
  // ---------------------------------------------------------------------------

  class NotificationStore {
    var docs: map<nat, Notification>
    var nextId: nat

    ghost predicate Valid()
      reads this
    {
      WellFormed(Collection(docs, nextId))
    }

    constructor ()
      ensures docs == map[] && nextId == 0
      ensures Valid()
    {
      docs := map[];
      nextId := 0;
    }

    /** `notificationExists`. */
    predicate NotificationExists(relatedId: string, kind: string)
      reads this
    {
      HasKey(docs, Key(relatedId, kind))
    }

    /** `createNotification`: the check, then the insert. */
    method CreateNotification(userId: string, d: NotificationData, now: int)
      requires Valid()
      modifies this
      ensures Valid()
      ensures Collection(docs, nextId) == Create(old(Collection(docs, nextId)), userId, d, now)
    {
      CreateWellFormed(Collection(docs, nextId), userId, d, now);
      var present := NotificationExists(d.relatedId, d.kind);
      if !present {
        docs := docs[nextId := Stored(nextId, userId, d, now)];
        nextId := nextId + 1;
      }
    }

    /** One check: the due-soon query's alerts, then the overdue query's. */
    method CheckContas(side: Side, userId: string, ts: seq<Title>, w: Window, fmt: Formats, now: int)
      requires Valid()
      modifies this
      ensures Valid()
      ensures Collection(docs, nextId) == CreateAll(old(Collection(docs, nextId)), userId, Alerts(side, ts, w, fmt), now)
    {
      ghost var c0 := Collection(docs, nextId);
      CreateDueSoon(side, userId, ts, w, fmt, now);
      CreateOverdue(side, userId, ts, fmt, now);
      CreateAllAppend(c0, userId, DueSoonAlerts(side, ts, w, fmt), OverdueAlerts(side, ts, fmt), now);
    }

    /** The first query's `forEach`: each title due soon with a relevant status gets its alert. */
    method CreateDueSoon(side: Side, userId: string, ts: seq<Title>, w: Window, fmt: Formats, now: int)
      requires Valid()
      modifies this
      ensures Valid()
      ensures Collection(docs, nextId) == CreateAll(old(Collection(docs, nextId)), userId, DueSoonAlerts(side, ts, w, fmt), now)
    {
      ghost var c0 := Collection(docs, nextId);
      var i := 0;
      while i < |ts|
        invariant 0 <= i <= |ts|
        invariant Valid()
        invariant Collection(docs, nextId) == CreateAll(c0, userId, DueSoonAlerts(side, ts[..i], w, fmt), now)
      {
        var a := DueSoonF(side, w, fmt)(ts[i]);
        CreateCollectStep(c0, userId, ts, i, DueSoonF(side, w, fmt), now);
        if a.Some? {
          CreateNotification(userId, a.value, now);
        }
        i := i + 1;
      }
      assert ts[..i] == ts;
    }

    /** The second query's `forEach`: each overdue title gets its alert. */
    method CreateOverdue(side: Side, userId: string, ts: seq<Title>, fmt: Formats, now: int)
      requires Valid()
      modifies this
      ensures Valid()
      ensures Collection(docs, nextId) == CreateAll(old(Collection(docs, nextId)), userId, OverdueAlerts(side, ts, fmt), now)
    {
      ghost var c0 := Collection(docs, nextId);
      var i := 0;
      while i < |ts|
        invariant 0 <= i <= |ts|
        invariant Valid()
        invariant Collection(docs, nextId) == CreateAll(c0, userId, OverdueAlerts(side, ts[..i], fmt), now)
      {
        var o := OverdueF(side, fmt)(ts[i]);
        CreateCollectStep(c0, userId, ts, i, OverdueF(side, fmt), now);
        if o.Some? {
          CreateNotification(userId, o.value, now);
        }
        i := i + 1;
      }
      assert ts[..i] == ts;
    }

    /** `checkContasAPagar` over the payables (despesas). */
    method CheckContasAPagar(userId: string, despesas: seq<Title>, w: Window, fmt: Formats, now: int)
      requires Valid()
      modifies this
      ensures Valid()
      ensures Collection(docs, nextId) == CreateAll(old(Collection(docs, nextId)), userId, Alerts(Pagar, despesas, w, fmt), now)
    {
      CheckContas(Pagar, userId, despesas, w, fmt, now);
    }

    /** `checkContasAReceber` over the receivables (receitas). */
    method CheckContasAReceber(userId: string, receitas: seq<Title>, w: Window, fmt: Formats, now: int)
      requires Valid()
      modifies this
      ensures Valid()
      ensures Collection(docs, nextId) == CreateAll(old(Collection(docs, nextId)), userId, Alerts(Receber, receitas, w, fmt), now)
    {
      CheckContas(Receber, userId, receitas, w, fmt, now);
    }

    /** A batch of updates: it fails as a whole, changing nothing, when a listed document is missing. */
    method CommitBatch(ids: seq<nat>, u: Update) returns (committed: bool)
      requires Valid()
      modifies this
      ensures Valid()
      ensures committed <==> forall k :: 0 <= k < |ids| ==> ids[k] in old(docs)
      ensures docs == (if committed then UpdateAll(old(docs), ids, u) else old(docs))
      ensures nextId == old(nextId)
    {
      committed := forall k :: 0 <= k < |ids| ==> ids[k] in docs;
      if committed {
        UpdateAllWellFormed(Collection(docs, nextId), ids, u);
        docs := UpdateAll(docs, ids, u);
      }
    }

    /** The clear button: counts and batches the visible notifications to clear; commits only when there are any. */
    method ClearSidebar(sidebar: seq<Notification>, clearPinned: bool, clearImportant: bool)
      returns (count: nat, committed: bool)
      requires Valid()
      modifies this
      ensures Valid()
      ensures count == |ClearTargets(sidebar, clearPinned, clearImportant)|
      ensures committed ==> count > 0
      ensures committed <==> count > 0 && forall t :: t in ClearTargets(sidebar, clearPinned, clearImportant) ==> t.id in old(docs)
      ensures docs == (if committed then UpdateAll(old(docs), IdsOf(ClearTargets(sidebar, clearPinned, clearImportant)), ClearFromSidebar)
                       else old(docs))
      ensures nextId == old(nextId)
    {
      var batch;
      batch, count := ClearSelection(sidebar, clearPinned, clearImportant);
      IdsOfStored(docs, ClearTargets(sidebar, clearPinned, clearImportant));
      if count > 0 {
        committed := CommitBatch(batch, ClearFromSidebar);
      } else {
        committed := false;
      }
    }

    /** "Mark all as read": batches the unread notifications of the page; with none, nothing is written. */
    method MarkAllRead(all: seq<Notification>) returns (unreadIds: seq<nat>, committed: bool)
      requires Valid()
      modifies this
      ensures Valid()
      ensures unreadIds == IdsOf(Keep(all, UnreadP()))
      ensures committed <==> unreadIds != [] && forall k :: 0 <= k < |unreadIds| ==> unreadIds[k] in old(docs)
      ensures docs == (if committed then UpdateAll(old(docs), unreadIds, MarkRead) else old(docs))
      ensures nextId == old(nextId)
    {
      unreadIds := IdsOf(Keep(all, UnreadP()));
      if |unreadIds| == 0 {
        committed := false;
        return;
      }
      committed := CommitBatch(unreadIds, MarkRead);
    }

    /** The delete button: after confirmation the document goes, and so does its row. */
    method DeleteNotification(all: seq<Notification>, id: nat, confirmed: bool) returns (remaining: seq<Notification>)
      requires Valid()
      modifies this
      ensures Valid()
      ensures docs == (if confirmed then old(docs) - {id} else old(docs)) && nextId == old(nextId)
      ensures remaining == (if confirmed then Keep(all, OtherThan(id)) else all)
    {
      if confirmed {
        docs := docs - {id};
        remaining := Keep(all, OtherThan(id));
      } else {
        remaining := all;
      }
    }

    /** A click in the sidebar list. */
    method HandleItemClick(sidebar: seq<Notification>, id: nat, target: ClickTarget)
      requires Valid()
      modifies this
      ensures Valid()
      ensures docs == Click(old(docs), sidebar, id, target) && nextId == old(nextId)
    {
      var found := FindById(sidebar, id);
      if found.None? || id !in docs {
        return;
      }
      var n := found.value;
      var u: Update;
      match target {
        case PinButton => u := SetPinned(!n.pinned);
        case ImportantButton => u := SetImportant(!n.important);
        case ItemLink =>
          if n.read {
            return;
          }
          u := MarkRead;
        case Elsewhere => return;
      }
      UpdateAllWellFormed(Collection(docs, nextId), [id], u);
      assert UpdateAll(docs, [id], u) == docs[id := Apply(docs[id], u)] by {
        assert [id][..0] == [];
      }
      docs := docs[id := Apply(docs[id], u)];
    }
  }
}
