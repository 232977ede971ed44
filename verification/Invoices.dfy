/** Invoice events that arrive out of order, more than once, or malformed. */
module Invoices {
  import opened CreditModel

  datatype InvoiceStatus = Draft | Open | Paid | Uncollectible | Void

  function StatusRank(status: InvoiceStatus): nat {
    match status
    case Draft => 0
    case Open => 1
    case Paid => 2
    case Uncollectible => 2
    case Void => 2
  }

  datatype Amounts = Amounts(subtotal: int, total: int, due: int, paid: int, remaining: int)

  datatype Details = Details(
    number: Option<string>,
    periodStarted: Option<Time>,
    periodEnds: Option<Time>,
    paidAt: Option<Time>,
    hostedUrl: Option<string>,
    pdfUrl: Option<string>)

  /** The fields read from an event's invoice; None where the field is missing or unusable. */
  datatype Invoice = Invoice(
    id: string,
    customer: Option<string>,
    status: Option<InvoiceStatus>,
    currency: Option<string>,
    amounts: Option<Amounts>,
    created: Option<Time>,
    details: Details)

  /** The local subscription an event resolved to. */
  datatype Holder = Holder(subscription: Id, business: Id, customer: Option<string>)

  datatype Delivery = Delivery(invoice: Invoice, holder: Holder, event: string, time: Time)

  datatype Row = Row(
    subscription: Id,
    business: Id,
    customer: string,
    status: InvoiceStatus,
    currency: string,
    amounts: Amounts,
    created: Time,
    details: Details,
    time: Time,
    event: string)

  datatype Outcome = Stored(row: Row) | Skipped | Refused

  /** Capital letters in place of small ones, character by character. */
  function Upper(s: string): (u: string)
    ensures |u| == |s| && forall i | 0 <= i < |s| :: u[i] as int == if 97 <= s[i] as int <= 122 then s[i] as int - 32 else s[i] as int
  {
    if s == "" then ""
    else [if 'a' <= s[0] <= 'z' then s[0] - 'a' + 'A' else s[0]] + Upper(s[1..])
  }

  predicate UsableCurrency(invoice: Invoice) {
    invoice.currency.Some? && |Upper(invoice.currency.value)| == 3
  }

  /** The row that a usable event writes. */
  function RowOf(d: Delivery): Row
    requires Usable(d)
  {
    var i := d.invoice;
    Row(d.holder.subscription, d.holder.business, i.customer.value, i.status.value, Upper(i.currency.value),
        i.amounts.value, i.created.value, i.details, d.time, d.event)
  }

  /** The event passes every validation that does not look at the stored row. */
  predicate Usable(d: Delivery) {
    && d.invoice.customer.Some? && d.invoice.customer == d.holder.customer
    && d.invoice.status.Some?
    && d.invoice.currency.Some? && |d.invoice.currency.value| == 3
    && d.invoice.amounts.Some?
    && d.invoice.created.Some?
  }

  /** The row holds the event's own fields, each in its column, and the event's time and id. */
  predicate Reports(row: Row, d: Delivery) {
    && row.subscription == d.holder.subscription && row.business == d.holder.business
    && d.invoice.customer == Some(row.customer) && d.invoice.status == Some(row.status)
    && d.invoice.amounts == Some(row.amounts) && d.invoice.created == Some(row.created)
    && row.details == d.invoice.details && row.time == d.time && row.event == d.event
    && d.invoice.currency.Some? && |row.currency| == |d.invoice.currency.value|
    && forall i | 0 <= i < |row.currency| ::
         row.currency[i] as int == (var c := d.invoice.currency.value[i] as int; if 97 <= c <= 122 then c - 32 else c)
  }

  function Upsert(local: Option<Row>, d: Delivery): Outcome {
    var i := d.invoice;
    if local.Some? && d.time < local.value.time then Skipped
    else if i.customer == None || i.customer != d.holder.customer then Refused
    else if i.status == None then Refused
    else if local.Some? && d.time == local.value.time && StatusRank(i.status.value) < StatusRank(local.value.status) then Skipped
    else if !UsableCurrency(i) then Refused
    else if i.amounts == None || i.created == None then Refused
    else if local.Some? && (local.value.subscription != d.holder.subscription || local.value.business != d.holder.business) then Refused
    else Stored(RowOf(d))
  }

  /** A refused or skipped event leaves the row as it was. */
  function Apply(local: Option<Row>, d: Delivery): Option<Row> {
    match Upsert(local, d) case Stored(row) => Some(row) case _ => local
  }

  function Deliver(ds: seq<Delivery>): Option<Row> {
    if ds == [] then None else Apply(Deliver(ds[..|ds| - 1]), ds[|ds| - 1])
  }

  // ---------------------------------------------------------------- the order of events

  /** A draft comes before any other status, and an open invoice before a paid, uncollectible or void one. */
  predicate Precedes(a: InvoiceStatus, b: InvoiceStatus) {
    (a == Draft && b != Draft) || (a == Open && b in {Paid, Uncollectible, Void})
  }

  /** Event time first, then the status. */
  predicate Before(a: Delivery, b: Delivery)
    requires Usable(a) && Usable(b)
  {
    a.time < b.time || (a.time == b.time && Precedes(a.invoice.status.value, b.invoice.status.value))
  }

  ghost predicate OneHolder(ds: seq<Delivery>) {
    forall a, b | a in ds && b in ds :: a.holder.subscription == b.holder.subscription && a.holder.business == b.holder.business
  }

  ghost predicate Latest(ds: seq<Delivery>, d: Delivery) {
    d in ds && Usable(d) && forall e | e in ds && Usable(e) :: !Before(d, e)
  }

  /** The usable event at i is a maximum, and every later usable event is strictly smaller. */
  ghost predicate LastLatest(ds: seq<Delivery>, i: nat) {
    && i < |ds| && Usable(ds[i])
    && (forall j | 0 <= j < |ds| && Usable(ds[j]) :: !Before(ds[i], ds[j]))
    && (forall j | i < j < |ds| && Usable(ds[j]) :: Before(ds[j], ds[i]))
  }

  ghost predicate Holds(local: Option<Row>, ds: seq<Delivery>) {
    match local
    case None => forall d | d in ds :: !Usable(d)
    case Some(row) => exists i: nat :: LastLatest(ds, i) && row == RowOf(ds[i]) && Reports(row, ds[i])
  }

  lemma LatestStep(ds: seq<Delivery>, d: Delivery, i: nat)
    requires LastLatest(ds, i)
    ensures !Usable(d) || Before(d, ds[i]) ==> LastLatest(ds + [d], i)
    ensures Usable(d) && !Before(d, ds[i]) ==> LastLatest(ds + [d], |ds|)
  {
    hide Usable;
    var next := ds + [d];
    assert forall j | 0 <= j < |ds| :: next[j] == ds[j];
    assert next[|ds|] == d;
  }

  /**
    After any deliveries the stored row is that of the last usable event among those of greatest event time and
    status rank; there is no row exactly when no event was usable.
    */
  lemma {:induction false} StoredIsLatest(ds: seq<Delivery>)
    requires OneHolder(ds)
    ensures Holds(Deliver(ds), ds)
  {
    if ds != [] {
      var before, d := ds[..|ds| - 1], ds[|ds| - 1];
      assert ds == before + [d];
      forall a, b | a in before && b in before ensures a.holder.subscription == b.holder.subscription && a.holder.business == b.holder.business {
        assert a in ds && b in ds;
      }
      StoredIsLatest(before);
      var local := Deliver(before);
      if local.Some? {
        var i: nat :| LastLatest(before, i) && local.value == RowOf(before[i]);
        assert before[i] in ds && d in ds;
        UpsertDecides(before[i], d);
        LatestStep(before, d, i);
        RowReports(d);
        RowReports(before[i]);
        hide LastLatest, Usable, RowOf, Upsert, OneHolder, Reports;
        assert ds[i] == before[i];
        assert ds[|before|] == d;
      } else {
        FirstUsable(before, d);
      }
    }
  }

  /** Against the row of an earlier usable event, a new one is stored unless it is unusable or strictly older. */
  lemma UpsertDecides(a: Delivery, d: Delivery)
    requires Usable(a) && a.holder.subscription == d.holder.subscription && a.holder.business == d.holder.business
    ensures Apply(Some(RowOf(a)), d) == if !Usable(d) || Before(d, a) then Some(RowOf(a)) else Some(RowOf(d))
  {
  }

  /** The event is older than the stored row, or as old and of an earlier status. */
  predicate Outdated(local: Option<Row>, d: Delivery) {
    && local.Some?
    && (d.time < local.value.time
        || (d.time == local.value.time && d.invoice.status.Some? && Precedes(d.invoice.status.value, local.value.status)))
  }

  /** An event is refused for another customer or tenant and for missing fields, unless it is outdated before that shows. */
  lemma RefusesExactlyWhen(local: Option<Row>, d: Delivery)
    ensures local.Some? && d.time < local.value.time ==> Upsert(local, d) == Skipped
    ensures !(local.Some? && d.time < local.value.time) ==>
      (Upsert(local, d) == Refused <==>
         || d.invoice.customer == None || d.invoice.customer != d.holder.customer || d.invoice.status == None
         || (!Outdated(local, d)
             && (!Usable(d) || (local.Some? && (local.value.subscription, local.value.business) != (d.holder.subscription, d.holder.business)))))
    ensures Upsert(local, d).Stored? ==> Usable(d) && !Outdated(local, d) && Upsert(local, d).row == RowOf(d)
  {
  }

  lemma RowReports(d: Delivery)
    ensures Usable(d) ==> Reports(RowOf(d), d)
  {
  }

  lemma FirstUsable(before: seq<Delivery>, d: Delivery)
    requires forall e | e in before :: !Usable(e)
    ensures Holds(Apply(None, d), before + [d])
  {
    var ds := before + [d];
    RowReports(d);
    if Usable(d) {
      assert ds[|before|] == d;
      assert forall j | 0 <= j < |before| :: ds[j] in before;
      assert LastLatest(ds, |before|);
    }
  }

  lemma LastIsLatest(ds: seq<Delivery>, i: nat)
    requires LastLatest(ds, i)
    ensures Latest(ds, ds[i])
  {
    forall e | e in ds && Usable(e) ensures !Before(ds[i], e) {
      var j :| 0 <= j < |ds| && ds[j] == e;
    }
  }

  ghost predicate SameEvents(ds: seq<Delivery>, es: seq<Delivery>) {
    forall d :: d in ds <==> d in es
  }

  /** The latest events agree on what they store. */
  ghost predicate Untied(ds: seq<Delivery>) {
    forall a, b | Latest(ds, a) && Latest(ds, b) :: RowOf(a) == RowOf(b)
  }

  ghost predicate Converges(ds: seq<Delivery>) {
    forall es | SameEvents(ds, es) :: Deliver(es) == Deliver(ds)
  }

  lemma StoredAmongLatest(ds: seq<Delivery>) returns (d: Delivery)
    requires OneHolder(ds) && Deliver(ds).Some?
    ensures Latest(ds, d) && Deliver(ds).value == RowOf(d)
  {
    StoredIsLatest(ds);
    var i: nat :| LastLatest(ds, i) && Deliver(ds).value == RowOf(ds[i]);
    LastIsLatest(ds, i);
    d := ds[i];
  }

  /** Moving a latest event to the end makes its row the stored one. */
  lemma LastWins(ds: seq<Delivery>, d: Delivery)
    requires OneHolder(ds) && Latest(ds, d)
    ensures SameEvents(ds, ds + [d]) && Deliver(ds + [d]) == Some(RowOf(d))
  {
    var es := ds + [d];
    assert SameEvents(ds, es) by {
      forall e ensures e in ds <==> e in es {
      }
    }
    assert es[..|es| - 1] == ds;
    StoredIsLatest(ds);
    if Deliver(ds).Some? {
      var w := StoredAmongLatest(ds);
      assert !Before(d, w) && !Before(w, d);
    }
  }

  /**
    Deliveries of the same events, in any order and with any repetition, store the same row exactly when the events
    that share the greatest time and rank agree on the row.
    */
  lemma {:induction false} ConvergesExactlyWhen(ds: seq<Delivery>)
    requires OneHolder(ds)
    ensures Converges(ds) <==> Untied(ds)
  {
    if Converges(ds) {
      forall a, b | Latest(ds, a) && Latest(ds, b) ensures RowOf(a) == RowOf(b) {
        LastWins(ds, a);
        LastWins(ds, b);
      }
    }
    if Untied(ds) {
      forall es | SameEvents(ds, es) ensures Deliver(es) == Deliver(ds) {
        SameLatest(ds, es);
      }
    }
  }

  lemma {:induction false} SameLatest(ds: seq<Delivery>, es: seq<Delivery>)
    requires OneHolder(ds) && SameEvents(ds, es) && Untied(ds)
    ensures Deliver(es) == Deliver(ds)
  {
    assert OneHolder(es);
    StoredIsLatest(ds);
    StoredIsLatest(es);
    if Deliver(ds).Some? {
      var a := StoredAmongLatest(ds);
      assert a in es;
      var b := StoredAmongLatest(es);
      assert Latest(ds, b);
    } else if Deliver(es).Some? {
      var b := StoredAmongLatest(es);
    }
  }
}
