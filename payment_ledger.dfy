/**
 * The durable payment ledger: one row per (payment hash, direction), and the
 * reconciliation of the engine's asynchronous success/failure notifications
 * into a row.
 */
module PaymentLedger {
  import opened Wrappers

  datatype PaymentStatus = Pending | Complete | Failed

  datatype LightningPayment = LightningPayment(
    paymentHash: string,
    inbound: bool,
    paymentId: string,
    preimage: Option<string>,
    secret: Option<string>,
    status: PaymentStatus,
    timestamp: int,
    value: int)

  /** The table's primary key. */
  datatype PaymentKey = PaymentKey(paymentHash: string, inbound: bool)

  type Ledger = map<PaymentKey, LightningPayment>

  function KeyOf(p: LightningPayment): PaymentKey
  {
    PaymentKey(p.paymentHash, p.inbound)
  }

  /** Every row is stored under its own key. */
  ghost predicate WellKeyed(ledger: Ledger)
  {
    forall k :: k in ledger ==> KeyOf(ledger[k]) == k
  }

  /** A notification about a payment: whether it failed, and the preimage it carries. */
  datatype Notification = Notification(failure: bool, preimage: Option<string>)

  /**
   * The row after one notification. A failure on a completed payment is stale and
   * ignored; otherwise the status follows the notification and the preimage is
   * written only if the row has none yet.
   */
  function Reconcile(p: LightningPayment, n: Notification): (r: LightningPayment)
    ensures KeyOf(r) == KeyOf(p) && r.paymentId == p.paymentId
    ensures r.secret == p.secret && r.timestamp == p.timestamp && r.value == p.value
    ensures n.failure && p.status == Complete ==> r == p
    ensures !(n.failure && p.status == Complete) ==> r.status == (if n.failure then Failed else Complete)
    ensures p.preimage.Some? ==> r.preimage == p.preimage
    ensures p.preimage.None? && !(n.failure && p.status == Complete) ==> r.preimage == n.preimage
  {
    if n.failure && p.status == Complete then p
    else p.(status := if n.failure then Failed else Complete, preimage := if p.preimage.Some? then p.preimage else n.preimage)
  }

  function ReconcileAll(p: LightningPayment, ns: seq<Notification>): LightningPayment
    decreases |ns|
  {
    if ns == [] then p else ReconcileAll(Reconcile(p, ns[0]), ns[1..])
  }

  /** Complete is terminal: no sequence of later notifications, late failures included, moves a payment out of it. */
  lemma {:induction false} CompleteIsTerminal(p: LightningPayment, ns: seq<Notification>)
    requires p.status == Complete
    ensures ReconcileAll(p, ns).status == Complete
    decreases |ns|
  {
    if ns != [] {
      CompleteIsTerminal(Reconcile(p, ns[0]), ns[1..]);
    }
  }

  /** Once a preimage is recorded, no sequence of notifications changes it. */
  lemma {:induction false} PreimageWrittenOnce(p: LightningPayment, ns: seq<Notification>)
    requires p.preimage.Some?
    ensures ReconcileAll(p, ns).preimage == p.preimage
    decreases |ns|
  {
    if ns != [] {
      PreimageWrittenOnce(Reconcile(p, ns[0]), ns[1..]);
    }
  }

  /** Of two notifications with preimages for a pending payment, the first preimage is kept. */
  lemma FirstPreimageWins(p: LightningPayment, first: Notification, second: Notification)
    requires p.status == Pending && p.preimage.None?
    requires first.preimage.Some? && second.preimage.Some?
    ensures ReconcileAll(p, [first, second]).preimage == first.preimage
  {
    assert [first, second][1..] == [second];
    var q := Reconcile(p, first);
    assert q.preimage == first.preimage;
    PreimageWrittenOnce(q, [second]);
  }

  /** Payment(): insert the row, or replace the row with the same (hash, direction). */
  function Upsert(ledger: Ledger, p: LightningPayment): (r: Ledger)
    ensures WellKeyed(ledger) ==> WellKeyed(r)
    ensures KeyOf(p) in r && r[KeyOf(p)] == p
    ensures r.Keys == ledger.Keys + {KeyOf(p)}
    ensures forall k :: k in ledger && k != KeyOf(p) ==> r[k] == ledger[k]
  {
    ledger[KeyOf(p) := p]
  }

  /**
   * The single row matching hash, direction and payment id, if any. The key makes
   * the match unique, so the query's "more than one row" error cannot arise.
   */
  function Find(ledger: Ledger, paymentHash: string, inbound: bool, paymentId: string): (r: Option<LightningPayment>)
    ensures r.Some? <==> PaymentKey(paymentHash, inbound) in ledger
                         && ledger[PaymentKey(paymentHash, inbound)].paymentId == paymentId
    ensures r.Some? ==> r.value == ledger[PaymentKey(paymentHash, inbound)]
  {
    var k := PaymentKey(paymentHash, inbound);
    if k in ledger && ledger[k].paymentId == paymentId then Some(ledger[k]) else None
  }

  /** The row the query asks for: same payment hash, direction and payment id. */
  predicate Matches(p: LightningPayment, paymentHash: string, inbound: bool, paymentId: string)
  {
    p.paymentHash == paymentHash && p.inbound == inbound && p.paymentId == paymentId
  }

  /**
   * On a table whose rows sit under their own keys, the keyed lookup is the
   * three-field query: it finds a row iff some row matches, and any matching row
   * is the one it finds, so the match is single.
   */
  lemma FindIsQuery(ledger: Ledger, paymentHash: string, inbound: bool, paymentId: string)
    requires WellKeyed(ledger)
    ensures Find(ledger, paymentHash, inbound, paymentId).Some? <==>
              exists k :: k in ledger && Matches(ledger[k], paymentHash, inbound, paymentId)
    ensures forall k :: k in ledger && Matches(ledger[k], paymentHash, inbound, paymentId) ==>
              Find(ledger, paymentHash, inbound, paymentId) == Some(ledger[k])
  {
    var key := PaymentKey(paymentHash, inbound);
    forall k | k in ledger && Matches(ledger[k], paymentHash, inbound, paymentId)
      ensures k == key
    {
      assert KeyOf(ledger[k]) == k;
    }
    if Find(ledger, paymentHash, inbound, paymentId).Some? {
      assert Matches(ledger[key], paymentHash, inbound, paymentId);
    }
  }

  /** A row just upserted is found by its own hash, direction and payment id. */
  lemma FindAfterUpsert(ledger: Ledger, p: LightningPayment)
    ensures Find(Upsert(ledger, p), p.paymentHash, p.inbound, p.paymentId) == Some(p)
  {
  }
}
