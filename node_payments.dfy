/**
 * server/routes/payments.js: the payment ledger of an invoice. Recording a
 * payment adds its amount to the invoice's `paid_amount`; deleting one
 * recomputes `paid_amount` as the sum of the payments left. Both derive the
 * invoice's status from the new amount.
 *
 * JavaScript's `parseFloat` of a NULL total is NaN, and every comparison with
 * NaN is false: a missing total is modelled as `None` and the comparisons are
 * written out for it.
 */
module NodePayments {
  import opened Wrappers
  import Tables
  import Grouping
  import opened NodeDb

  const InvoiceNotFound: string := "Invoice not found"
  const InvalidAmount: string := "Valid payment amount is required"
  const PaymentNotFound: string := "Payment not found"
  const Unauthorized: string := "Unauthorized"

  function PaymentInvoice(p: Payment): int
  {
    p.invoiceId
  }

  function PaymentAmount(p: Payment): real
  {
    p.amount
  }

  /** `COALESCE(SUM(amount), 0) ... WHERE invoice_id = $1`. */
  function PaidOn(payments: seq<Payment>, invoiceId: int): real
  {
    Grouping.SumKey(payments, PaymentInvoice, invoiceId, PaymentAmount)
  }

  /**
   * The ledger the two handlers keep: every payment is positive, a payment id
   * names one invoice, and each invoice's `paid_amount` is the sum of its
   * payments.
   */
  ghost predicate LedgerOf(invoices: map<int, NInvoice>, payments: seq<Payment>)
  {
    (forall p :: p in payments ==> p.amount > 0.0)
    && (forall p, q :: p in payments && q in payments && p.id == q.id ==> p.invoiceId == q.invoiceId)
    && (forall id :: id in invoices ==> invoices[id].paidAmount == PaidOn(payments, id))
  }

  ghost predicate Ledger(db: NodeDatabase)
    reads db
  {
    LedgerOf(db.invoices, db.payments)
  }

  predicate OwnsInvoice(db: NodeDatabase, user: int, id: int)
    reads db
  {
    id in db.invoices && db.invoices[id].userId == Some(user)
  }

  // ---------------------------------------------------------------------------
  // Listing.

  /** A payment with `u.email AS created_by_email`, NULL when no user matches. */
  datatype PaymentView = PaymentView(payment: Payment, createdByEmail: Option<string>)

  function ViewOf(db: NodeDatabase, p: Payment): PaymentView
    reads db
  {
    PaymentView(p, if p.createdBy in db.users then Some(db.users[p.createdBy].email) else None)
  }

  /**
   * `ORDER BY pt.payment_date DESC, pt.created_at DESC`: later payment dates
   * first, and among payments of one date the later recorded one, which holds
   * the higher serial id.
   */
  predicate LaterFirst(a: Payment, b: Payment)
  {
    a.paymentDate > b.paymentDate || (a.paymentDate == b.paymentDate && a.id >= b.id)
  }

  /** The payments of one invoice, in the order of `payments`, each with its recorder's email. */
  function ViewsOf(db: NodeDatabase, payments: seq<Payment>, invoiceId: int): (r: seq<PaymentView>)
    reads db
    ensures forall v :: v in r ==> v.payment in payments && v.payment.invoiceId == invoiceId && v == ViewOf(db, v.payment)
    ensures forall p :: p in payments && p.invoiceId == invoiceId ==> ViewOf(db, p) in r
    ensures Tables.SortedBy(payments, LaterFirst) ==>
              forall i, j :: 0 <= i < j < |r| ==> LaterFirst(r[i].payment, r[j].payment)
  {
    if payments == [] then []
    else
      var rest := ViewsOf(db, payments[1..], invoiceId);
      assert Tables.SortedBy(payments, LaterFirst) ==>
               forall v :: v in rest ==> LaterFirst(payments[0], v.payment) by {
        if Tables.SortedBy(payments, LaterFirst) {
          forall v | v in rest ensures LaterFirst(payments[0], v.payment) {
            var k :| 0 <= k < |payments[1..]| && payments[1..][k] == v.payment;
            assert payments[k + 1] == v.payment;
          }
        }
      }
      (if payments[0].invoiceId == invoiceId then [ViewOf(db, payments[0])] else []) + rest
  }

  /** `GET /api/invoices/:invoiceId/payments`: 404 unless the user owns the invoice. */
  function ListPayments(db: NodeDatabase, user: int, invoiceId: int): (r: Outcome<seq<PaymentView>>)
    reads db
    ensures r.Ok? <==> OwnsInvoice(db, user, invoiceId)
    ensures r.Fail? ==> r == Fail(404, InvoiceNotFound)
    ensures r.Ok? ==> forall v :: v in r.value ==> v.payment in db.payments && v.payment.invoiceId == invoiceId && v == ViewOf(db, v.payment)
    ensures r.Ok? ==> forall p :: p in db.payments && p.invoiceId == invoiceId ==> ViewOf(db, p) in r.value
    ensures r.Ok? ==> forall i, j :: 0 <= i < j < |r.value| ==> LaterFirst(r.value[i].payment, r.value[j].payment)
  {
    if !OwnsInvoice(db, user, invoiceId) then Fail(404, InvoiceNotFound)
    else
      assert Tables.TotalPreorder(db.payments, LaterFirst);
      Ok(ViewsOf(db, Tables.OrderBy(db.payments, LaterFirst), invoiceId))
  }

  // ---------------------------------------------------------------------------
  // Recording.

  /** The status after recording: 'paid', else 'partially_paid' when anything is paid, else unchanged. */
  function RecordedStatus(newPaid: real, total: Option<real>, current: Option<string>): Option<string>
  {
    if total.Some? && newPaid >= total.value then Some("paid")
    else if newPaid > 0.0 then Some("partially_paid")
    else current
  }

  /** A recorded payment always leaves the invoice 'paid' or 'partially_paid', 'paid' exactly when the total is reached. */
  lemma RecordedStatusSettled(newPaid: real, total: Option<real>, current: Option<string>)
    requires newPaid > 0.0
    ensures RecordedStatus(newPaid, total, current) == Some("paid") || RecordedStatus(newPaid, total, current) == Some("partially_paid")
    ensures RecordedStatus(newPaid, total, current) == Some("paid") <==> total.Some? && newPaid >= total.value
  {
  }

  /** The body of a payment request. */
  datatype PaymentInput = PaymentInput(
    amount: Option<real>, paymentDate: Option<int>, paymentMethod: Option<string>,
    reference: Option<string>, notes: Option<string>)

  /** `payment_date || new Date()`: the day sent, or today. */
  function PaymentDate(input: PaymentInput, today: int): int
  {
    if input.paymentDate.Some? then input.paymentDate.value else today
  }

  /** `!amount || amount <= 0` rejects the request. */
  predicate ValidAmount(amount: Option<real>)
  {
    amount.Some? && amount.value > 0.0
  }

  /** The answer: the payment and the invoice's new figures, or the 400 that names the largest acceptable payment. */
  datatype RecordAnswer =
    | Recorded(payment: Payment, paidAmount: real, status: Option<string>, remaining: Option<real>)
    | Exceeds(total: real, alreadyPaid: real, maxPayment: real)

  /** `newPaidAmount > total`, false when the total is NaN. */
  predicate Overpays(newPaid: real, total: Option<real>)
  {
    total.Some? && newPaid > total.value
  }

  /** Appending a payment and updating its invoice keep the ledger. */
  lemma RecordKeepsLedger(invoices: map<int, NInvoice>, payments: seq<Payment>, p: Payment)
    requires LedgerOf(invoices, payments)
    requires p.invoiceId in invoices && p.amount > 0.0
    requires forall q :: q in payments ==> q.id != p.id
    ensures LedgerOf(invoices[p.invoiceId := Settled(invoices[p.invoiceId], p.amount)], payments + [p])
  {
    forall id | id in invoices
      ensures PaidOn(payments + [p], id) == PaidOn(payments, id) + (if p.invoiceId == id then p.amount else 0.0)
    {
      Grouping.SumKeySnoc(payments, p, PaymentInvoice, id, PaymentAmount);
    }
  }

  /** The invoice row once a payment of `amount` is recorded against it. */
  function Settled(inv: NInvoice, amount: real): (row: NInvoice)
  {
    inv.(paidAmount := inv.paidAmount + amount, status := RecordedStatus(inv.paidAmount + amount, inv.total, inv.status))
  }

  /** `total - newPaidAmount`, NaN (`None`) when the total is. */
  function Remaining(total: Option<real>, paid: real): Option<real>
  {
    if total.Some? then Some(total.value - paid) else None
  }

  /** The writes of a recorded payment that reached COMMIT. */
  method CommitPayment(db: NodeDatabase, p: Payment, entry: Activity)
    requires db.Valid() && p.invoiceId in db.invoices && p.amount > 0.0
    requires forall q :: q in db.payments ==> q.id != p.id
    modifies db`invoices, db`payments, db`activity
    ensures db.Valid()
    ensures old(Ledger(db)) ==> Ledger(db)
    ensures db.payments == old(db.payments) + [p] && db.activity == old(db.activity) + [entry]
    ensures db.invoices == old(db.invoices)[p.invoiceId := Settled(old(db.invoices[p.invoiceId]), p.amount)]
  {
    var row := Settled(db.invoices[p.invoiceId], p.amount);
    ghost var invoices, payments := db.invoices, db.payments;
    assert row.id == p.invoiceId;
    WritePayment(db, row, p);
    db.activity := db.activity + [entry];
    if LedgerOf(invoices, payments) {
      RecordKeepsLedger(invoices, payments, p);
    }
  }

  /** The payment insert and the invoice update, which keep every reference to an invoice resolvable. */
  method WritePayment(db: NodeDatabase, row: NInvoice, p: Payment)
    requires db.Valid() && p.invoiceId in db.invoices && row.id == p.invoiceId
    modifies db`invoices, db`payments
    ensures db.Valid()
    ensures db.payments == old(db.payments) + [p] && db.invoices == old(db.invoices)[p.invoiceId := row]
  {
    db.invoices := db.invoices[p.invoiceId := row];
    assert db.invoices.Keys == old(db.invoices).Keys;
    db.payments := db.payments + [p];
  }

  /**
   * `POST /api/invoices/:invoiceId/payments`. The amount is checked before
   * the transaction. Statements: 0 BEGIN, 1 read the user's invoice (none is
   * a 404; an overpayment a 400 that writes nothing), 2 insert the payment,
   * 3 update the invoice, 4 the activity row, 5 COMMIT.
   */
  method RecordPayment(db: NodeDatabase, user: int, invoiceId: int, input: PaymentInput, today: int, fault: Option<nat>)
    returns (r: Outcome<RecordAnswer>)
    requires db.Valid()
    modifies db`invoices, db`payments, db`activity
    ensures db.Valid()
    ensures old(Ledger(db)) ==> Ledger(db)
    ensures !ValidAmount(input.amount) ==> r == Fail(400, InvalidAmount)
    ensures ValidAmount(input.amount) && Aborts(fault, 2) ==> r == Fail(500, DbError)
    ensures ValidAmount(input.amount) && !Aborts(fault, 2) && !old(OwnsInvoice(db, user, invoiceId)) ==> r == Fail(404, InvoiceNotFound)
    ensures r.Ok? && r.value.Exceeds? <==>
              (ValidAmount(input.amount) && !Aborts(fault, 2) && old(OwnsInvoice(db, user, invoiceId))
               && Overpays(old(db.invoices[invoiceId].paidAmount) + input.amount.value, old(db.invoices[invoiceId].total)))
    ensures r.Ok? && r.value.Exceeds? ==>
              (r.value.total == old(db.invoices[invoiceId].total.value) && r.value.alreadyPaid == old(db.invoices[invoiceId].paidAmount)
               && r.value.maxPayment == r.value.total - r.value.alreadyPaid && r.value.maxPayment < input.amount.value)
    ensures r.Fail? || r.value.Exceeds? ==>
              db.invoices == old(db.invoices) && db.payments == old(db.payments) && db.activity == old(db.activity)
    ensures r.Ok? && r.value.Recorded? <==>
              (ValidAmount(input.amount) && old(OwnsInvoice(db, user, invoiceId))
               && !Overpays(old(db.invoices[invoiceId].paidAmount) + input.amount.value, old(db.invoices[invoiceId].total))
               && !Aborts(fault, 6))
    ensures r.Ok? && r.value.Recorded? ==>
              (db.invoices == old(db.invoices)[invoiceId := Settled(old(db.invoices[invoiceId]), input.amount.value)]
               && r.value.paidAmount == db.invoices[invoiceId].paidAmount && r.value.status == db.invoices[invoiceId].status
               && r.value.remaining == Remaining(db.invoices[invoiceId].total, r.value.paidAmount)
               && (r.value.remaining.Some? ==> r.value.remaining.value >= 0.0))
    ensures r.Ok? && r.value.Recorded? ==>
              (r.value.payment == Payment(r.value.payment.id, invoiceId, input.amount.value, PaymentDate(input, today),
                                          input.paymentMethod, input.reference, input.notes, user, None)
               && (forall q :: q in old(db.payments) ==> q.id != r.value.payment.id)
               && db.payments == old(db.payments) + [r.value.payment])
    ensures r.Ok? && r.value.Recorded? ==>
              (|db.activity| == |old(db.activity)| + 1
               && db.activity == old(db.activity) + [Activity(db.activity[|old(db.activity)|].id, user, "payment_recorded", "payment",
                                                              r.value.payment.id, PaymentRecorded(invoiceId, input.amount.value))])
  {
    if !ValidAmount(input.amount) {
      return Fail(400, InvalidAmount);
    }
    var amount := input.amount.value;
    if Aborts(fault, 2) {
      return Fail(500, DbError);
    }
    if !OwnsInvoice(db, user, invoiceId) {
      return Fail(404, InvoiceNotFound);
    }
    var inv := db.invoices[invoiceId];
    var currentPaid := inv.paidAmount;
    var newPaid := currentPaid + amount;
    if Overpays(newPaid, inv.total) {
      return Ok(Exceeds(inv.total.value, currentPaid, inv.total.value - currentPaid));
    }
    if Aborts(fault, 6) {
      return Fail(500, DbError);
    }
    var p := Payment(Tables.NextId(set q | q in db.payments :: q.id), invoiceId, amount, PaymentDate(input, today),
                     input.paymentMethod, input.reference, input.notes, user, None);
    var entry := Activity(Tables.NextId(ActivityIds(db.activity)), user, "payment_recorded", "payment", p.id,
                          PaymentRecorded(invoiceId, amount));
    var row := Settled(inv, amount);
    CommitPayment(db, p, entry);
    r := Ok(Recorded(p, newPaid, row.status, Remaining(inv.total, newPaid)));
  }

  /** Under the ledger an invoice's paid amount is never negative, so a recorded payment leaves it positive. */
  lemma PaidNonNegative(invoices: map<int, NInvoice>, payments: seq<Payment>, id: int)
    requires LedgerOf(invoices, payments) && id in invoices
    ensures invoices[id].paidAmount >= 0.0
  {
    Grouping.SumKeyNonNegative(payments, PaymentInvoice, id, PaymentAmount);
  }

  // ---------------------------------------------------------------------------
  // Deleting.

  /** The row `SELECT pt.* ... WHERE pt.id = $1` returns first. */
  function FindPayment(payments: seq<Payment>, id: int): (r: Option<Payment>)
    ensures r.None? <==> forall p :: p in payments ==> p.id != id
    ensures r.Some? ==> r.value in payments && r.value.id == id
  {
    if payments == [] then None
    else if payments[0].id == id then Some(payments[0])
    else FindPayment(payments[1..], id)
  }

  /** The table once `DELETE FROM payment_transactions WHERE id = $1` has run. */
  function Without(payments: seq<Payment>, id: int): (r: seq<Payment>)
    ensures forall p :: p in r <==> p in payments && p.id != id
  {
    if payments == [] then []
    else (if payments[0].id != id then [payments[0]] else []) + Without(payments[1..], id)
  }

  /**
   * The status after a deletion: 'paid', else 'partially_paid' when anything
   * remains paid, else the fetched row's own `status` when that is 'sent' or
   * 'overdue', else 'draft'. The fetched row is the payment's `pt.*` joined
   * with three invoice columns, so that status is the payment row's.
   */
  function DeleteStatus(newPaid: real, total: Option<real>, rowStatus: Option<string>): string
  {
    if total.Some? && newPaid >= total.value then "paid"
    else if newPaid > 0.0 then "partially_paid"
    else if rowStatus == Some("sent") || rowStatus == Some("overdue") then rowStatus.value
    else "draft"
  }

  /**
   * No handler writes a payment's `status`, so once nothing remains paid on an
   * invoice with a positive total, deleting its last payment leaves it 'draft',
   * even when it had been sent.
   */
  lemma UnpaidFallsBackToDraft(newPaid: real, total: Option<real>)
    requires newPaid == 0.0 && (total.None? || total.value > 0.0)
    ensures DeleteStatus(newPaid, total, None) == "draft"
  {
  }

  /** Removing payments of one invoice leaves every other invoice's sum unchanged. */
  lemma {:induction false} WithoutElsewhere(payments: seq<Payment>, id: int, owner: int, other: int)
    requires forall p :: p in payments && p.id == id ==> p.invoiceId == owner
    requires other != owner
    ensures PaidOn(Without(payments, id), other) == PaidOn(payments, other)
  {
    if payments != [] {
      assert payments[0] in payments;
      assert forall p :: p in payments[1..] ==> p in payments;
      WithoutElsewhere(payments[1..], id, owner, other);
      var rest := Without(payments[1..], id);
      if payments[0].id != id {
        assert ([payments[0]] + rest)[1..] == rest;
      } else {
        assert Without(payments, id) == rest by {
          assert [] + rest == rest;
        }
        assert PaidOn(payments, other) == PaidOn(payments[1..], other);
      }
    }
  }

  /** Deleting a payment and recomputing its invoice's sum keep the ledger. */
  lemma DeleteKeepsLedger(invoices: map<int, NInvoice>, payments: seq<Payment>, p: Payment, status: Option<string>)
    requires LedgerOf(invoices, payments)
    requires p in payments && p.invoiceId in invoices
    ensures LedgerOf(invoices[p.invoiceId := invoices[p.invoiceId].(paidAmount := PaidOn(Without(payments, p.id), p.invoiceId), status := status)],
                     Without(payments, p.id))
  {
    forall id | id in invoices && id != p.invoiceId
      ensures PaidOn(Without(payments, p.id), id) == PaidOn(payments, id)
    {
      WithoutElsewhere(payments, p.id, p.invoiceId, id);
    }
  }

  /** The answer to a deletion. */
  datatype DeleteAnswer = DeleteAnswer(message: string, paidAmount: real, status: string)

  /** The writes of a deletion that reached COMMIT. */
  method CommitDeletion(db: NodeDatabase, p: Payment, status: string)
    requires db.Valid() && p in db.payments
    modifies db`invoices, db`payments
    ensures db.Valid()
    ensures old(Ledger(db)) ==> Ledger(db)
    ensures db.payments == Without(old(db.payments), p.id)
    ensures db.invoices == old(db.invoices)[p.invoiceId := old(db.invoices[p.invoiceId]).(paidAmount := PaidOn(db.payments, p.invoiceId), status := Some(status))]
  {
    var remaining := Without(db.payments, p.id);
    if Ledger(db) {
      DeleteKeepsLedger(db.invoices, db.payments, p, Some(status));
    }
    var inv := db.invoices[p.invoiceId];
    assert inv.id == p.invoiceId;
    WriteDeletion(db, inv.(paidAmount := PaidOn(remaining, p.invoiceId), status := Some(status)), remaining);
  }

  /** The payment delete and the invoice update: fewer payments keep every reference resolvable. */
  method WriteDeletion(db: NodeDatabase, row: NInvoice, remaining: seq<Payment>)
    requires db.Valid() && row.id in db.invoices && forall q :: q in remaining ==> q in db.payments
    modifies db`invoices, db`payments
    ensures db.Valid()
    ensures db.payments == remaining && db.invoices == old(db.invoices)[row.id := row]
  {
    db.invoices := db.invoices[row.id := row];
    assert db.invoices.Keys == old(db.invoices).Keys;
    db.payments := remaining;
  }

  /**
   * `DELETE /api/invoices/payments/:paymentId`. Statements: 0 BEGIN, 1 read the
   * payment with its invoice (none is a 404, another user's invoice a 403),
   * 2 delete it, 3 sum the invoice's remaining payments, 4 update the invoice,
   * 5 COMMIT.
   */
  method DeletePayment(db: NodeDatabase, user: int, paymentId: int, fault: Option<nat>) returns (r: Outcome<DeleteAnswer>)
    requires db.Valid()
    modifies db`invoices, db`payments
    ensures db.Valid()
    ensures old(Ledger(db)) ==> Ledger(db)
    ensures Aborts(fault, 2) ==> r == Fail(500, DbError)
    ensures !Aborts(fault, 2) && old(FindPayment(db.payments, paymentId)).None? ==> r == Fail(404, PaymentNotFound)
    ensures !Aborts(fault, 2) && old(FindPayment(db.payments, paymentId)).Some?
            && old(db.invoices[FindPayment(db.payments, paymentId).value.invoiceId].userId) != Some(user) ==>
              r == Fail(403, Unauthorized)
    ensures r.Ok? <==>
              (old(FindPayment(db.payments, paymentId)).Some?
               && old(db.invoices[FindPayment(db.payments, paymentId).value.invoiceId].userId) == Some(user)
               && !Aborts(fault, 6))
    ensures r.Fail? ==> db.invoices == old(db.invoices) && db.payments == old(db.payments)
    ensures r.Ok? ==>
              (var p := old(FindPayment(db.payments, paymentId)).value;
               var inv := old(db.invoices[p.invoiceId]);
               db.payments == Without(old(db.payments), paymentId)
               && r.value == DeleteAnswer("Payment deleted", PaidOn(db.payments, p.invoiceId),
                                          DeleteStatus(PaidOn(db.payments, p.invoiceId), inv.total, p.status))
               && db.invoices == old(db.invoices)[p.invoiceId := inv.(paidAmount := r.value.paidAmount, status := Some(r.value.status))])
  {
    if Aborts(fault, 2) {
      return Fail(500, DbError);
    }
    var found := FindPayment(db.payments, paymentId);
    if found.None? {
      return Fail(404, PaymentNotFound);
    }
    var p := found.value;
    var inv := db.invoices[p.invoiceId];
    if inv.userId != Some(user) {
      return Fail(403, Unauthorized);
    }
    if Aborts(fault, 6) {
      return Fail(500, DbError);
    }
    var newPaid := PaidOn(Without(db.payments, paymentId), p.invoiceId);
    var status := DeleteStatus(newPaid, inv.total, p.status);
    CommitDeletion(db, p, status);
    r := Ok(DeleteAnswer("Payment deleted", newPaid, status));
  }

  /** Deleting the payment just recorded restores the sums the ledger had before it. */
  lemma {:induction false} DeleteUndoesRecord(payments: seq<Payment>, p: Payment)
    requires forall q :: q in payments ==> q.id != p.id
    ensures Without(payments + [p], p.id) == payments
  {
    if payments == [] {
      assert [p][1..] == [];
    } else {
      assert payments[0] in payments;
      assert (payments + [p])[1..] == payments[1..] + [p];
      DeleteUndoesRecord(payments[1..], p);
      assert [payments[0]] + payments[1..] == payments;
    }
  }
}
