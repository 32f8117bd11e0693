// Invoices and their payments. Money is in whole cents.
module InvoiceLedger {
  import opened Models

  datatype Account = Account(amountDue: int, amountPaid: int, status: InvoiceStatus)

  datatype Payment = Payment(amount: int, reference: Option<string>)

  // An invoice together with the payments recorded against it.
  datatype Books = Books(account: Account, payments: seq<Payment>)

  datatype LedgerError =
    | AmountNotPositive
    | DueDateInPast
    | InvalidTransition(current: InvoiceStatus, wanted: InvoiceStatus)
    | MultiplePaymentsFound

  // ---- one invoice ----

  predicate MayBecome(current: InvoiceStatus, wanted: InvoiceStatus) {
    match current
    case Unpaid => wanted in {Partial, Paid, Overdue, Cancelled}
    case Partial => wanted in {Paid, Overdue, Cancelled}
    case Overdue => wanted in {Partial, Paid, Cancelled}
    case Paid => false
    case Cancelled => false
  }

  function StatusUpdated(a: Account, wanted: InvoiceStatus): Result<Account, LedgerError> {
    if !MayBecome(a.status, wanted) then Err(InvalidTransition(a.status, wanted))
    else if wanted == Paid then Ok(a.(status := Paid, amountPaid := a.amountDue))
    else Ok(a.(status := wanted))
  }

  function Credited(a: Account, amount: int): Account {
    var total := a.amountPaid + amount;
    if total >= a.amountDue then a.(amountPaid := a.amountDue, status := Paid)
    else if total > 0 then a.(amountPaid := total, status := Partial)
    else a.(amountPaid := total)
  }

  function PaymentRecorded(b: Books, p: Payment): Result<Books, LedgerError> {
    if p.amount <= 0 then Err(AmountNotPositive)
    else Ok(Books(Credited(b.account, p.amount), b.payments + [p]))
  }

  // A reference counts only when it is a non-empty string.
  predicate Referenced(p: Payment) {
    p.reference.Some? && p.reference.value != ""
  }

  function SameReference(payments: seq<Payment>, p: Payment): nat {
    if payments == [] then 0
    else SameReference(payments[..|payments| - 1], p)
         + if payments[|payments| - 1].reference == p.reference then 1 else 0
  }

  function PaymentReconciled(b: Books, p: Payment): Result<Books, LedgerError> {
    if Referenced(p) && SameReference(b.payments, p) > 1 then Err(MultiplePaymentsFound)
    else if Referenced(p) && SameReference(b.payments, p) == 1 then Ok(b)
    else PaymentRecorded(b, p)
  }

  // The table, entry by entry.
  lemma MayBecomeIff(current: InvoiceStatus, wanted: InvoiceStatus)
    ensures MayBecome(current, wanted) <==> (current, wanted) in {
              (Unpaid, Partial), (Unpaid, Paid), (Unpaid, Overdue), (Unpaid, Cancelled),
              (Partial, Paid), (Partial, Overdue), (Partial, Cancelled),
              (Overdue, Partial), (Overdue, Paid), (Overdue, Cancelled)}
  {}

  // ---- every run of ledger operations ----

  ghost predicate Consistent(a: Account) {
    0 < a.amountDue && 0 <= a.amountPaid <= a.amountDue && (a.status == Paid <==> a.amountPaid == a.amountDue)
  }

  datatype Operation = Pay(amount: int) | SetStatus(wanted: InvoiceStatus)

  // A rejected operation leaves the account as it was.
  function Step(a: Account, op: Operation): Account {
    match op
    case Pay(amount) => if amount <= 0 then a else Credited(a, amount)
    case SetStatus(wanted) => (match StatusUpdated(a, wanted) case Ok(a') => a' case Err(_) => a)
  }

  function Run(a: Account, ops: seq<Operation>): Account
    decreases |ops|
  {
    if ops == [] then a else Run(Step(a, ops[0]), ops[1..])
  }

  lemma {:induction false} RunKeepsConsistent(a: Account, ops: seq<Operation>)
    requires Consistent(a)
    ensures Consistent(Run(a, ops))
    ensures Run(a, ops).amountDue == a.amountDue && Run(a, ops).amountPaid >= a.amountPaid
    decreases |ops|
  {
    if ops != [] {
      RunKeepsConsistent(Step(a, ops[0]), ops[1..]);
    }
  }

  // Nothing moves a paid invoice.
  lemma {:induction false} PaidIsAbsorbing(a: Account, ops: seq<Operation>)
    requires Consistent(a) && a.status == Paid
    ensures Run(a, ops) == a
  {
    if ops != [] {
      assert Step(a, ops[0]) == a;
      PaidIsAbsorbing(a, ops[1..]);
    }
  }

  // The transition table calls Cancelled terminal, but a payment does not consult it: a cancelled invoice is left
  // alone exactly by the runs without a valid payment.
  lemma {:induction false} CancelledIsLeftAloneIff(a: Account, ops: seq<Operation>)
    requires Consistent(a) && a.status == Cancelled
    ensures Run(a, ops) == a <==> forall i :: 0 <= i < |ops| && ops[i].Pay? ==> ops[i].amount <= 0
  {
    if ops != [] {
      var a' := Step(a, ops[0]);
      if ops[0].Pay? && ops[0].amount > 0 {
        RunKeepsConsistent(a', ops[1..]);
      } else {
        CancelledIsLeftAloneIff(a, ops[1..]);
        assert forall i :: 0 < i < |ops| ==> ops[i] == ops[1..][i - 1];
      }
    }
  }

  // ---- payments alone ----

  function Payments(amounts: seq<int>): seq<Operation> {
    seq(|amounts|, i requires 0 <= i < |amounts| => Pay(amounts[i]))
  }

  function Total(amounts: seq<int>): nat {
    if amounts == [] then 0 else Positive(amounts[0]) + Total(amounts[1..])
  }

  // Payments alone: the amount is the capped sum, and the status follows from it.
  lemma {:induction false} PaymentsAlone(a: Account, amounts: seq<int>)
    requires Consistent(a)
    ensures Run(a, Payments(amounts))
            == Account(a.amountDue, Min(a.amountDue, a.amountPaid + Total(amounts)),
                       if a.amountPaid + Total(amounts) >= a.amountDue then Paid
                       else if Total(amounts) > 0 then Partial
                       else a.status)
    decreases |amounts|
  {
    if amounts != [] {
      assert Payments(amounts)[1..] == Payments(amounts[1..]);
      PaymentsAlone(Step(a, Pay(amounts[0])), amounts[1..]);
    }
  }

  lemma {:induction false} TotalWithout(amounts: seq<int>, k: nat)
    requires k < |amounts|
    ensures Total(amounts) == Positive(amounts[k]) + Total(amounts[..k] + amounts[k + 1..])
  {
    var rest := amounts[..k] + amounts[k + 1..];
    if k == 0 {
      assert rest == amounts[1..];
    } else {
      TotalWithout(amounts[1..], k - 1);
      assert rest[1..] == amounts[1..][..k - 1] + amounts[1..][k..];
    }
  }

  lemma {:induction false} TotalIgnoresOrder(xs: seq<int>, ys: seq<int>)
    requires multiset(xs) == multiset(ys)
    ensures Total(xs) == Total(ys)
  {
    if xs == [] {
      assert |ys| == |multiset(ys)| == 0;
    } else {
      assert xs[0] in multiset(ys);
      var k :| 0 <= k < |ys| && ys[k] == xs[0];
      WithoutOne(xs, ys, k);
      TotalIgnoresOrder(xs[1..], ys[..k] + ys[k + 1..]);
      TotalWithout(ys, k);
    }
  }

  lemma Without(xs: seq<int>, k: nat)
    requires k < |xs|
    ensures multiset(xs[..k] + xs[k + 1..]) == multiset(xs) - multiset{xs[k]}
  {
    assert xs == xs[..k] + [xs[k]] + xs[k + 1..];
  }

  lemma WithoutOne(xs: seq<int>, ys: seq<int>, k: nat)
    requires multiset(xs) == multiset(ys) && xs != [] && k < |ys| && ys[k] == xs[0]
    ensures multiset(xs[1..]) == multiset(ys[..k] + ys[k + 1..])
  {
    Without(xs, 0);
    Without(ys, k);
    assert xs[..0] + xs[1..] == xs[1..];
  }

  lemma PaymentOrderIsIrrelevant(a: Account, xs: seq<int>, ys: seq<int>)
    requires Consistent(a) && multiset(xs) == multiset(ys)
    ensures Run(a, Payments(xs)) == Run(a, Payments(ys))
  {
    PaymentsAlone(a, xs);
    PaymentsAlone(a, ys);
    TotalIgnoresOrder(xs, ys);
  }

  // ---- reconciliation by reference ----

  ghost predicate UniqueReferences(payments: seq<Payment>) {
    forall i, j :: 0 <= i < j < |payments| && Referenced(payments[i]) ==> payments[i].reference != payments[j].reference
  }

  predicate Knows(payments: seq<Payment>, p: Payment) {
    exists i :: 0 <= i < |payments| && payments[i].reference == p.reference
  }

  lemma {:induction false} OneAnswer(payments: seq<Payment>, p: Payment)
    requires Referenced(p) && UniqueReferences(payments)
    ensures SameReference(payments, p) == if Knows(payments, p) then 1 else 0
  {
    if payments != [] {
      var n := |payments| - 1;
      OneAnswer(payments[..n], p);
      if payments[n].reference == p.reference {
        assert !Knows(payments[..n], p);
      } else if Knows(payments, p) {
        var i :| 0 <= i < |payments| && payments[i].reference == p.reference;
        assert payments[..n][i].reference == p.reference;
      }
    }
  }

  lemma OneMore(payments: seq<Payment>, p: Payment, q: Payment)
    ensures Knows(payments + [p], q) <==> Knows(payments, q) || p.reference == q.reference
  {
    if Knows(payments, q) {
      var i :| 0 <= i < |payments| && payments[i].reference == q.reference;
      assert (payments + [p])[i].reference == q.reference;
    }
    if p.reference == q.reference {
      assert (payments + [p])[|payments|].reference == q.reference;
    }
  }

  // Recording without asking, as the payment poll does, keeps references unique exactly when the reference is new.
  lemma RecordingKeepsUniqueIff(b: Books, p: Payment)
    requires UniqueReferences(b.payments) && p.amount > 0
    ensures UniqueReferences(PaymentRecorded(b, p).value.payments) <==> !Referenced(p) || !Knows(b.payments, p)
  {
    var after := PaymentRecorded(b, p).value.payments;
    if Referenced(p) && Knows(b.payments, p) {
      var i :| 0 <= i < |b.payments| && b.payments[i].reference == p.reference;
      assert after[i].reference == after[|b.payments|].reference;
    } else {
      forall i, j | 0 <= i < j < |after| && Referenced(after[i]) ensures after[i].reference != after[j].reference {
        assert after[i] == b.payments[i];
      }
    }
  }

  // Feeding payments one by one; a rejected one changes nothing.
  function Reconcile(b: Books, incoming: seq<Payment>): Books
    decreases |incoming|
  {
    if incoming == [] then b else
    Reconcile((match PaymentReconciled(b, incoming[0]) case Ok(b') => b' case Err(_) => b), incoming[1..])
  }

  function Record(b: Books, incoming: seq<Payment>): Books
    decreases |incoming|
  {
    if incoming == [] then b else
    Record((match PaymentRecorded(b, incoming[0]) case Ok(b') => b' case Err(_) => b), incoming[1..])
  }

  // The incoming payments that are new: valid, and without a reference or with one not seen before.
  function FirstOfEach(known: seq<Payment>, incoming: seq<Payment>): seq<Payment>
    decreases |incoming|
  {
    if incoming == [] then [] else
    var p := incoming[0];
    if p.amount <= 0 || (Referenced(p) && Knows(known, p)) then FirstOfEach(known, incoming[1..])
    else [p] + FirstOfEach(known + [p], incoming[1..])
  }

  lemma ReconciledStep(b: Books, p: Payment)
    requires UniqueReferences(b.payments)
    ensures PaymentReconciled(b, p) ==
            if Referenced(p) && Knows(b.payments, p) then Ok(b) else PaymentRecorded(b, p)
    ensures PaymentReconciled(b, p).Ok? ==> UniqueReferences(PaymentReconciled(b, p).value.payments)
  {
    if Referenced(p) {
      OneAnswer(b.payments, p);
    }
    if p.amount > 0 {
      RecordingKeepsUniqueIff(b, p);
    }
  }

  // Reconciling a stream leaves the books that recording only its new payments leaves, and references stay unique,
  // so the existence query never finds two.
  lemma {:induction false} ReconcileDropsRepeats(b: Books, incoming: seq<Payment>)
    requires UniqueReferences(b.payments)
    ensures Reconcile(b, incoming) == Record(b, FirstOfEach(b.payments, incoming))
    ensures UniqueReferences(Reconcile(b, incoming).payments)
    ensures forall p :: PaymentReconciled(Reconcile(b, incoming), p) != Err(MultiplePaymentsFound)
    decreases |incoming|
  {
    if incoming != [] {
      var p := incoming[0];
      ReconciledStep(b, p);
      var b' := match PaymentReconciled(b, p) case Ok(b') => b' case Err(_) => b;
      ReconcileDropsRepeats(b', incoming[1..]);
      if b' != b {
        var rest := FirstOfEach(b'.payments, incoming[1..]);
        assert ([p] + rest)[1..] == rest;
      }
    } else {
      forall p ensures PaymentReconciled(b, p) != Err(MultiplePaymentsFound) {
        ReconciledStep(b, p);
      }
    }
  }

  // Importing the same referenced payments again changes nothing.
  lemma {:induction false} ReconcileTwice(b: Books, incoming: seq<Payment>, again: seq<Payment>)
    requires UniqueReferences(b.payments)
    requires forall p :: p in again ==> Referenced(p) && p in incoming
    ensures Reconcile(Reconcile(b, incoming), again) == Reconcile(b, incoming)
  {
    var after := Reconcile(b, incoming);
    if again != [] {
      var p := again[0];
      ReconcileDropsRepeats(b, incoming);
      ReconciledStep(after, p);
      assert p in again;
      if p.amount > 0 {
        SeenAfterReconcile(b, incoming, p);
      }
      ReconcileTwice(b, incoming, again[1..]);
    }
  }

  lemma {:induction false} SeenAfterReconcile(b: Books, incoming: seq<Payment>, p: Payment)
    requires UniqueReferences(b.payments) && Referenced(p) && p.amount > 0
    requires p in incoming || Knows(b.payments, p)
    ensures Knows(Reconcile(b, incoming).payments, p)
    decreases |incoming|
  {
    if incoming != [] {
      var q := incoming[0];
      ReconciledStep(b, q);
      OneMore(b.payments, q, p);
      SeenAfterReconcile(match PaymentReconciled(b, q) case Ok(b') => b' case Err(_) => b, incoming[1..], p);
    }
  }

  // ---- the invoice object ----

  class Invoice {
    const amountDue: int
    var amountPaid: int
    var status: InvoiceStatus
    var payments: seq<Payment>

    ghost function Summary(): Account
      reads this
    {
      Account(amountDue, amountPaid, status)
    }

    ghost function Ledger(): Books
      reads this
    {
      Books(Summary(), payments)
    }

    constructor Issue(amountDue: int)
      requires amountDue > 0
      ensures Summary() == Account(amountDue, 0, Unpaid) && payments == []
    {
      this.amountDue, amountPaid, status, payments := amountDue, 0, Unpaid, [];
    }

    static method CreateInvoice(amountDue: int, dueDate: int, today: int) returns (r: Result<Invoice, LedgerError>)
      ensures r.Err? ==> r.error == if amountDue <= 0 then AmountNotPositive else DueDateInPast
      ensures r.Ok? <==> amountDue > 0 && dueDate >= today
      ensures r.Ok? ==> fresh(r.value) && Consistent(r.value.Summary()) && r.value.payments == []
                        && r.value.Summary() == Account(amountDue, 0, Unpaid)
    {
      if amountDue <= 0 {
        return Err(AmountNotPositive);
      }
      if dueDate < today {
        return Err(DueDateInPast);
      }
      var invoice := new Invoice.Issue(amountDue);
      return Ok(invoice);
    }

    method UpdateStatus(wanted: InvoiceStatus) returns (r: Result<(), LedgerError>)
      modifies this`status, this`amountPaid
      ensures match StatusUpdated(old(Summary()), wanted)
              case Ok(a) => r.Ok? && Summary() == a
              case Err(e) => r == Err(e) && Summary() == old(Summary())
      ensures old(Consistent(Summary())) ==> Consistent(Summary())
    {
      if !MayBecome(status, wanted) {
        return Err(InvalidTransition(status, wanted));
      }
      status := wanted;
      if wanted == Paid {
        amountPaid := amountDue;
      }
      return Ok(());
    }

    method RecordPayment(p: Payment) returns (r: Result<Payment, LedgerError>)
      modifies this
      ensures match PaymentRecorded(old(Ledger()), p)
              case Ok(b) => r == Ok(p) && Ledger() == b
              case Err(e) => r == Err(e) && Ledger() == old(Ledger())
      ensures old(Consistent(Summary())) ==> Consistent(Summary())
    {
      if p.amount <= 0 {
        return Err(AmountNotPositive);
      }
      payments := payments + [p];
      amountPaid := amountPaid + p.amount;
      if amountPaid >= amountDue {
        status := Paid;
        amountPaid := amountDue;
      } else if amountPaid > 0 {
        status := Partial;
      }
      return Ok(p);
    }

    // Gives back the payment on record when the reference is known, whatever its amount.
    method ReconcilePayment(p: Payment) returns (r: Result<Payment, LedgerError>)
      modifies this
      ensures match PaymentReconciled(old(Ledger()), p)
              case Ok(b) => r.Ok? && r.value in payments && r.value.reference == p.reference && Ledger() == b
              case Err(e) => r == Err(e) && Ledger() == old(Ledger())
      ensures old(UniqueReferences(payments)) ==> UniqueReferences(payments) && r != Err(MultiplePaymentsFound)
    {
      if UniqueReferences(payments) {
        ReconciledStep(Ledger(), p);
      }
      if p.reference.Some? && p.reference.value != "" {
        var found: Option<Payment> := None;
        var matches := 0;
        for i := 0 to |payments|
          invariant matches == SameReference(payments[..i], p)
          invariant matches == 0 <==> found == None
          invariant found.Some? ==> found.value in payments && found.value.reference == p.reference
        {
          assert payments[..i + 1][..i] == payments[..i];
          if payments[i].reference == p.reference {
            found, matches := Some(payments[i]), matches + 1;
          }
        }
        assert payments[..|payments|] == payments;
        if matches > 1 {
          return Err(MultiplePaymentsFound);
        }
        if found.Some? {
          return Ok(found.value);
        }
      }
      r := RecordPayment(p);
    }
  }
}
