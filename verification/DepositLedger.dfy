/**
  Deposits applied to invoices (account_partner_deposit/models/account_move.py, account_payment.py).

  Applying a deposit creates an intermediate journal entry with one line on the deposit's account
  and one on the invoice's; the first is reconciled with the deposit, the second with the invoice.
  The application is undone by removing a partial, resetting the invoice or resetting the payment.
  Amounts are in the smallest unit of one currency; residuals are absolute values.
*/
module DepositLedger {

  datatype Side = Debit | Credit

  function Opposite(s: Side): Side { if s == Debit then Credit else Debit }

  /** `side` is the side of the deposit line: credit for a customer deposit, debit for a vendor deposit. */
  datatype Payment = Payment(account: nat, side: Side, amount: nat, residual: int, posted: bool, entries: set<nat>)

  /** `side` is the side of the receivable (debit) or payable (credit) line; `other` was paid by other means. */
  datatype Invoice = Invoice(account: nat, side: Side, amount: nat, residual: int, other: int, posted: bool)

  datatype JournalLine = JournalLine(account: nat, side: Side, amount: int)

  /** A deposit entry; the two open amounts are what its lines still have to reconcile. */
  datatype Entry = Entry(id: nat, payment: nat, invoice: nat, amount: int, debit: JournalLine, credit: JournalLine,
                         paymentOpen: int, invoiceOpen: int)

  datatype Books = Books(payments: map<nat, Payment>, invoices: map<nat, Invoice>, entries: seq<Entry>, next: nat)

  function Min(a: int, b: int): int { if a < b then a else b }

  function Max(a: int, b: int): int { if a < b then b else a }

  // ----- The ledger -----

  class Ledger {
    var payments: map<nat, Payment>
    var invoices: map<nat, Invoice>
    var entries: seq<Entry>
    var next: nat

    constructor ()
      ensures View() == Books(map[], map[], [], 0)
    {
      payments, invoices, entries, next := map[], map[], [], 0;
    }

    function View(): Books
      reads this
    {
      Books(payments, invoices, entries, next)
    }

    /**
      `js_assign_outstanding_line`: create the intermediate entry, reconcile its two lines.
      The payment widget only offers posted deposits of the invoice's direction.
    */
    method Assign(p: nat, i: nat)
      requires p in payments && i in invoices
      modifies this
      ensures View() == AssignSpec(old(View()), p, i)
    {
      var pay, inv := payments[p], invoices[i];
      var amount := Min(inv.residual, pay.residual);
      if amount == 0 { return; }
      var e := next;
      entries := entries + [MakeEntry(e, p, pay, i, inv, amount)];
      next := next + 1;
      // payment line with the entry's line on the deposit account
      var matched := Min(pay.residual, amount);
      payments := payments[p := pay.(residual := pay.residual - matched, entries := pay.entries + {e})];
      entries := entries[|entries| - 1 := entries[|entries| - 1].(paymentOpen := amount - matched)];
      // invoice line with the entry's receivable or payable line
      matched := Min(inv.residual, amount);
      invoices := invoices[i := inv.(residual := inv.residual - matched)];
      entries := entries[|entries| - 1 := entries[|entries| - 1].(invoiceOpen := amount - matched)];
    }

    /** `_reconcile_deposit`: apply the posted deposits of the invoice's direction, in the given order. */
    method ReconcileDeposits(deposits: seq<nat>, i: nat)
      requires i in invoices && forall k :: 0 <= k < |deposits| ==> deposits[k] in payments
      modifies this
      ensures View() == AssignAll(old(View()), deposits, i)
    {
      var k := 0;
      while k < |deposits|
        invariant 0 <= k <= |deposits|
        invariant payments.Keys == old(payments.Keys) && i in invoices
        invariant AssignAll(View(), deposits[k..], i) == AssignAll(old(View()), deposits, i)
      {
        assert deposits[k..][1..] == deposits[k + 1..];
        if Eligible(View(), deposits[k], i) {
          Assign(deposits[k], i);
        }
        k := k + 1;
      }
    }

    /** `button_draft` and `unlink` of one deposit entry: both of its reconciliations are taken back. */
    method DropEntry(e: Entry)
      requires e in entries && e.payment in payments && e.invoice in invoices
      modifies this
      ensures View() == Drop(old(View()), e)
    {
      var pay, inv := payments[e.payment], invoices[e.invoice];
      payments := payments[e.payment := pay.(residual := pay.residual + (e.amount - e.paymentOpen),
                                             entries := pay.entries - {e.id})];
      invoices := invoices[e.invoice := inv.(residual := inv.residual + (e.amount - e.invoiceOpen))];
      entries := Without(entries, e.id);
    }

    method DropEntries(es: seq<Entry>)
      requires DroppableAll(View(), es)
      modifies this
      ensures View() == DropAll(old(View()), es)
    {
      var k := 0;
      while k < |es|
        invariant 0 <= k <= |es|
        invariant DroppableAll(View(), es[k..])
        invariant DropAll(View(), es[k..]) == DropAll(old(View()), es)
      {
        DropFirst(View(), es[k..]);
        assert es[k..][0] == es[k] && es[k..][1..] == es[k + 1..];
        DropEntry(es[k]);
        k := k + 1;
      }
    }

    /** `js_remove_outstanding_partial`: `side` tells which of the entry's two partials is removed. */
    method RemovePartial(e: Entry, fromInvoice: bool)
      requires Consistent(View()) && e in entries
      modifies this
      ensures View() == RemoveSpec(old(View()), e, fromInvoice)
    {
      UnmatchOneKeepsConsistent(View(), e, fromInvoice);
      var b := UnmatchOne(View(), e, fromInvoice);
      payments, invoices, entries := b.payments, b.invoices, b.entries;
      DropEntry(Unmatched(e, fromInvoice));
    }

    /** `button_draft` of an invoice or bill. */
    method ResetInvoice(i: nat)
      requires Consistent(View()) && i in invoices
      modifies this
      ensures View() == ResetInvoiceSpec(old(View()), i)
    {
      UnmatchInvoiceKeepsConsistent(View(), i);
      var b := UnmatchInvoice(View(), i);
      var doomed := OfInvoice(b.entries, i);
      DroppableInvoice(b, i);
      invoices, entries := b.invoices, b.entries;
      DropEntries(doomed);
    }

    /** `action_draft` of a deposit payment: its `deposit_ids` are reset and deleted. */
    method ResetPayment(p: nat)
      requires Consistent(View()) && p in payments
      modifies this
      ensures View() == ResetPaymentSpec(old(View()), p)
    {
      UnmatchPaymentKeepsConsistent(View(), p);
      var b := UnmatchPayment(View(), p);
      var doomed := WithIds(b.entries, payments[p].entries);
      DroppableIds(b, payments[p].entries);
      payments, entries := b.payments, b.entries;
      DropEntries(doomed);
    }
  }

  // ----- The specification of each step -----

  /** `_get_account_side`: the entry's lines lie opposite to the deposit line and to the invoice line. */
  function AccountSides(pay: Payment, inv: Invoice): (r: (nat, nat)) {
    (if pay.side == Credit then pay.account else inv.account, if pay.side == Debit then pay.account else inv.account)
  }

  function MakeEntry(id: nat, p: nat, pay: Payment, i: nat, inv: Invoice, amount: int): Entry {
    var (debit, credit) := AccountSides(pay, inv);
    Entry(id, p, i, amount, JournalLine(debit, Debit, amount), JournalLine(credit, Credit, amount), amount, amount)
  }

  function AssignSpec(b: Books, p: nat, i: nat): Books
    requires p in b.payments && i in b.invoices
  {
    var pay, inv := b.payments[p], b.invoices[i];
    var amount := Min(inv.residual, pay.residual);
    if amount == 0 then b
    else
      Books(b.payments[p := pay.(residual := pay.residual - amount, entries := pay.entries + {b.next})],
            b.invoices[i := inv.(residual := inv.residual - amount)],
            b.entries + [MakeEntry(b.next, p, pay, i, inv, amount).(paymentOpen := 0, invoiceOpen := 0)],
            b.next + 1)
  }

  /** The deposits `_reconcile_deposit` applies: posted, of the invoice's direction, not yet used up. */
  predicate Eligible(b: Books, p: nat, i: nat)
    requires p in b.payments && i in b.invoices
  {
    b.payments[p].posted && b.payments[p].side == Opposite(b.invoices[i].side) && b.payments[p].residual != 0
  }

  function AssignAll(b: Books, deposits: seq<nat>, i: nat): Books
    requires i in b.invoices && forall k :: 0 <= k < |deposits| ==> deposits[k] in b.payments
    decreases |deposits|
  {
    if deposits == [] then b
    else AssignAll(AssignFirst(b, deposits[0], i), deposits[1..], i)
  }

  function Without(es: seq<Entry>, id: nat): (r: seq<Entry>)
    ensures forall e :: e in r <==> e in es && e.id != id
  {
    if es == [] then [] else (if es[0].id == id then [] else [es[0]]) + Without(es[1..], id)
  }

  function WithIds(es: seq<Entry>, ids: set<nat>): (r: seq<Entry>)
    ensures forall e :: e in r <==> e in es && e.id in ids
  {
    if es == [] then [] else (if es[0].id in ids then [es[0]] else []) + WithIds(es[1..], ids)
  }

  function OfInvoice(es: seq<Entry>, i: nat): (r: seq<Entry>)
    ensures forall e :: e in r <==> e in es && e.invoice == i
  {
    if es == [] then [] else (if es[0].invoice == i then [es[0]] else []) + OfInvoice(es[1..], i)
  }

  function Drop(b: Books, e: Entry): Books
    requires e in b.entries && e.payment in b.payments && e.invoice in b.invoices
  {
    var pay, inv := b.payments[e.payment], b.invoices[e.invoice];
    Books(b.payments[e.payment :=
            pay.(residual := pay.residual + (e.amount - e.paymentOpen), entries := pay.entries - {e.id})],
          b.invoices[e.invoice := inv.(residual := inv.residual + (e.amount - e.invoiceOpen))],
          Without(b.entries, e.id), b.next)
  }

  predicate DroppableAll(b: Books, es: seq<Entry>) {
    && (forall k :: 0 <= k < |es| ==> es[k] in b.entries && es[k].payment in b.payments && es[k].invoice in b.invoices)
    && (forall j, k :: 0 <= j < k < |es| ==> es[j].id != es[k].id)
  }

  function DropAll(b: Books, es: seq<Entry>): Books
    requires DroppableAll(b, es)
    decreases |es|
  {
    if es == [] then b else DropAll(Drop(b, es[0]), es[1..])
  }

  lemma DropFirst(b: Books, es: seq<Entry>)
    requires DroppableAll(b, es) && es != []
    ensures DroppableAll(Drop(b, es[0]), es[1..])
    ensures DropAll(b, es) == DropAll(Drop(b, es[0]), es[1..])
  { }

  function Unmatched(e: Entry, onInvoice: bool): Entry {
    if onInvoice then e.(invoiceOpen := e.amount) else e.(paymentOpen := e.amount)
  }

  function Replace(es: seq<Entry>, old_: Entry, new_: Entry): seq<Entry> {
    seq(|es|, k requires 0 <= k < |es| => if es[k] == old_ then new_ else es[k])
  }

  function UnmatchOne(b: Books, e: Entry, onInvoice: bool): Books
    requires e in b.entries && e.payment in b.payments && e.invoice in b.invoices
  {
    var entries := Replace(b.entries, e, Unmatched(e, onInvoice));
    if onInvoice then
      var inv := b.invoices[e.invoice];
      b.(invoices := b.invoices[e.invoice := inv.(residual := inv.residual + (e.amount - e.invoiceOpen))],
          entries := entries)
    else
      var pay := b.payments[e.payment];
      b.(payments := b.payments[e.payment := pay.(residual := pay.residual + (e.amount - e.paymentOpen))],
          entries := entries)
  }

  function RemoveSpec(b: Books, e: Entry, fromInvoice: bool): Books
    requires Consistent(b) && e in b.entries
  {
    UnmatchOneKeepsConsistent(b, e, fromInvoice);
    Drop(UnmatchOne(b, e, fromInvoice), Unmatched(e, fromInvoice))
  }

  function OpenInvoiceSide(es: seq<Entry>, i: nat): seq<Entry> {
    seq(|es|, k requires 0 <= k < |es| => if es[k].invoice == i then Unmatched(es[k], true) else es[k])
  }

  function OpenPaymentSide(es: seq<Entry>, p: nat): seq<Entry> {
    seq(|es|, k requires 0 <= k < |es| => if es[k].payment == p then Unmatched(es[k], false) else es[k])
  }

  /** Odoo's own reset: every reconciliation of the document's lines is removed. */
  function UnmatchInvoice(b: Books, i: nat): Books
    requires i in b.invoices
  {
    var inv := b.invoices[i];
    b.(invoices := b.invoices[i := inv.(residual := inv.amount, other := 0, posted := false)],
       entries := OpenInvoiceSide(b.entries, i))
  }

  function UnmatchPayment(b: Books, p: nat): Books
    requires p in b.payments
  {
    var pay := b.payments[p];
    b.(payments := b.payments[p := pay.(residual := pay.amount, posted := false)],
       entries := OpenPaymentSide(b.entries, p))
  }

  function ResetInvoiceSpec(b: Books, i: nat): Books
    requires Consistent(b) && i in b.invoices
  {
    UnmatchInvoiceKeepsConsistent(b, i);
    var open := UnmatchInvoice(b, i);
    DroppableInvoice(open, i);
    DropAll(open, OfInvoice(open.entries, i))
  }

  function ResetPaymentSpec(b: Books, p: nat): Books
    requires Consistent(b) && p in b.payments
  {
    UnmatchPaymentKeepsConsistent(b, p);
    var open := UnmatchPayment(b, p);
    DroppableIds(open, b.payments[p].entries);
    DropAll(open, WithIds(open.entries, b.payments[p].entries))
  }

  // ----- Invariants -----

  /** What entries have reconciled with deposit `p`. */
  function MatchedPayment(es: seq<Entry>, p: nat): int {
    if es == [] then 0
    else (if es[0].payment == p then es[0].amount - es[0].paymentOpen else 0) + MatchedPayment(es[1..], p)
  }

  function MatchedInvoice(es: seq<Entry>, i: nat): int {
    if es == [] then 0
    else (if es[0].invoice == i then es[0].amount - es[0].invoiceOpen else 0) + MatchedInvoice(es[1..], i)
  }

  ghost predicate DistinctIds(es: seq<Entry>) {
    forall j, k :: 0 <= j < k < |es| ==> es[j].id != es[k].id
  }

  ghost predicate EntryLinked(b: Books, e: Entry) {
    && e.id < b.next && e.payment in b.payments && e.invoice in b.invoices
    && 0 <= e.paymentOpen <= e.amount && 0 <= e.invoiceOpen <= e.amount
    && e.id in b.payments[e.payment].entries
  }

  ghost predicate HasEntry(es: seq<Entry>, id: nat, p: nat) {
    exists e :: e in es && e.id == id && e.payment == p
  }

  ghost predicate Linked(b: Books) {
    && DistinctIds(b.entries)
    && (forall e :: e in b.entries ==> EntryLinked(b, e))
    && (forall p, id :: p in b.payments && id in b.payments[p].entries ==> HasEntry(b.entries, id, p))
  }

  ghost predicate PaymentSums(b: Books, p: nat)
    requires p in b.payments
  {
    b.payments[p].residual == b.payments[p].amount - MatchedPayment(b.entries, p) >= 0
  }

  ghost predicate InvoiceSums(b: Books, i: nat)
    requires i in b.invoices
  {
    && b.invoices[i].other >= 0
    && b.invoices[i].residual == b.invoices[i].amount - b.invoices[i].other - MatchedInvoice(b.entries, i) >= 0
  }

  ghost predicate Summed(b: Books) {
    && (forall p :: p in b.payments ==> PaymentSums(b, p))
    && (forall i :: i in b.invoices ==> InvoiceSums(b, i))
  }

  /** True at every moment of every step: residuals and reconciled amounts add up. */
  ghost predicate Consistent(b: Books) { Linked(b) && Summed(b) }

  /** The same documents with the same terms; only residuals and entries may differ. */
  ghost predicate SameTerms(b: Books, c: Books) {
    && c.payments.Keys == b.payments.Keys && c.invoices.Keys == b.invoices.Keys && c.next == b.next
    && (forall p :: p in b.payments ==>
          && c.payments[p].account == b.payments[p].account && c.payments[p].side == b.payments[p].side
          && c.payments[p].amount == b.payments[p].amount && c.payments[p].posted == b.payments[p].posted)
    && (forall i :: i in b.invoices ==> c.invoices[i] == b.invoices[i].(residual := c.invoices[i].residual))
  }

  ghost predicate Balanced(e: Entry, pay: Payment, inv: Invoice) {
    && e.debit.side == Debit && e.credit.side == Credit && e.debit.amount == e.credit.amount == e.amount > 0
    && pay.side == Opposite(inv.side)
    && (if pay.side == Credit then e.debit.account == pay.account && e.credit.account == inv.account
        else e.credit.account == pay.account && e.debit.account == inv.account)
  }

  /** True between steps: every entry is balanced, posted on both ends and fully reconciled. */
  ghost predicate EntrySettled(b: Books, e: Entry)
    requires e.payment in b.payments && e.invoice in b.invoices
  {
    && e.paymentOpen == 0 && e.invoiceOpen == 0
    && Balanced(e, b.payments[e.payment], b.invoices[e.invoice])
    && b.payments[e.payment].posted && b.invoices[e.invoice].posted
  }

  ghost predicate Settled(b: Books) {
    && Consistent(b)
    && (forall e :: e in b.entries ==> EntryLinked(b, e) && EntrySettled(b, e))
  }

  function LivePayment(es: seq<Entry>, p: nat): int {
    if es == [] then 0 else (if es[0].payment == p then es[0].amount else 0) + LivePayment(es[1..], p)
  }

  function LiveInvoice(es: seq<Entry>, i: nat): int {
    if es == [] then 0 else (if es[0].invoice == i then es[0].amount else 0) + LiveInvoice(es[1..], i)
  }

  lemma {:induction false} LiveIsMatched(es: seq<Entry>, n: nat)
    requires forall e :: e in es ==> e.paymentOpen == 0 && e.invoiceOpen == 0
    ensures LivePayment(es, n) == MatchedPayment(es, n) && LiveInvoice(es, n) == MatchedInvoice(es, n)
    decreases |es|
  {
    if es != [] {
      assert es[0] in es;
      LiveIsMatched(es[1..], n);
    }
  }

  lemma {:induction false} MatchedSnoc(es: seq<Entry>, e: Entry, n: nat)
    ensures MatchedPayment(es + [e], n) == MatchedPayment(es, n)
            + if e.payment == n then e.amount - e.paymentOpen else 0
    ensures MatchedInvoice(es + [e], n) == MatchedInvoice(es, n)
            + if e.invoice == n then e.amount - e.invoiceOpen else 0
    decreases |es|
  {
    if es == [] {
      assert (es + [e])[1..] == [];
    } else {
      assert (es + [e])[1..] == es[1..] + [e];
      MatchedSnoc(es[1..], e, n);
    }
  }

  lemma {:induction false} WithoutAbsent(es: seq<Entry>, id: nat)
    requires forall e :: e in es ==> e.id != id
    ensures Without(es, id) == es
    decreases |es|
  {
    if es != [] {
      assert es[0] in es;
      WithoutAbsent(es[1..], id);
    }
  }

  lemma {:induction false} MatchedWithout(es: seq<Entry>, e: Entry, n: nat)
    requires DistinctIds(es) && e in es
    ensures MatchedPayment(Without(es, e.id), n) == MatchedPayment(es, n)
            - if e.payment == n then e.amount - e.paymentOpen else 0
    ensures MatchedInvoice(Without(es, e.id), n) == MatchedInvoice(es, n)
            - if e.invoice == n then e.amount - e.invoiceOpen else 0
    decreases |es|
  {
    var tail := es[1..];
    assert DistinctIds(tail);
    if es[0] == e {
      forall x | x in tail ensures x.id != e.id { }
      WithoutAbsent(tail, e.id);
      assert Without(es, e.id) == tail;
    } else {
      assert e in tail;
      MatchedWithout(tail, e, n);
      assert Without(es, e.id) == [es[0]] + Without(tail, e.id);
      assert Without(es, e.id)[1..] == Without(tail, e.id);
    }
  }

  lemma {:induction false} WithoutDistinct(es: seq<Entry>, id: nat)
    requires DistinctIds(es)
    ensures DistinctIds(Without(es, id))
    decreases |es|
  {
    if es != [] {
      WithoutDistinct(es[1..], id);
      assert forall x :: x in Without(es[1..], id) ==> x in es[1..];
      forall x | x in es[1..] ensures x.id != es[0].id { }
    }
  }

  lemma SameId(b: Books, e: Entry, x: Entry)
    requires Linked(b) && e in b.entries && x in b.entries && x.id == e.id
    ensures x == e
  { }

  lemma DropKeepsLinked(b: Books, e: Entry)
    requires Linked(b) && e in b.entries
    ensures Linked(Drop(b, e)) && SameTerms(b, Drop(b, e))
  {
    var d := Drop(b, e);
    WithoutDistinct(b.entries, e.id);
    forall x | x in d.entries ensures EntryLinked(d, x) { assert EntryLinked(b, x); }
    forall p, id | p in d.payments && id in d.payments[p].entries ensures HasEntry(d.entries, id, p) {
      assert HasEntry(b.entries, id, p);
      var x :| x in b.entries && x.id == id && x.payment == p;
      if id == e.id { SameId(b, e, x); }
      assert x in d.entries;
    }
  }

  lemma DropKeepsConsistent(b: Books, e: Entry)
    requires Consistent(b) && e in b.entries
    ensures Consistent(Drop(b, e)) && SameTerms(b, Drop(b, e))
  {
    var d := Drop(b, e);
    DropKeepsLinked(b, e);
    forall p | p in d.payments ensures PaymentSums(d, p) {
      assert PaymentSums(b, p);
      MatchedWithout(b.entries, e, p);
    }
    forall i | i in d.invoices ensures InvoiceSums(d, i) {
      assert InvoiceSums(b, i);
      MatchedWithout(b.entries, e, i);
    }
  }

  lemma Droppable(b: Books, es: seq<Entry>)
    requires Linked(b) && DistinctIds(es) && forall e :: e in es ==> e in b.entries
    ensures DroppableAll(b, es)
  {
    forall k | 0 <= k < |es| ensures es[k] in b.entries && es[k].payment in b.payments && es[k].invoice in b.invoices {
      assert es[k] in es;
      assert EntryLinked(b, es[k]);
    }
  }

  lemma DroppableIds(b: Books, ids: set<nat>)
    requires Linked(b)
    ensures DroppableAll(b, WithIds(b.entries, ids))
  {
    WithIdsDistinct(b.entries, ids);
    Droppable(b, WithIds(b.entries, ids));
  }

  lemma DroppableInvoice(b: Books, i: nat)
    requires Linked(b)
    ensures DroppableAll(b, OfInvoice(b.entries, i))
  {
    OfInvoiceDistinct(b.entries, i);
    Droppable(b, OfInvoice(b.entries, i));
  }

  lemma {:induction false} WithIdsDistinct(es: seq<Entry>, ids: set<nat>)
    requires DistinctIds(es)
    ensures DistinctIds(WithIds(es, ids))
    decreases |es|
  {
    if es != [] {
      WithIdsDistinct(es[1..], ids);
      assert forall x :: x in WithIds(es[1..], ids) ==> x in es[1..];
      forall x | x in es[1..] ensures x.id != es[0].id { }
    }
  }

  lemma {:induction false} OfInvoiceDistinct(es: seq<Entry>, i: nat)
    requires DistinctIds(es)
    ensures DistinctIds(OfInvoice(es, i))
    decreases |es|
  {
    if es != [] {
      OfInvoiceDistinct(es[1..], i);
      assert forall x :: x in OfInvoice(es[1..], i) ==> x in es[1..];
      forall x | x in es[1..] ensures x.id != es[0].id { }
    }
  }

  lemma {:induction false} DropAllKeepsConsistent(b: Books, es: seq<Entry>)
    requires Consistent(b) && DroppableAll(b, es)
    ensures Consistent(DropAll(b, es)) && SameTerms(b, DropAll(b, es))
    ensures forall e :: e in DropAll(b, es).entries <==> e in b.entries && e !in es
    decreases |es|
  {
    if es != [] {
      var e, b' := es[0], Drop(b, es[0]);
      assert e in es;
      DropKeepsConsistent(b, e);
      DropAllKeepsConsistent(b', es[1..]);
      forall x ensures x in DropAll(b, es).entries <==> x in b.entries && x !in es {
        assert x in es <==> x == e || x in es[1..];
        if x in b.entries && x.id == e.id { SameId(b, e, x); }
      }
    }
  }

  lemma UnmatchOneKeepsConsistent(b: Books, e: Entry, onInvoice: bool)
    requires Consistent(b) && e in b.entries
    ensures EntryLinked(b, e)
    ensures Consistent(UnmatchOne(b, e, onInvoice))
    ensures Unmatched(e, onInvoice) in UnmatchOne(b, e, onInvoice).entries
  {
    assert EntryLinked(b, e);
    var u, e' := UnmatchOne(b, e, onInvoice), Unmatched(e, onInvoice);
    ReplaceMembers(b.entries, e, e');
    forall x | x in u.entries ensures EntryLinked(u, x) {
      if x != e' { assert EntryLinked(b, x); }
    }
    forall p, id | p in u.payments && id in u.payments[p].entries ensures HasEntry(u.entries, id, p) {
      assert HasEntry(b.entries, id, p);
      var x :| x in b.entries && x.id == id && x.payment == p;
      assert (if x == e then e' else x) in u.entries;
    }
    forall p | p in u.payments ensures PaymentSums(u, p) {
      assert PaymentSums(b, p);
      MatchedReplace(b.entries, e, onInvoice, p);
    }
    forall i | i in u.invoices ensures InvoiceSums(u, i) {
      assert InvoiceSums(b, i);
      MatchedReplace(b.entries, e, onInvoice, i);
    }
  }

  lemma ReplaceMembers(es: seq<Entry>, e: Entry, e': Entry)
    requires e in es && e'.id == e.id
    ensures forall x :: x in Replace(es, e, e') ==> x == e' || (x in es && x != e)
    ensures forall x :: x in es && x != e ==> x in Replace(es, e, e')
    ensures e' in Replace(es, e, e')
    ensures DistinctIds(es) ==> DistinctIds(Replace(es, e, e'))
  {
    var r := Replace(es, e, e');
    forall x | x in es ensures (if x == e then e' else x) in r {
      var k :| 0 <= k < |es| && es[k] == x;
      assert r[k] in r;
    }
  }

  lemma {:induction false} MatchedReplaceAbsent(es: seq<Entry>, e: Entry, e': Entry)
    requires e !in es
    ensures Replace(es, e, e') == es
  {
    forall k | 0 <= k < |es| ensures Replace(es, e, e')[k] == es[k] { assert es[k] in es; }
  }

  lemma {:induction false} MatchedReplace(es: seq<Entry>, e: Entry, onInvoice: bool, n: nat)
    requires DistinctIds(es) && e in es
    ensures var r := Replace(es, e, Unmatched(e, onInvoice));
            && MatchedPayment(r, n)
              == MatchedPayment(es, n) - (if e.payment == n && !onInvoice then e.amount - e.paymentOpen else 0)
            && MatchedInvoice(r, n)
              == MatchedInvoice(es, n) - (if e.invoice == n && onInvoice then e.amount - e.invoiceOpen else 0)
    decreases |es|
  {
    var tail, e' := es[1..], Unmatched(e, onInvoice);
    assert DistinctIds(tail);
    assert Replace(es, e, e')[1..] == Replace(tail, e, e');
    if es[0] == e {
      forall x | x in tail ensures x.id != e.id { }
      MatchedReplaceAbsent(tail, e, e');
    } else {
      MatchedReplace(tail, e, onInvoice, n);
    }
  }

  lemma {:induction false} OpenSides(es: seq<Entry>, n: nat, m: nat)
    ensures MatchedInvoice(OpenInvoiceSide(es, n), m) == if m == n then 0 else MatchedInvoice(es, m)
    ensures MatchedPayment(OpenInvoiceSide(es, n), m) == MatchedPayment(es, m)
    ensures MatchedPayment(OpenPaymentSide(es, n), m) == if m == n then 0 else MatchedPayment(es, m)
    ensures MatchedInvoice(OpenPaymentSide(es, n), m) == MatchedInvoice(es, m)
    decreases |es|
  {
    if es != [] {
      OpenSides(es[1..], n, m);
      assert OpenInvoiceSide(es, n)[1..] == OpenInvoiceSide(es[1..], n);
      assert OpenPaymentSide(es, n)[1..] == OpenPaymentSide(es[1..], n);
    }
  }

  lemma UnmatchInvoiceKeepsConsistent(b: Books, i: nat)
    requires Consistent(b) && i in b.invoices
    ensures Consistent(UnmatchInvoice(b, i))
  {
    var u := UnmatchInvoice(b, i);
    forall x | x in u.entries ensures EntryLinked(u, x) {
      var k :| 0 <= k < |u.entries| && u.entries[k] == x;
      assert EntryLinked(b, b.entries[k]);
    }
    forall p, id | p in u.payments && id in u.payments[p].entries ensures HasEntry(u.entries, id, p) {
      KeepsEntry(b.entries, u.entries, id, p);
    }
    forall p | p in u.payments ensures PaymentSums(u, p) {
      assert PaymentSums(b, p);
      OpenSides(b.entries, i, p);
    }
    forall j | j in u.invoices ensures InvoiceSums(u, j) {
      assert InvoiceSums(b, j);
      OpenSides(b.entries, i, j);
    }
  }

  lemma UnmatchPaymentKeepsConsistent(b: Books, p: nat)
    requires Consistent(b) && p in b.payments
    ensures Consistent(UnmatchPayment(b, p))
  {
    var u := UnmatchPayment(b, p);
    forall x | x in u.entries ensures EntryLinked(u, x) {
      var k :| 0 <= k < |u.entries| && u.entries[k] == x;
      assert EntryLinked(b, b.entries[k]);
    }
    forall q, id | q in u.payments && id in u.payments[q].entries ensures HasEntry(u.entries, id, q) {
      KeepsEntry(b.entries, u.entries, id, q);
    }
    forall q | q in u.payments ensures PaymentSums(u, q) {
      assert PaymentSums(b, q);
      OpenSides(b.entries, p, q);
    }
    forall j | j in u.invoices ensures InvoiceSums(u, j) {
      assert InvoiceSums(b, j);
      OpenSides(b.entries, p, j);
    }
  }

  lemma KeepsEntry(es: seq<Entry>, us: seq<Entry>, id: nat, p: nat)
    requires |us| == |es| && forall k :: 0 <= k < |es| ==> us[k].id == es[k].id && us[k].payment == es[k].payment
    requires HasEntry(es, id, p)
    ensures HasEntry(us, id, p)
  {
    var x :| x in es && x.id == id && x.payment == p;
    var k :| 0 <= k < |es| && es[k] == x;
    assert us[k] in us;
  }

  // ----- Every step keeps the books -----

  lemma AssignKeepsLinked(b: Books, p: nat, i: nat)
    requires Linked(b) && p in b.payments && i in b.invoices
    requires b.payments[p].residual >= 0 && b.invoices[i].residual >= 0
    ensures Linked(AssignSpec(b, p, i))
  {
    var a := AssignSpec(b, p, i);
    if a != b {
      var e := a.entries[|b.entries|];
      assert a.entries == b.entries + [e];
      forall x | x in b.entries ensures x.id < b.next { assert EntryLinked(b, x); }
      forall x | x in a.entries ensures EntryLinked(a, x) {
        if x != e { assert EntryLinked(b, x); }
      }
      forall q, id | q in a.payments && id in a.payments[q].entries ensures HasEntry(a.entries, id, q) {
        if id == b.next && q == p {
          assert e in a.entries;
        } else {
          assert HasEntry(b.entries, id, q);
          var x :| x in b.entries && x.id == id && x.payment == q;
          assert x in a.entries;
        }
      }
    }
  }

  lemma AssignKeepsSettled(b: Books, p: nat, i: nat)
    requires Settled(b) && p in b.payments && i in b.invoices
    requires b.payments[p].posted && b.invoices[i].posted && b.payments[p].side == Opposite(b.invoices[i].side)
    ensures Settled(AssignSpec(b, p, i))
  {
    var a := AssignSpec(b, p, i);
    assert PaymentSums(b, p) && InvoiceSums(b, i);
    AssignKeepsLinked(b, p, i);
    if a != b {
      var e := a.entries[|b.entries|];
      assert a.entries == b.entries + [e];
      forall q | q in a.payments ensures PaymentSums(a, q) {
        assert PaymentSums(b, q);
        MatchedSnoc(b.entries, e, q);
      }
      forall j | j in a.invoices ensures InvoiceSums(a, j) {
        assert InvoiceSums(b, j);
        MatchedSnoc(b.entries, e, j);
      }
      forall x | x in a.entries ensures EntryLinked(a, x) && EntrySettled(a, x) {
        if x != e { assert EntryLinked(b, x) && EntrySettled(b, x); }
      }
    }
  }

  lemma UnmatchThenDrop(b: Books, e: Entry, fromInvoice: bool)
    requires e in b.entries && e.payment in b.payments && e.invoice in b.invoices
    requires e.paymentOpen == 0 && e.invoiceOpen == 0
    requires Unmatched(e, fromInvoice) in UnmatchOne(b, e, fromInvoice).entries
    ensures var r := Drop(UnmatchOne(b, e, fromInvoice), Unmatched(e, fromInvoice));
            var pay, inv := b.payments[e.payment], b.invoices[e.invoice];
            && r.payments == b.payments[e.payment := pay.(residual := pay.residual + e.amount,
                entries := pay.entries - {e.id})]
            && r.invoices == b.invoices[e.invoice := inv.(residual := inv.residual + e.amount)]
            && r.entries == Without(Replace(b.entries, e, Unmatched(e, fromInvoice)), e.id)
  { }

  lemma RemoveShape(b: Books, e: Entry, fromInvoice: bool)
    requires Consistent(b) && e in b.entries
    requires EntryLinked(b, e) && e.paymentOpen == 0 && e.invoiceOpen == 0
    ensures var r := RemoveSpec(b, e, fromInvoice);
            var pay, inv := b.payments[e.payment], b.invoices[e.invoice];
            && r.payments == b.payments[e.payment := pay.(residual := pay.residual + e.amount,
                entries := pay.entries - {e.id})]
            && r.invoices == b.invoices[e.invoice := inv.(residual := inv.residual + e.amount)]
            && r.entries == Without(Replace(b.entries, e, Unmatched(e, fromInvoice)), e.id)
  {
    UnmatchOneKeepsConsistent(b, e, fromInvoice);
    UnmatchThenDrop(b, e, fromInvoice);
  }

  lemma RemoveMembers(b: Books, e: Entry, fromInvoice: bool)
    requires Consistent(b) && e in b.entries
    ensures Consistent(RemoveSpec(b, e, fromInvoice))
    ensures forall x :: x in RemoveSpec(b, e, fromInvoice).entries <==> x in b.entries && x != e
  {
    UnmatchOneKeepsConsistent(b, e, fromInvoice);
    var u, e' := UnmatchOne(b, e, fromInvoice), Unmatched(e, fromInvoice);
    DropKeepsConsistent(u, e');
    ReplaceMembers(b.entries, e, e');
    forall x ensures x in Drop(u, e').entries <==> x in b.entries && x != e {
      if x in b.entries && x.id == e.id { SameId(b, e, x); }
    }
  }

  /** `r` is `b` with the amount of entry `e` back on its deposit and its invoice, and the entry off the deposit. */
  predicate GivenBack(b: Books, r: Books, e: Entry) {
    && e.payment in b.payments && e.invoice in b.invoices
    && var pay, inv := b.payments[e.payment], b.invoices[e.invoice];
    && r.payments == b.payments[e.payment := pay.(residual := pay.residual + e.amount, entries := pay.entries - {e.id})]
    && r.invoices == b.invoices[e.invoice := inv.(residual := inv.residual + e.amount)]
  }

  lemma GivenBackSettled(b: Books, r: Books, e: Entry)
    requires Settled(b) && Consistent(r) && GivenBack(b, r, e)
    requires forall x :: x in r.entries ==> x in b.entries
    ensures Settled(r)
  {
    forall x | x in r.entries ensures KeptEntry(b, r, x) { assert EntryLinked(b, x); }
    KeepsSettled(b, r);
  }

  /** Removing either partial of an entry gives the deposit and the invoice their amounts back. */
  lemma RemoveUndoes(b: Books, e: Entry, fromInvoice: bool)
    requires Settled(b) && e in b.entries
    ensures EntryLinked(b, e)
    ensures var r := RemoveSpec(b, e, fromInvoice);
            && Settled(r)
            && (forall x :: x in r.entries <==> x in b.entries && x != e)
            && GivenBack(b, r, e)
  {
    assert EntryLinked(b, e) && EntrySettled(b, e);
    RemoveShape(b, e, fromInvoice);
    RemoveMembers(b, e, fromInvoice);
    GivenBackSettled(b, RemoveSpec(b, e, fromInvoice), e);
  }

  lemma FreshId(b: Books, p: nat)
    requires Linked(b) && p in b.payments
    ensures b.next !in b.payments[p].entries && forall x :: x in b.entries ==> x.id != b.next
  {
    forall x | x in b.entries ensures x.id != b.next { assert EntryLinked(b, x); }
    assert b.next in b.payments[p].entries ==> HasEntry(b.entries, b.next, p);
  }

  lemma AssignedMaps(b: Books, p: nat, i: nat, a: Books, e: Entry)
    requires p in b.payments && i in b.invoices && b.next !in b.payments[p].entries
    requires a == AssignSpec(b, p, i) && e in a.entries && e !in b.entries
    ensures e.payment == p && e.invoice == i && e.id == b.next && p in a.payments && i in a.invoices
    ensures GivenBack(a, b, e)
  {
    var pay := b.payments[p];
    assert (pay.entries + {b.next}) - {b.next} == pay.entries;
  }

  /** Applying a deposit and removing the application restores every document and leaves the same entries. */
  lemma AssignThenRemove(b: Books, p: nat, i: nat, fromInvoice: bool, a: Books, e: Entry, r: Books)
    requires Settled(b) && Settled(a) && p in b.payments && i in b.invoices
    requires a == AssignSpec(b, p, i) && e in a.entries && e !in b.entries
    requires r == RemoveSpec(a, e, fromInvoice)
    ensures r.payments == b.payments && r.invoices == b.invoices
    ensures forall x :: x in r.entries <==> x in b.entries
  {
    FreshId(b, p);
    AssignedMaps(b, p, i, a, e);
    AssignedMembers(b, p, i, a, e);
    RemoveUndoes(a, e, fromInvoice);
    GivenBackSame(a, b, r, e);
  }

  lemma GivenBackSame(a: Books, b: Books, r: Books, e: Entry)
    requires GivenBack(a, b, e) && GivenBack(a, r, e)
    ensures r.payments == b.payments && r.invoices == b.invoices
  { }

  lemma AssignedMembers(b: Books, p: nat, i: nat, a: Books, e: Entry)
    requires p in b.payments && i in b.invoices
    requires a == AssignSpec(b, p, i) && e in a.entries && e !in b.entries
    ensures forall x :: x in b.entries <==> x in a.entries && x != e
  { }

  lemma {:induction false} NoneLeft(es: seq<Entry>, n: nat)
    ensures (forall e :: e in es ==> e.payment != n) ==> MatchedPayment(es, n) == 0
    ensures (forall e :: e in es ==> e.invoice != n) ==> MatchedInvoice(es, n) == 0
    decreases |es|
  {
    if es != [] {
      assert es[0] in es;
      NoneLeft(es[1..], n);
    }
  }

  /** An entry that survives, on documents that keep their terms. */
  ghost predicate KeptEntry(b: Books, r: Books, e: Entry) {
    && e in b.entries && EntryLinked(b, e) && e.payment in r.payments && e.invoice in r.invoices
    && r.payments[e.payment].account == b.payments[e.payment].account
    && r.payments[e.payment].side == b.payments[e.payment].side
    && r.payments[e.payment].posted == b.payments[e.payment].posted
    && r.invoices[e.invoice].account == b.invoices[e.invoice].account
    && r.invoices[e.invoice].side == b.invoices[e.invoice].side
    && r.invoices[e.invoice].posted == b.invoices[e.invoice].posted
  }

  lemma KeepsSettled(b: Books, r: Books)
    requires Settled(b) && Consistent(r)
    requires forall e :: e in r.entries ==> KeptEntry(b, r, e)
    ensures Settled(r)
  {
    forall e | e in r.entries ensures EntryLinked(r, e) && EntrySettled(r, e) {
      assert KeptEntry(b, r, e);
      assert EntrySettled(b, e);
      assert EntryLinked(r, e);
    }
  }

  lemma ResetInvoiceMembers(b: Books, i: nat)
    requires Consistent(b) && i in b.invoices
    ensures Consistent(ResetInvoiceSpec(b, i)) && SameTerms(UnmatchInvoice(b, i), ResetInvoiceSpec(b, i))
    ensures forall e :: e in ResetInvoiceSpec(b, i).entries <==> e in b.entries && e.invoice != i
  {
    UnmatchInvoiceKeepsConsistent(b, i);
    var u := UnmatchInvoice(b, i);
    var doomed := OfInvoice(u.entries, i);
    DroppableInvoice(u, i);
    DropAllKeepsConsistent(u, doomed);
    InvoiceLeftovers(b, i, u.entries, doomed);
    forall e ensures e in DropAll(u, doomed).entries <==> e in b.entries && e.invoice != i { }
  }

  lemma InvoiceLeftovers(b: Books, i: nat, us: seq<Entry>, doomed: seq<Entry>)
    requires i in b.invoices && us == UnmatchInvoice(b, i).entries && doomed == OfInvoice(us, i)
    ensures forall e :: e in us && e !in doomed <==> e in b.entries && e.invoice != i
  {
    forall e ensures e in us && e !in doomed <==> e in b.entries && e.invoice != i {
      if e in b.entries && e.invoice != i {
        var k :| 0 <= k < |b.entries| && b.entries[k] == e;
        assert us[k] == e;
      }
    }
  }

  /** Resetting an invoice deletes exactly its entries; deposits get back what those had taken. */
  lemma ResetInvoiceUndoes(b: Books, i: nat)
    requires Settled(b) && i in b.invoices
    ensures var r := ResetInvoiceSpec(b, i);
            && Settled(r) && i in r.invoices
            && (forall e :: e in r.entries <==> e in b.entries && e.invoice != i)
            && !r.invoices[i].posted && r.invoices[i].residual == r.invoices[i].amount == b.invoices[i].amount
            && (forall p :: p in b.payments ==>
                  p in r.payments && r.payments[p].residual == r.payments[p].amount - LivePayment(r.entries, p))
  {
    ResetInvoiceMembers(b, i);
    var u, r := UnmatchInvoice(b, i), ResetInvoiceSpec(b, i);
    assert InvoiceSums(r, i);
    NoneLeft(r.entries, i);
    forall e | e in r.entries ensures KeptEntry(b, r, e) { assert EntryLinked(b, e); }
    KeepsSettled(b, r);
    forall p | p in b.payments ensures r.payments[p].residual == r.payments[p].amount - LivePayment(r.entries, p) {
      assert PaymentSums(r, p);
      SettledSums(r, p);
    }
  }

  lemma SettledSums(b: Books, n: nat)
    requires Settled(b)
    ensures LivePayment(b.entries, n) == MatchedPayment(b.entries, n)
    ensures LiveInvoice(b.entries, n) == MatchedInvoice(b.entries, n)
  {
    forall e | e in b.entries ensures e.paymentOpen == 0 && e.invoiceOpen == 0 {
      assert EntryLinked(b, e) && EntrySettled(b, e);
    }
    LiveIsMatched(b.entries, n);
  }

  lemma OwnEntries(b: Books, p: nat, e: Entry)
    requires Linked(b) && p in b.payments && e in b.entries
    ensures e.id in b.payments[p].entries <==> e.payment == p
  {
    assert EntryLinked(b, e);
    if e.id in b.payments[p].entries {
      assert HasEntry(b.entries, e.id, p);
      var x :| x in b.entries && x.id == e.id && x.payment == p;
      SameId(b, e, x);
    }
  }

  lemma OpenedMembers(es: seq<Entry>, p: nat)
    ensures forall e: Entry :: e.payment != p ==> (e in OpenPaymentSide(es, p) <==> e in es)
  {
    var us := OpenPaymentSide(es, p);
    forall e: Entry | e.payment != p ensures e in us <==> e in es {
      if e in es {
        var k :| 0 <= k < |es| && es[k] == e;
        assert us[k] == e;
      }
    }
  }

  lemma ResetPaymentMembers(b: Books, p: nat)
    requires Consistent(b) && p in b.payments
    ensures Consistent(ResetPaymentSpec(b, p)) && SameTerms(UnmatchPayment(b, p), ResetPaymentSpec(b, p))
    ensures forall e :: e in ResetPaymentSpec(b, p).entries <==> e in b.entries && e.payment != p
  {
    UnmatchPaymentKeepsConsistent(b, p);
    var u := UnmatchPayment(b, p);
    var ids := b.payments[p].entries;
    DroppableIds(u, ids);
    DropAllKeepsConsistent(u, WithIds(u.entries, ids));
    forall e | e in u.entries ensures e.id in ids <==> e.payment == p { OwnEntries(u, p, e); }
    OpenedMembers(b.entries, p);
  }

  /** Resetting a deposit payment deletes exactly its entries; it ends unapplied. */
  lemma ResetPaymentUndoes(b: Books, p: nat)
    requires Settled(b) && p in b.payments
    ensures var r := ResetPaymentSpec(b, p);
            && Settled(r) && p in r.payments
            && (forall e :: e in r.entries <==> e in b.entries && e.payment != p)
            && !r.payments[p].posted && r.payments[p].residual == r.payments[p].amount == b.payments[p].amount
            && r.payments[p].entries == {}
            && (forall i :: i in b.invoices ==>
                  && i in r.invoices
                  && r.invoices[i].residual == r.invoices[i].amount - r.invoices[i].other - LiveInvoice(r.entries, i))
  {
    ResetPaymentMembers(b, p);
    var u, r := UnmatchPayment(b, p), ResetPaymentSpec(b, p);
    assert PaymentSums(r, p);
    NoneLeft(r.entries, p);
    assert r.payments[p].entries == {} by {
      if id :| id in r.payments[p].entries { assert false; }
    }
    forall e | e in r.entries ensures KeptEntry(b, r, e) { assert EntryLinked(b, e); }
    KeepsSettled(b, r);
    forall i | i in b.invoices
      ensures i in r.invoices
              && r.invoices[i].residual == r.invoices[i].amount - r.invoices[i].other - LiveInvoice(r.entries, i)
    {
      assert InvoiceSums(r, i);
      SettledSums(r, i);
    }
  }

  // ----- Runs -----

  datatype Step =
    | NewPayment(id: nat, account: nat, side: Side, amount: nat)
    | NewInvoice(id: nat, account: nat, side: Side, amount: nat)
    | PostPayment(id: nat)
    | PostInvoice(id: nat)
    | Pay(invoice: nat, cash: nat)
    | Apply(payment: nat, invoice: nat)
    | Remove(entry: Entry, fromInvoice: bool)
    | ResetInvoice(id: nat)
    | ResetPayment(id: nat)

  ghost predicate Enabled(b: Books, s: Step) {
    match s
    case NewPayment(id, _, _, _) => id !in b.payments
    case NewInvoice(id, _, _, _) => id !in b.invoices
    case PostPayment(id) => id in b.payments && !b.payments[id].posted
    case PostInvoice(id) => id in b.invoices && !b.invoices[id].posted
    case Pay(i, cash) => i in b.invoices && b.invoices[i].posted && cash <= b.invoices[i].residual
    case Apply(p, i) =>
      && p in b.payments && i in b.invoices && b.payments[p].posted && b.invoices[i].posted
      && b.payments[p].side == Opposite(b.invoices[i].side)
    case Remove(e, _) => e in b.entries
    case ResetInvoice(id) => id in b.invoices
    case ResetPayment(id) => id in b.payments
  }

  ghost function Next(b: Books, s: Step): Books
    requires Settled(b) && Enabled(b, s)
  {
    match s
    case NewPayment(id, account, side, amount) =>
        b.(payments := b.payments[id := Payment(account, side, amount, amount, false, {})])
    case NewInvoice(id, account, side, amount) =>
        b.(invoices := b.invoices[id := Invoice(account, side, amount, amount, 0, false)])
    case PostPayment(id) => b.(payments := b.payments[id := b.payments[id].(posted := true)])
    case PostInvoice(id) => b.(invoices := b.invoices[id := b.invoices[id].(posted := true)])
    case Pay(i, cash) =>
      var inv := b.invoices[i];
      b.(invoices := b.invoices[i := inv.(residual := inv.residual - cash, other := inv.other + cash)])
    case Apply(p, i) => AssignSpec(b, p, i)
    case Remove(e, fromInvoice) => RemoveSpec(b, e, fromInvoice)
    case ResetInvoice(id) => ResetInvoiceSpec(b, id)
    case ResetPayment(id) => ResetPaymentSpec(b, id)
  }

  lemma DocumentStep(b: Books, s: Step)
    requires Settled(b) && Enabled(b, s)
    requires s.NewPayment? || s.NewInvoice? || s.PostPayment? || s.PostInvoice? || s.Pay?
    ensures Settled(Next(b, s))
  {
    var c := Next(b, s);
    forall e | e in c.entries ensures EntryLinked(c, e) && EntrySettled(c, e) {
      assert EntryLinked(b, e) && EntrySettled(b, e);
    }
    forall p, id | p in c.payments && id in c.payments[p].entries ensures HasEntry(c.entries, id, p) {
      assert p in b.payments;
    }
    forall p | p in c.payments ensures PaymentSums(c, p) {
      if p in b.payments {
        assert PaymentSums(b, p);
      } else {
        forall e | e in b.entries ensures e.payment != p { assert EntryLinked(b, e); }
        NoneLeft(b.entries, p);
      }
    }
    forall i | i in c.invoices ensures InvoiceSums(c, i) {
      if i in b.invoices {
        assert InvoiceSums(b, i);
      } else {
        forall e | e in b.entries ensures e.invoice != i { assert EntryLinked(b, e); }
        NoneLeft(b.entries, i);
      }
    }
  }

  lemma StepKeepsSettled(b: Books, s: Step)
    requires Settled(b) && Enabled(b, s)
    ensures Settled(Next(b, s))
  {
    match s
    case NewPayment(id, _, _, _) => DocumentStep(b, s);
    case NewInvoice(id, _, _, _) => DocumentStep(b, s);
    case PostPayment(_) => DocumentStep(b, s);
    case PostInvoice(_) => DocumentStep(b, s);
    case Pay(_, _) => DocumentStep(b, s);
    case Apply(p, i) => AssignKeepsSettled(b, p, i);
    case Remove(e, fromInvoice) => RemoveUndoes(b, e, fromInvoice);
    case ResetInvoice(id) => ResetInvoiceUndoes(b, id);
    case ResetPayment(id) => ResetPaymentUndoes(b, id);
  }

  ghost predicate Leads(b: Books, s: Step, c: Books) {
    Settled(b) ==> Enabled(b, s) && c == Next(b, s)
  }

  /** `run[k + 1]` follows from `run[k]` by one step, starting from empty books. */
  ghost predicate IsRun(run: seq<Books>, steps: seq<Step>) {
    && |run| == |steps| + 1 && run[0] == Books(map[], map[], [], 0)
    && forall k :: 0 <= k < |steps| ==> Leads(run[k], steps[k], run[k + 1])
  }

  /**
    Conservation over every run: after every step each deposit's residual plus its live entries is
    its amount, each invoice's residual plus live entries plus other payments is its amount, no
    residual is negative and every entry is balanced.
  */
  lemma {:induction false} RunConserves(run: seq<Books>, steps: seq<Step>, k: nat)
    requires IsRun(run, steps) && k < |run|
    ensures var b := run[k];
            && Settled(b)
            && (forall p :: p in b.payments ==>
                  b.payments[p].residual >= 0
                    && b.payments[p].residual + LivePayment(b.entries, p) == b.payments[p].amount)
            && (forall i :: i in b.invoices ==>
                  && b.invoices[i].residual >= 0
                  && b.invoices[i].residual + LiveInvoice(b.entries, i) + b.invoices[i].other == b.invoices[i].amount)
            && (forall e :: e in b.entries ==>
                  EntryLinked(b, e) && Balanced(e, b.payments[e.payment], b.invoices[e.invoice]))
    decreases k
  {
    if k > 0 {
      RunConserves(run, steps, k - 1);
      assert Leads(run[k - 1], steps[k - 1], run[k - 1 + 1]);
      StepKeepsSettled(run[k - 1], steps[k - 1]);
    }
    var b := run[k];
    forall p | p in b.payments
      ensures b.payments[p].residual >= 0 && b.payments[p].residual + LivePayment(b.entries, p) == b.payments[p].amount
    {
      assert PaymentSums(b, p);
      SettledSums(b, p);
    }
    forall i | i in b.invoices
      ensures b.invoices[i].residual >= 0
      ensures b.invoices[i].residual + LiveInvoice(b.entries, i) + b.invoices[i].other == b.invoices[i].amount
    {
      assert InvoiceSums(b, i);
      SettledSums(b, i);
    }
    forall e | e in b.entries ensures EntryLinked(b, e) && Balanced(e, b.payments[e.payment], b.invoices[e.invoice]) {
      assert EntrySettled(b, e);
    }
  }

  // ----- Reconciling a list of deposits -----

  /** What a posted deposit on the other side than the invoice still holds; the invoice can use no other. */
  function Holding(pay: Payment, inv: Invoice): int {
    if pay.posted && pay.side != inv.side then pay.residual else 0
  }

  /** What the deposits of the list still hold for the invoice. */
  function Available(b: Books, deposits: seq<nat>, i: nat): int
    requires i in b.invoices && forall k :: 0 <= k < |deposits| ==> deposits[k] in b.payments
  {
    if deposits == [] then 0
    else Available(b, deposits[..|deposits| - 1], i)
         + Holding(b.payments[deposits[|deposits| - 1]], b.invoices[i])
  }

  lemma {:induction false} AvailableCons(b: Books, deposits: seq<nat>, i: nat)
    requires i in b.invoices && forall k :: 0 <= k < |deposits| ==> deposits[k] in b.payments
    requires deposits != []
    ensures Available(b, deposits, i)
            == Holding(b.payments[deposits[0]], b.invoices[i]) + Available(b, deposits[1..], i)
    decreases |deposits|
  {
    var n := |deposits| - 1;
    if n > 0 {
      AvailableCons(b, deposits[..n], i);
      assert deposits[..n][1..] == deposits[1..][..n - 1];
    } else {
      assert deposits[..n] == [] && deposits[1..] == [];
    }
  }

  lemma {:induction false} AvailableFrame(b: Books, c: Books, deposits: seq<nat>, i: nat)
    requires i in b.invoices && i in c.invoices && b.invoices[i].side == c.invoices[i].side
    requires forall k :: 0 <= k < |deposits| ==>
               deposits[k] in b.payments && deposits[k] in c.payments
                 && b.payments[deposits[k]] == c.payments[deposits[k]]
    ensures Available(b, deposits, i) == Available(c, deposits, i)
    decreases |deposits|
  {
    if deposits != [] { AvailableFrame(b, c, deposits[..|deposits| - 1], i); }
  }

  /** What deposit `k` of the list gives: what the invoice lacks after the ones before it, as far as it reaches. */
  function Share(b: Books, deposits: seq<nat>, i: nat, k: nat): int
    requires i in b.invoices && forall k :: 0 <= k < |deposits| ==> deposits[k] in b.payments
    requires k < |deposits|
  {
    Min(Holding(b.payments[deposits[k]], b.invoices[i]),
        Max(0, b.invoices[i].residual - Available(b, deposits[..k], i)))
  }

  function AssignFirst(b: Books, p: nat, i: nat): Books
    requires p in b.payments && i in b.invoices
  {
    if Eligible(b, p, i) then AssignSpec(b, p, i) else b
  }

  lemma {:induction false} AssignAllFrame(b: Books, deposits: seq<nat>, i: nat)
    requires Settled(b) && i in b.invoices && b.invoices[i].posted
    requires forall k :: 0 <= k < |deposits| ==> deposits[k] in b.payments
    ensures var a := AssignAll(b, deposits, i);
            && Settled(a) && a.invoices.Keys == b.invoices.Keys && a.payments.Keys == b.payments.Keys
            && (forall p :: p in b.payments && p !in deposits ==> a.payments[p] == b.payments[p])
            && (forall j :: j in b.invoices && j != i ==> a.invoices[j] == b.invoices[j])
    decreases |deposits|
  {
    if deposits != [] {
      if Eligible(b, deposits[0], i) { AssignKeepsSettled(b, deposits[0], i); }
      var c := AssignFirst(b, deposits[0], i);
      AssignAllFrame(c, deposits[1..], i);
      forall p | p in b.payments && p !in deposits ensures AssignAll(c, deposits[1..], i).payments[p] == b.payments[p] {
        assert p != deposits[0] && p !in deposits[1..];
      }
    }
  }

  lemma ShareAfterFirst(b: Books, deposits: seq<nat>, i: nat, k: nat)
    requires Settled(b) && i in b.invoices && b.invoices[i].posted
    requires forall k :: 0 <= k < |deposits| ==> deposits[k] in b.payments
    requires forall j, k :: 0 <= j < k < |deposits| ==> deposits[j] != deposits[k]
    requires 0 < k < |deposits|
    ensures Share(b, deposits, i, k) == Share(AssignFirst(b, deposits[0], i), deposits[1..], i, k - 1)
  {
    var c, rest := AssignFirst(b, deposits[0], i), deposits[1..];
    assert PaymentSums(b, deposits[0]) && InvoiceSums(b, i);
    assert deposits[k] == rest[k - 1];
    AvailableCons(b, deposits[..k], i);
    assert deposits[..k][1..] == rest[..k - 1];
    AvailableFrame(b, c, rest[..k - 1], i);
    AvailableNonNegative(b, rest[..k - 1], i);
  }

  lemma FirstShare(b: Books, deposits: seq<nat>, i: nat)
    requires Settled(b) && i in b.invoices && deposits != []
    requires forall k :: 0 <= k < |deposits| ==> deposits[k] in b.payments
    ensures var c := AssignFirst(b, deposits[0], i);
            && i in c.invoices && deposits[0] in c.payments
            && b.payments[deposits[0]].residual - c.payments[deposits[0]].residual == Share(b, deposits, i, 0)
            && b.invoices[i].residual - c.invoices[i].residual == Share(b, deposits, i, 0)
  {
    assert PaymentSums(b, deposits[0]) && InvoiceSums(b, i);
    assert deposits[..0] == [];
  }

  predicate DistinctDeposits(b: Books, deposits: seq<nat>) {
    && (forall k :: 0 <= k < |deposits| ==> deposits[k] in b.payments)
    && (forall j, k :: 0 <= j < k < |deposits| ==> deposits[j] != deposits[k])
  }

  /** What is left to do after the first deposit of the list. */
  lemma AfterFirst(b: Books, deposits: seq<nat>, i: nat)
    requires Settled(b) && i in b.invoices && b.invoices[i].posted
    requires deposits != [] && DistinctDeposits(b, deposits)
    ensures var c := AssignFirst(b, deposits[0], i);
            && Settled(c) && i in c.invoices && c.invoices[i].posted && DistinctDeposits(c, deposits[1..])
            && c.invoices[i].side == b.invoices[i].side
            && c.payments.Keys == b.payments.Keys
            && (forall p :: p in b.payments && p != deposits[0] ==> c.payments[p] == b.payments[p])
            && AssignAll(b, deposits, i) == AssignAll(c, deposits[1..], i)
            && deposits[0] !in deposits[1..]
  {
    var p := deposits[0];
    if Eligible(b, p, i) { AssignKeepsSettled(b, p, i); }
  }

  lemma {:induction false} ReconcileTotal(b: Books, deposits: seq<nat>, i: nat)
    requires Settled(b) && i in b.invoices && b.invoices[i].posted && DistinctDeposits(b, deposits)
    ensures var a := AssignAll(b, deposits, i);
            i in a.invoices && b.invoices[i].residual - a.invoices[i].residual
              == Min(b.invoices[i].residual, Available(b, deposits, i))
    decreases |deposits|
  {
    assert InvoiceSums(b, i);
    if deposits != [] {
      var rest := deposits[1..];
      var c := AssignFirst(b, deposits[0], i);
      AfterFirst(b, deposits, i);
      ReconcileTotal(c, rest, i);
      AvailableFrame(b, c, rest, i);
      AvailableCons(b, deposits, i);
      AvailableNonNegative(b, rest, i);
      FirstShare(b, deposits, i);
      assert PaymentSums(b, deposits[0]);
      assert Available(b, deposits[..0], i) == 0;
    }
  }

  lemma {:induction false} ReconcileShares(b: Books, deposits: seq<nat>, i: nat, k: nat)
    requires Settled(b) && i in b.invoices && b.invoices[i].posted && DistinctDeposits(b, deposits) && k < |deposits|
    ensures var a := AssignAll(b, deposits, i);
            && deposits[k] in a.payments
            && b.payments[deposits[k]].residual - a.payments[deposits[k]].residual == Share(b, deposits, i, k)
    decreases |deposits|
  {
    var rest := deposits[1..];
    var c := AssignFirst(b, deposits[0], i);
    AfterFirst(b, deposits, i);
    AssignAllFrame(c, rest, i);
    if k == 0 {
      FirstShare(b, deposits, i);
    } else {
      ReconcileShares(c, rest, i, k - 1);
      ShareAfterFirst(b, deposits, i, k);
      assert deposits[k] == rest[k - 1];
    }
  }

  /**
    Reconciling a list of distinct deposits applies exactly the smaller of the invoice's residual
    and what its deposits hold, draining them in order.
  */
  lemma ReconcileAppliesMin(b: Books, deposits: seq<nat>, i: nat)
    requires Settled(b) && i in b.invoices && b.invoices[i].posted && DistinctDeposits(b, deposits)
    ensures var a := AssignAll(b, deposits, i);
            && a.invoices.Keys == b.invoices.Keys && a.payments.Keys == b.payments.Keys
            && b.invoices[i].residual - a.invoices[i].residual == Min(b.invoices[i].residual, Available(b, deposits, i))
            && (forall k :: 0 <= k < |deposits| ==>
                  b.payments[deposits[k]].residual - a.payments[deposits[k]].residual == Share(b, deposits, i, k))
  {
    AssignAllFrame(b, deposits, i);
    ReconcileTotal(b, deposits, i);
    forall k | 0 <= k < |deposits|
      ensures b.payments[deposits[k]].residual - AssignAll(b, deposits, i).payments[deposits[k]].residual
              == Share(b, deposits, i, k)
    {
      ReconcileShares(b, deposits, i, k);
    }
  }

  /**
    Afterwards the invoice is paid or nothing that it could use is left: every posted deposit of the
    list on the other side is used up. Deposits of its own side, unposted ones and those that are not
    in the list keep what they hold.
  */
  lemma ReconcileDrains(b: Books, deposits: seq<nat>, i: nat)
    requires Settled(b) && i in b.invoices && b.invoices[i].posted && DistinctDeposits(b, deposits)
    ensures var a := AssignAll(b, deposits, i);
            && a.invoices.Keys == b.invoices.Keys && a.payments.Keys == b.payments.Keys
            && (a.invoices[i].residual == 0
                || forall p :: p in deposits && b.payments[p].posted && b.payments[p].side != b.invoices[i].side ==>
                     a.payments[p].residual == 0)
            && (forall p :: p in b.payments
                            && (p !in deposits || !b.payments[p].posted || b.payments[p].side == b.invoices[i].side) ==>
                  a.payments[p].residual == b.payments[p].residual)
  {
    var a := AssignAll(b, deposits, i);
    AssignAllFrame(b, deposits, i);
    ReconcileTotal(b, deposits, i);
    assert InvoiceSums(b, i);
    forall p | p in deposits
      ensures b.payments[p].residual - a.payments[p].residual <= Holding(b.payments[p], b.invoices[i])
      ensures !(b.payments[p].posted && b.payments[p].side != b.invoices[i].side) ==>
                a.payments[p].residual == b.payments[p].residual
      ensures a.invoices[i].residual != 0 ==>
                b.payments[p].residual - a.payments[p].residual == Holding(b.payments[p], b.invoices[i])
    {
      var k :| 0 <= k < |deposits| && deposits[k] == p;
      ReconcileShares(b, deposits, i, k);
      AvailableNonNegative(b, deposits[..k], i);
      AvailableUpTo(b, deposits, i, k);
      assert PaymentSums(b, p);
    }
  }

  /** What the deposits up to the `k`-th hold is part of what all hold. */
  lemma {:induction false} AvailableUpTo(b: Books, deposits: seq<nat>, i: nat, k: nat)
    requires Settled(b) && i in b.invoices && k < |deposits|
    requires forall k :: 0 <= k < |deposits| ==> deposits[k] in b.payments
    ensures Available(b, deposits[..k], i) + Holding(b.payments[deposits[k]], b.invoices[i])
         <= Available(b, deposits, i)
    decreases |deposits|
  {
    var n := |deposits| - 1;
    if k < n {
      assert deposits[..n][..k] == deposits[..k];
      AvailableUpTo(b, deposits[..n], i, k);
      assert PaymentSums(b, deposits[n]);
    }
  }

  lemma {:induction false} AvailableNonNegative(b: Books, deposits: seq<nat>, i: nat)
    requires Settled(b) && i in b.invoices && forall k :: 0 <= k < |deposits| ==> deposits[k] in b.payments
    ensures Available(b, deposits, i) >= 0
    decreases |deposits|
  {
    if deposits != [] {
      AvailableNonNegative(b, deposits[..|deposits| - 1], i);
      assert PaymentSums(b, deposits[|deposits| - 1]);
    }
  }
}
