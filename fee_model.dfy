/**
 * The Fee (payment) document (backend/models/Fee.js): its enums and bounds,
 * the item and payment totals, the pre-save hook that assigns the receipt
 * number, and the per-student sum the post-save hook writes back.
 */
module FeeModel {
  import opened Wrappers
  import opened Text
  import opened StudentModel

  type StudentId = nat
  type UserId = nat
  type FeeId = nat

  datatype Category = Admission | Tuition | Books | Transport | Uniform | OtherCategory
  datatype PaymentMode = Cash | Cheque | BankTransfer | Upi | OtherMode
  datatype Relation = Father | Mother | Guardian | OtherRelation

  /** A line item as the client sends it, before schema validation. */
  datatype ItemInput = ItemInput(category: string, description: string, amount: int)
  datatype Item = Item(category: Category, description: string, amount: int)

  datatype PayerInput = PayerInput(name: Option<string>, relation: Option<string>, contact: string)
  datatype Payer = Payer(name: string, relation: Relation, contact: string)

  datatype Payment = Payment(
    id: FeeId,
    student: StudentId,
    receiptNumber: string,
    academicYear: string,
    paymentDate: int,
    paymentMode: PaymentMode,
    paidBy: Payer,
    items: seq<Item>,
    totalAmount: int,
    balanceAfterPayment: int,
    remarks: string,
    createdBy: Option<UserId>)

  function CategoryName(c: Category): string {
    match c
    case Admission => "Admission"
    case Tuition => "Tuition"
    case Books => "Books"
    case Transport => "Transport"
    case Uniform => "Uniform"
    case OtherCategory => "Other"
  }

  function ParseCategory(s: string): Option<Category> {
    if s == "Admission" then Some(Admission)
    else if s == "Tuition" then Some(Tuition)
    else if s == "Books" then Some(Books)
    else if s == "Transport" then Some(Transport)
    else if s == "Uniform" then Some(Uniform)
    else if s == "Other" then Some(OtherCategory)
    else None
  }

  /** The item enum accepts exactly the six category names. */
  lemma ParseCategoryExact(s: string, c: Category)
    ensures ParseCategory(s) == Some(c) <==> s == CategoryName(c)
  {
  }

  function PaymentModeName(m: PaymentMode): string {
    match m
    case Cash => "Cash"
    case Cheque => "Cheque"
    case BankTransfer => "Bank Transfer"
    case Upi => "UPI"
    case OtherMode => "Other"
  }

  /** The `paymentMode` enum with its default `Cash`. */
  function ParsePaymentMode(s: Option<string>): (r: Option<PaymentMode>)
    ensures s.None? ==> r == Some(Cash)
  {
    match s
    case None => Some(Cash)
    case Some(w) =>
      if w == "Cash" then Some(Cash)
      else if w == "Cheque" then Some(Cheque)
      else if w == "Bank Transfer" then Some(BankTransfer)
      else if w == "UPI" then Some(Upi)
      else if w == "Other" then Some(OtherMode)
      else None
  }

  lemma ParsePaymentModeExact(w: string, m: PaymentMode)
    ensures ParsePaymentMode(Some(w)) == Some(m) <==> w == PaymentModeName(m)
  {
  }

  function RelationName(r: Relation): string {
    match r
    case Father => "Father"
    case Mother => "Mother"
    case Guardian => "Guardian"
    case OtherRelation => "Other"
  }

  function ParseRelation(s: string): Option<Relation> {
    if s == "Father" then Some(Father)
    else if s == "Mother" then Some(Mother)
    else if s == "Guardian" then Some(Guardian)
    else if s == "Other" then Some(OtherRelation)
    else None
  }

  /** `paidBy.name` is required (empty once trimmed is missing); `paidBy.relation` is required and in its enum. */
  function ValidatePayer(p: PayerInput): (r: Option<Payer>)
    ensures r.Some? <==>
      p.name.Some? && Trim(p.name.value) != "" && p.relation.Some? && ParseRelation(p.relation.value).Some?
    ensures r.Some? ==> ParseRelation(p.relation.value) == Some(r.value.relation)
  {
    if p.name.None? || Trim(p.name.value) == "" || p.relation.None? then None
    else match ParseRelation(p.relation.value)
      case None => None
      case Some(rel) => Some(Payer(Trim(p.name.value), rel, Trim(p.contact)))
  }

  /** An item passes the schema when its category is in the enum and its amount is at least 1. */
  function ValidateItem(i: ItemInput): Option<Item> {
    match ParseCategory(i.category)
    case None => None
    case Some(c) => if i.amount >= 1 then Some(Item(c, Trim(i.description), i.amount)) else None
  }

  function ValidateItems(items: seq<ItemInput>): (r: Option<seq<Item>>)
    ensures r.Some? <==> forall k :: 0 <= k < |items| ==> ValidateItem(items[k]).Some?
    ensures r.Some? ==> |r.value| == |items|
    ensures r.Some? ==> forall k :: 0 <= k < |items| ==> ValidateItem(items[k]) == Some(r.value[k])
  {
    if items == [] then Some([])
    else match (ValidateItem(items[0]), ValidateItems(items[1..]))
      case (Some(first), Some(rest)) => Some([first] + rest)
      case _ => None
  }

  /** Every stored item has an amount of at least 1. */
  predicate ItemsWellFormed(items: seq<Item>) {
    forall k :: 0 <= k < |items| ==> items[k].amount >= 1
  }

  lemma ValidatedItemsWellFormed(items: seq<ItemInput>)
    requires ValidateItems(items).Some?
    ensures ItemsWellFormed(ValidateItems(items).value)
  {
    var vs := ValidateItems(items).value;
    forall k | 0 <= k < |vs| ensures vs[k].amount >= 1 {
      assert ValidateItem(items[k]) == Some(vs[k]);
    }
  }

  /** `items.reduce((sum, item) => sum + item.amount, 0)` over the request's items. */
  function InputTotal(items: seq<ItemInput>): int {
    if items == [] then 0 else InputTotal(items[..|items| - 1]) + items[|items| - 1].amount
  }

  /** The same fold over stored items. */
  function ItemsTotal(items: seq<Item>): int {
    if items == [] then 0 else ItemsTotal(items[..|items| - 1]) + items[|items| - 1].amount
  }

  /** Validation keeps every amount, so the two folds agree. */
  lemma {:induction false} ValidatedTotal(items: seq<ItemInput>)
    requires ValidateItems(items).Some?
    ensures ItemsTotal(ValidateItems(items).value) == InputTotal(items)
  {
    if items != [] {
      var vs := ValidateItems(items).value;
      var n := |items| - 1;
      var init := items[..n];
      assert ValidateItems(init).Some? by {
        forall k | 0 <= k < |init| ensures ValidateItem(init[k]).Some? {
          assert init[k] == items[k];
        }
      }
      ValidatedTotal(init);
      var ws := ValidateItems(init).value;
      assert vs[..n] == ws by {
        forall k | 0 <= k < n ensures vs[k] == ws[k] {
          assert init[k] == items[k];
          assert ValidateItem(items[k]) == Some(vs[k]);
          assert ValidateItem(init[k]) == Some(ws[k]);
        }
      }
      assert ValidateItem(items[n]) == Some(vs[n]);
    }
  }

  /** A total over well-formed items is at least the number of items. */
  lemma {:induction false} ItemsTotalAtLeastCount(items: seq<Item>)
    requires ItemsWellFormed(items)
    ensures ItemsTotal(items) >= |items|
  {
    if items != [] {
      ItemsTotalAtLeastCount(items[..|items| - 1]);
    }
  }

  /** What one payment adds to a student's paid amount. */
  function Contribution(p: Payment, s: StudentId): int {
    if p.student == s then p.totalAmount else 0
  }

  /** The sum of `totalAmount` over the student's payments, in store order. */
  function PaidSum(fees: seq<Payment>, s: StudentId): int {
    if fees == [] then 0 else PaidSum(fees[..|fees| - 1], s) + Contribution(fees[|fees| - 1], s)
  }

  /** The sum of `totalAmount` over every payment. */
  function TotalCollected(fees: seq<Payment>): int {
    if fees == [] then 0 else TotalCollected(fees[..|fees| - 1]) + fees[|fees| - 1].totalAmount
  }

  /** The per-student sum distributes over concatenation. */
  lemma {:induction false} PaidSumAppend(a: seq<Payment>, b: seq<Payment>, s: StudentId)
    ensures PaidSum(a + b, s) == PaidSum(a, s) + PaidSum(b, s)
    decreases |b|
  {
    if b == [] {
      assert a + b == a;
    } else {
      var n := |b| - 1;
      assert (a + b)[..|a + b| - 1] == a + b[..n];
      PaidSumAppend(a, b[..n], s);
    }
  }

  function RemoveAt(fees: seq<Payment>, i: nat): (r: seq<Payment>)
    requires i < |fees|
    ensures |r| == |fees| - 1
  {
    fees[..i] + fees[i + 1..]
  }

  /** Removing a payment takes exactly its contribution off the sum. */
  lemma PaidSumRemove(fees: seq<Payment>, i: nat, s: StudentId)
    requires i < |fees|
    ensures PaidSum(RemoveAt(fees, i), s) == PaidSum(fees, s) - Contribution(fees[i], s)
  {
    assert fees == fees[..i] + [fees[i]] + fees[i + 1..];
    PaidSumAppend(fees[..i] + [fees[i]], fees[i + 1..], s);
    PaidSumAppend(fees[..i], [fees[i]], s);
    PaidSumAppend(fees[..i], fees[i + 1..], s);
    assert PaidSum([fees[i]], s) == Contribution(fees[i], s) by {
      assert [fees[i]][..0] == [];
    }
  }

  /** Replacing a payment swaps its contribution for the new one's. */
  lemma PaidSumReplace(fees: seq<Payment>, i: nat, p: Payment, s: StudentId)
    requires i < |fees|
    ensures PaidSum(fees[i := p], s) == PaidSum(fees, s) - Contribution(fees[i], s) + Contribution(p, s)
  {
    assert fees == fees[..i] + [fees[i]] + fees[i + 1..];
    assert fees[i := p] == fees[..i] + [p] + fees[i + 1..];
    PaidSumAppend(fees[..i] + [fees[i]], fees[i + 1..], s);
    PaidSumAppend(fees[..i], [fees[i]], s);
    PaidSumAppend(fees[..i] + [p], fees[i + 1..], s);
    PaidSumAppend(fees[..i], [p], s);
    assert [fees[i]][..0] == [] && [p][..0] == [];
  }

  /** A payment recorded for another student leaves this student's sum alone. */
  lemma PaidSumAppendOther(fees: seq<Payment>, p: Payment, s: StudentId)
    requires p.student != s
    ensures PaidSum(fees + [p], s) == PaidSum(fees, s)
  {
    assert (fees + [p])[..|fees|] == fees;
  }

  /** With no payment of the student's in the store, the sum is 0. */
  lemma {:induction false} PaidSumNone(fees: seq<Payment>, s: StudentId)
    requires forall k :: 0 <= k < |fees| ==> fees[k].student != s
    ensures PaidSum(fees, s) == 0
  {
    if fees != [] {
      PaidSumNone(fees[..|fees| - 1], s);
    }
  }

  /** The post-save write: `paidAmount` and `balance = totalFee - paidAmount` (concession not subtracted). */
  function WithPaid(f: FeeRecord, paid: int): (r: FeeRecord)
    ensures r.paidAmount == paid && r.balance + paid == f.totalFee
    ensures r.(paidAmount := f.paidAmount, balance := f.balance) == f
  {
    f.(paidAmount := paid, balance := f.totalFee - paid)
  }

  /** Re-aggregating with the same sum a second time changes nothing. */
  lemma WithPaidIdempotent(f: FeeRecord, paid: int)
    ensures WithPaid(WithPaid(f, paid), paid) == WithPaid(f, paid)
  {
  }

  /**
   * The ledger's balance (`totalFee - paidAmount`) and the Student hook's
   * balance (`totalFee - concession - paidAmount`) agree exactly when there is
   * no concession.
   */
  lemma BalanceFormulasAgree(f: FeeRecord, paid: int)
    ensures WithPaid(WithTotals(f), paid).balance == WithTotals(f.(paidAmount := paid)).balance
            <==> f.concession == 0
  {
  }

  /**
   * What the pre-save hook makes of a new payment: the counter's value as the
   * receipt number, and `totalAmount` filled in from the items only when it is 0.
   */
  function Stamped(p: Payment, sequenceNumber: nat): (r: Payment)
    ensures r.receiptNumber == NatToString(sequenceNumber)
    ensures p.totalAmount == 0 ==> r.totalAmount == ItemsTotal(p.items)
    ensures p.totalAmount != 0 ==> r.totalAmount == p.totalAmount
    ensures r.(receiptNumber := p.receiptNumber, totalAmount := p.totalAmount) == p
  {
    var q := p.(receiptNumber := NatToString(sequenceNumber));
    if q.totalAmount == 0 then q.(totalAmount := ItemsTotal(q.items)) else q
  }

  /** A new payment document; `PreSave` is the hook that runs before it is stored. */
  class FeeDocument {
    var payment: Payment
    var isNew: bool

    constructor (payment: Payment, isNew: bool)
      ensures this.payment == payment && this.isNew == isNew
    {
      this.payment := payment;
      this.isNew := isNew;
    }

    /**
     * On a new document: take the counter's next value as the receipt number,
     * and fill in `totalAmount` from the items only when it is 0. A document
     * that is not new is left as it is.
     */
    method PreSave(sequenceNumber: nat)
      modifies this`payment
      ensures !old(isNew) ==> payment == old(payment)
      ensures old(isNew) ==> payment == Stamped(old(payment), sequenceNumber)
    {
      if !isNew {
        return;
      }
      payment := payment.(receiptNumber := NatToString(sequenceNumber));
      if payment.totalAmount == 0 {
        payment := payment.(totalAmount := ItemsTotal(payment.items));
      }
    }
  }

  /** A receipt number drawn from the counter when its value was at most `counter`. */
  predicate ReceiptIssued(p: Payment, counter: nat) {
    AllDigits(p.receiptNumber) && 1 <= DecimalValue(p.receiptNumber) <= counter
  }

  /** The counter's next value renders as a receipt number no earlier payment holds. */
  lemma FreshReceipt(p: Payment, counter: nat)
    requires ReceiptIssued(p, counter)
    ensures p.receiptNumber != NatToString(counter + 1)
  {
    DecimalRoundTrip(counter + 1);
  }
}
