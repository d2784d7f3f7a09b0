/**
 * The fee ledger: the request handlers of backend/controllers/fees.js and
 * backend/controllers/students.js over one store of students and payments.
 *
 * Every handler is a method of `FeeStore`. A handler that fails answers with
 * an `Error` (the HTTP status it leads to is named beside each constructor);
 * an `Err` result says nothing about the store unless the method's contract
 * says so, because several handlers fail after their first write.
 */
module FeeLedger {
  import opened Wrappers
  import opened Text
  import opened StudentModel
  import opened FeeModel

  datatype Error =
    | NotFound          // 404
    | BadRequest        // 400, a missing query parameter
    | Unauthorized      // 401
    | ValidationFailed  // a schema validator refused the document
    | DuplicateKey      // a unique index refused the document
    | Internal          // 500, a TypeError thrown inside the handler

  /** The authenticated caller. */
  datatype User = User(id: UserId, role: string)

  /** The body of `POST /fees`. */
  datatype CreateFeeRequest = CreateFeeRequest(
    student: StudentId,
    items: Option<seq<ItemInput>>,
    amount: Option<int>,        // a flat amount, already read as a number
    feeType: string,
    remarks: string,
    year: Option<string>,
    paymentDate: Option<int>,
    paymentMode: Option<string>,
    paidBy: PayerInput,
    createdBy: Option<UserId>)

  /**
   * The body of `PUT /fees/:id`: the handler forwards it as it is, so a
   * client may set any field of the schema. A field the schema does not
   * define (such as `feeType`) is dropped by the strict schema.
   */
  datatype FeePatch = FeePatch(
    student: Option<StudentId>,
    receiptNumber: Option<string>,
    academicYear: Option<string>,
    paymentDate: Option<int>,
    paymentMode: Option<string>,
    paidBy: Option<PayerInput>,
    items: Option<seq<ItemInput>>,
    totalAmount: Option<int>,
    balanceAfterPayment: Option<int>,
    remarks: Option<string>,
    createdBy: Option<UserId>)

  /** The body of `PUT /students/:id`. */
  datatype StudentPatch = StudentPatch(
    firstName: Option<string>,
    lastName: Option<string>,
    rollNumber: Option<string>,
    phoneNumber: Option<string>,
    className: Option<string>,
    status: Option<string>,
    fee: Option<FeeRecord>)

  datatype Summary = Summary(totalCollected: int, totalPayments: nat, totalPending: int, totalExpected: int)

  datatype ClassFee = ClassFee(tuitionFee: int, admissionFee: int)

  // ---------------------------------------------------------------------------
  // Creating a payment: how the request becomes a document

  /** The item category picked for a flat amount from its `feeType`. */
  function FeeTypeCategory(feeType: string): string {
    if feeType == "tuition" then "Tuition"
    else if feeType == "transport" then "Transport"
    else if feeType == "admission" then "Admission"
    else "Other"
  }

  /** The items a create request stands for: its own, or one made from a non-zero flat amount. */
  function RequestItems(req: CreateFeeRequest): Option<seq<ItemInput>> {
    if req.items.None? && req.amount.Some? && req.amount.value != 0
    then Some([ItemInput(FeeTypeCategory(req.feeType), req.remarks, req.amount.value)])
    else req.items
  }

  /**
   * With no items and a non-zero amount exactly one item is made; its category
   * follows the fee type, its amount is the flat amount, and it passes the
   * schema exactly when that amount is at least 1.
   */
  lemma SynthesisedItem(req: CreateFeeRequest)
    requires req.items.None? && req.amount.Some? && req.amount.value != 0
    ensures RequestItems(req).Some? && |RequestItems(req).value| == 1
    ensures InputTotal(RequestItems(req).value) == req.amount.value
    ensures ParseCategory(RequestItems(req).value[0].category) ==
              Some(if req.feeType == "tuition" then Tuition
                   else if req.feeType == "transport" then Transport
                   else if req.feeType == "admission" then Admission
                   else OtherCategory)
    ensures ValidateItems(RequestItems(req).value).Some? <==> req.amount.value >= 1
  {
    var items := RequestItems(req).value;
    assert items[..0] == [];
    assert ValidateItems(items).Some? <==> ValidateItem(items[0]).Some?;
  }

  /** Items given by the client are used as they are, even when a flat amount is given too. */
  lemma ExplicitItemsWin(req: CreateFeeRequest)
    requires req.items.Some?
    ensures RequestItems(req) == req.items
  {
  }

  /** `academicYear`: the request's `year` as text when it has some, else the current calendar year. */
  function AcademicYear(year: Option<string>, currentYear: nat): (r: string)
    ensures r != []
    ensures year.Some? && year.value != "" ==> r == year.value
    ensures (year.None? || year.value == "") ==> r == NatToString(currentYear)
  {
    if year.Some? && year.value != "" then year.value else NatToString(currentYear)
  }

  /** What `Fee.create` validates: the items, the payment mode and the payer. */
  predicate CreateValid(items: seq<ItemInput>, req: CreateFeeRequest) {
    ValidateItems(items).Some? && ParsePaymentMode(req.paymentMode).Some? && ValidatePayer(req.paidBy).Some?
  }

  /** The document `createFee` builds from a valid request, before it has an id or a receipt number. */
  function Draft(req: CreateFeeRequest, currentBalance: int, createdBy: Option<UserId>, now: int,
                 currentYear: nat): Payment
    requires RequestItems(req).Some? && CreateValid(RequestItems(req).value, req)
  {
    var items := RequestItems(req).value;
    var totalAmount := InputTotal(items);
    Payment(0, req.student, "", AcademicYear(req.year, currentYear), req.paymentDate.GetOr(now),
            ParsePaymentMode(req.paymentMode).value, ValidatePayer(req.paidBy).value,
            ValidateItems(items).value, totalAmount, currentBalance - totalAmount,
            Trim(req.remarks), createdBy)
  }

  /**
   * The payment `createFee` stores for a valid request: the draft, given
   * its id and, by the pre-save hook, its receipt number.
   */
  function NewPayment(req: CreateFeeRequest, id: FeeId, counter: nat, currentBalance: int,
                      createdBy: Option<UserId>, now: int, currentYear: nat): Payment
    requires RequestItems(req).Some? && CreateValid(RequestItems(req).value, req)
  {
    Stamped(Draft(req, currentBalance, createdBy, now, currentYear).(id := id), counter)
  }

  /**
   * A stored payment carries the counter's value as its receipt number, the
   * validated items, a total equal to the sum of those items and of the
   * request's items, the balance that was due less that total, and the
   * academic year the request names or the current one.
   */
  lemma NewPaymentFacts(req: CreateFeeRequest, id: FeeId, counter: nat, currentBalance: int,
                        createdBy: Option<UserId>, now: int, currentYear: nat)
    requires RequestItems(req).Some? && CreateValid(RequestItems(req).value, req)
    ensures var p := NewPayment(req, id, counter, currentBalance, createdBy, now, currentYear);
      && p.id == id && p.student == req.student && p.createdBy == createdBy
      && p.receiptNumber == NatToString(counter)
      && Some(p.items) == ValidateItems(RequestItems(req).value) && ItemsWellFormed(p.items)
      && p.totalAmount == ItemsTotal(p.items) == InputTotal(RequestItems(req).value)
      && p.balanceAfterPayment == currentBalance - p.totalAmount
      && p.academicYear == AcademicYear(req.year, currentYear)
      && p.paymentDate == req.paymentDate.GetOr(now)
      && Some(p.paymentMode) == ParsePaymentMode(req.paymentMode)
  {
    ValidatedTotal(RequestItems(req).value);
    ValidatedItemsWellFormed(RequestItems(req).value);
  }

  // ---------------------------------------------------------------------------
  // Editing and deleting a payment

  /**
   * The owner-or-admin check. A payment without a creator makes the check
   * itself throw, so even an admin is refused with a 500.
   */
  function Authorize(createdBy: Option<UserId>, caller: User): (denied: Option<Error>)
    ensures createdBy.None? ==> denied == Some(Internal)
    ensures createdBy.Some? ==> (denied.None? <==> createdBy.value == caller.id || caller.role == "admin")
    ensures createdBy.Some? && denied.Some? ==> denied == Some(Unauthorized)
  {
    if createdBy.None? then Some(Internal)
    else if createdBy.value != caller.id && caller.role != "admin" then Some(Unauthorized)
    else None
  }

  /** The position of the payment with the given id, if the store has one. */
  function FindFee(fees: seq<Payment>, id: FeeId): (r: Option<nat>)
    ensures r.Some? ==> r.value < |fees| && fees[r.value].id == id
    ensures r.Some? ==> forall k :: 0 <= k < r.value ==> fees[k].id != id
    ensures r.None? ==> forall k :: 0 <= k < |fees| ==> fees[k].id != id
  {
    if fees == [] then None
    else if fees[0].id == id then Some(0)
    else match FindFee(fees[1..], id)
      case None => None
      case Some(k) => Some(k + 1)
  }

  /**
   * The validators `findByIdAndUpdate` runs on the fields a patch sets: a
   * required academic year is not empty, the payment mode is one of the
   * enum, the payer passes its own checks, and so do the items.
   */
  predicate PatchValid(patch: FeePatch) {
    (patch.academicYear.None? || patch.academicYear.value != "") &&
    (patch.paymentMode.None? || ParsePaymentMode(patch.paymentMode).Some?) &&
    (patch.paidBy.None? || ValidatePayer(patch.paidBy.value).Some?) &&
    (patch.items.None? || ValidateItems(patch.items.value).Some?)
  }

  /**
   * A payment after a valid patch: every field sent replaces the stored one
   * (`totalAmount` is the items' sum when items are sent), the others stay.
   */
  function Patched(p: Payment, patch: FeePatch): Payment
    requires PatchValid(patch)
  {
    p.(student := patch.student.GetOr(p.student),
       receiptNumber := patch.receiptNumber.GetOr(p.receiptNumber),
       academicYear := patch.academicYear.GetOr(p.academicYear),
       paymentDate := patch.paymentDate.GetOr(p.paymentDate),
       paymentMode := if patch.paymentMode.Some? then ParsePaymentMode(patch.paymentMode).value else p.paymentMode,
       paidBy := if patch.paidBy.Some? then ValidatePayer(patch.paidBy.value).value else p.paidBy,
       items := if patch.items.Some? then ValidateItems(patch.items.value).value else p.items,
       totalAmount := if patch.items.Some? then InputTotal(patch.items.value) else patch.totalAmount.GetOr(p.totalAmount),
       balanceAfterPayment := patch.balanceAfterPayment.GetOr(p.balanceAfterPayment),
       remarks := if patch.remarks.Some? then Trim(patch.remarks.value) else p.remarks,
       createdBy := if patch.createdBy.Some? then patch.createdBy else p.createdBy)
  }

  /** Whether the patch can change what a student has paid: it sets the items, the total or the owner. */
  predicate MovesMoney(patch: FeePatch) {
    patch.items.Some? || patch.totalAmount.Some? || patch.student.Some?
  }

  /**
   * A patch with items leaves `totalAmount` equal to the sum of the new
   * items; a patch without items leaves the items alone and takes the
   * client's `totalAmount`, if any, unchecked.
   */
  lemma PatchedTotal(p: Payment, patch: FeePatch)
    requires PatchValid(patch)
    ensures patch.items.Some? ==> Patched(p, patch).totalAmount == ItemsTotal(Patched(p, patch).items)
    ensures patch.items.None? ==> Patched(p, patch).items == p.items
    ensures patch.items.None? ==> Patched(p, patch).totalAmount == patch.totalAmount.GetOr(p.totalAmount)
    ensures ItemsWellFormed(p.items) ==> ItemsWellFormed(Patched(p, patch).items)
    ensures Patched(p, patch).id == p.id
    ensures !MovesMoney(patch) ==>
              Patched(p, patch).student == p.student && Patched(p, patch).totalAmount == p.totalAmount
    ensures patch.receiptNumber.None? ==> Patched(p, patch).receiptNumber == p.receiptNumber
  {
    if patch.items.Some? {
      ValidatedTotal(patch.items.value);
      ValidatedItemsWellFormed(patch.items.value);
    }
  }

  /**
   * The edit handler commits the patch and leaves the student untouched, so
   * a paid amount that matched the payments before no longer does once the
   * edited payment's total changes.
   */
  lemma EditLeavesPaidStale(fees: seq<Payment>, i: nat, patch: FeePatch, f: FeeRecord)
    requires i < |fees| && PatchValid(patch) && patch.items.Some? && patch.student.None?
    requires f.paidAmount == PaidSum(fees, fees[i].student)
    requires InputTotal(patch.items.value) != fees[i].totalAmount
    ensures f.paidAmount != PaidSum(fees[i := Patched(fees[i], patch)], fees[i].student)
  {
    PaidSumReplace(fees, i, Patched(fees[i], patch), fees[i].student);
  }

  /**
   * Moving a payment to another student: re-aggregating the new owner alone,
   * as the edit handler means to, leaves the old owner's paid amount
   * counting a payment it no longer has.
   */
  lemma MoveLeavesOldOwnerStale(fees: seq<Payment>, i: nat, patch: FeePatch, f: FeeRecord)
    requires i < |fees| && PatchValid(patch)
    requires patch.student.Some? && patch.student.value != fees[i].student && fees[i].totalAmount != 0
    requires f.paidAmount == PaidSum(fees, fees[i].student)
    ensures f.paidAmount != PaidSum(fees[i := Patched(fees[i], patch)], fees[i].student)
  {
    PaidSumReplace(fees, i, Patched(fees[i], patch), fees[i].student);
  }

  /** Replacing a payment changes no paid sum but its old and new owner's. */
  lemma ReplaceKeepsOtherSums(fees: seq<Payment>, i: nat, p: Payment, t: StudentId)
    requires i < |fees|
    requires (t != fees[i].student && t != p.student) ||
             (p.student == fees[i].student && p.totalAmount == fees[i].totalAmount)
    ensures PaidSum(fees[i := p], t) == PaidSum(fees, t)
  {
    PaidSumReplace(fees, i, p, t);
  }

  /**
   * The delete handler removes the payment and leaves the student untouched,
   * so a paid amount that matched the payments before no longer does.
   */
  lemma DeleteLeavesPaidStale(fees: seq<Payment>, i: nat, f: FeeRecord)
    requires i < |fees| && fees[i].totalAmount != 0
    requires f.paidAmount == PaidSum(fees, fees[i].student)
    ensures f.paidAmount != PaidSum(RemoveAt(fees, i), fees[i].student)
  {
    PaidSumRemove(fees, i, fees[i].student);
  }

  /** The fee record after a re-aggregation; `stamp` is the new `lastPaymentDate`, if the handler sets one. */
  function Resynced(f: FeeRecord, paid: int, stamp: Option<int>): (r: FeeRecord)
    ensures r.paidAmount == paid && r.balance == r.totalFee - paid && r.totalFee == f.totalFee
    ensures r.concession == f.concession && r.arrears == f.arrears && CategorySum(r) == CategorySum(f)
  {
    var g := WithPaid(f, paid);
    if stamp.Some? then g.(lastPaymentDate := stamp) else g
  }

  /** Re-aggregating twice with the same payments gives what re-aggregating once gives. */
  lemma ResyncedTwice(f: FeeRecord, paid: int, stamp: Option<int>)
    ensures Resynced(Resynced(f, paid, stamp), paid, stamp) == Resynced(f, paid, stamp)
  {
  }

  // ---------------------------------------------------------------------------
  // Queries over the students

  /** The students `getFeeDefaulters` returns. */
  function Defaulters(students: map<StudentId, Student>): (r: set<StudentId>)
    ensures forall id :: id in r <==> id in students && students[id].fee.balance > 0
  {
    set id | id in students && students[id].fee.balance > 0
  }

  /** The year-end reset of one fee record: the balance moves into arrears, every charge becomes 0. */
  function Promoted(f: FeeRecord): FeeRecord {
    f.(arrears := f.arrears + f.balance, balance := 0, paidAmount := 0, totalFee := 0,
       admissionFee := 0, tuitionFee := 0, transportFee := 0, otherFee := 0, concession := 0)
  }

  /** The store's students after `promoteAllStudents`. */
  function PromoteAll(students: map<StudentId, Student>): map<StudentId, Student> {
    map id | id in students ::
      if students[id].fee.balance > 0 then students[id].(fee := Promoted(students[id].fee)) else students[id]
  }

  /** The students after the promotion loop has handled every id below `k`. */
  function PromoteBelow(students: map<StudentId, Student>, k: nat): map<StudentId, Student> {
    map id | id in students ::
      if id < k && students[id].fee.balance > 0 then students[id].(fee := Promoted(students[id].fee)) else students[id]
  }

  /** The defaulters with an id below `k`. */
  function DefaultersBelow(students: map<StudentId, Student>, k: nat): set<StudentId> {
    set id | id in students && id < k && students[id].fee.balance > 0
  }

  /** Handling id `k` promotes that one student, if it is a defaulter, and counts it. */
  lemma PromoteBelowStep(students: map<StudentId, Student>, k: nat)
    ensures k in students ==> k in PromoteBelow(students, k) && PromoteBelow(students, k)[k] == students[k]
    ensures PromoteBelow(students, k + 1) ==
              if k in students && students[k].fee.balance > 0
              then PromoteBelow(students, k)[k := students[k].(fee := Promoted(students[k].fee))]
              else PromoteBelow(students, k)
    ensures |DefaultersBelow(students, k + 1)| ==
              |DefaultersBelow(students, k)| + (if k in students && students[k].fee.balance > 0 then 1 else 0)
  {
    if k in students && students[k].fee.balance > 0 {
      assert DefaultersBelow(students, k + 1) == DefaultersBelow(students, k) + {k};
    } else {
      assert DefaultersBelow(students, k + 1) == DefaultersBelow(students, k);
    }
  }

  /** Once every issued id has been handled, the loop has done what `PromoteAll` describes. */
  lemma PromoteBelowAll(students: map<StudentId, Student>, last: nat)
    requires forall id :: id in students ==> id <= last
    ensures PromoteBelow(students, last + 1) == PromoteAll(students)
    ensures DefaultersBelow(students, last + 1) == Defaulters(students)
    ensures PromoteBelow(students, 0) == students && DefaultersBelow(students, 0) == {}
  {
  }

  /**
   * Promotion touches only students with a positive balance; for them arrears
   * grow by the balance and every other amount becomes 0, so the amount owed
   * (arrears plus balance) is kept and arrears never decrease.
   */
  lemma PromoteAllEffect(students: map<StudentId, Student>, id: StudentId)
    requires id in students
    ensures id in PromoteAll(students)
    ensures students[id].fee.balance <= 0 ==> PromoteAll(students)[id] == students[id]
    ensures students[id].fee.balance > 0 ==>
              var f := PromoteAll(students)[id].fee;
              f.arrears == students[id].fee.arrears + students[id].fee.balance &&
              f.balance == 0 && f.paidAmount == 0 && f.totalFee == 0 && f.concession == 0 &&
              CategorySum(f) == 0 && f.lastPaymentDate == students[id].fee.lastPaymentDate
    ensures PromoteAll(students)[id].(fee := students[id].fee) == students[id]
    ensures PromoteAll(students)[id].fee.arrears >= students[id].fee.arrears
    ensures PromoteAll(students)[id].fee.arrears + PromoteAll(students)[id].fee.balance ==
            students[id].fee.arrears + students[id].fee.balance
  {
  }

  /** A second promotion in a row finds no one to promote and changes nothing. */
  lemma PromoteAllTwice(students: map<StudentId, Student>)
    ensures Defaulters(PromoteAll(students)) == {}
    ensures PromoteAll(PromoteAll(students)) == PromoteAll(students)
  {
    var once := PromoteAll(students);
    forall id | id in once ensures once[id].fee.balance <= 0 {
      PromoteAllEffect(students, id);
    }
    assert PromoteAll(once) == once by {
      forall id | id in once ensures PromoteAll(once)[id] == once[id] {
        PromoteAllEffect(once, id);
      }
    }
  }

  function BalanceMap(students: map<StudentId, Student>): map<StudentId, int> {
    map id | id in students :: students[id].fee.balance
  }

  function TotalFeeMap(students: map<StudentId, Student>): map<StudentId, int> {
    map id | id in students :: students[id].fee.totalFee
  }

  /** The sum of a map's values (the `$sum` of a `$group` over the whole collection). */
  ghost function MapSum(m: map<StudentId, int>): int
    decreases |m|
  {
    if m == map[] then 0
    else
      var k :| k in m;
      assert |m - {k}| < |m| by { assert (m - {k}).Keys == m.Keys - {k}; }
      m[k] + MapSum(m - {k})
  }

  /** The sum does not depend on which key is taken first. */
  lemma MapSumRemove(m: map<StudentId, int>, k: StudentId)
    requires k in m
    ensures MapSum(m) == m[k] + MapSum(m - {k})
    decreases |m|
  {
    var j :| j in m && MapSum(m) == m[j] + MapSum(m - {j});
    if j != k {
      assert (m - {k}).Keys == m.Keys - {k};
      assert (m - {j}).Keys == m.Keys - {j};
      MapSumRemove(m - {j}, k);
      MapSumRemove(m - {k}, j);
      assert m - {j} - {k} == m - {k} - {j};
    }
  }

  /** Taking one student out of the two sums the summary reports. */
  lemma SumsStep(students: map<StudentId, Student>, id: StudentId)
    requires id in students
    ensures MapSum(BalanceMap(students)) == students[id].fee.balance + MapSum(BalanceMap(students - {id}))
    ensures MapSum(TotalFeeMap(students)) == students[id].fee.totalFee + MapSum(TotalFeeMap(students - {id}))
    ensures |students - {id}| < |students|
  {
    MapSumRemove(BalanceMap(students), id);
    MapSumRemove(TotalFeeMap(students), id);
    assert BalanceMap(students) - {id} == BalanceMap(students - {id});
    assert TotalFeeMap(students) - {id} == TotalFeeMap(students - {id});
    assert (students - {id}).Keys == students.Keys - {id};
  }

  /** The payments whose date falls between the two bounds, both included. */
  function FeesInRange(fees: seq<Payment>, start: int, end: int): (r: seq<Payment>)
    ensures |r| <= |fees|
    ensures forall p :: p in r <==> p in fees && start <= p.paymentDate <= end
  {
    if fees == [] then []
    else
      var rest := FeesInRange(fees[1..], start, end);
      assert forall p :: p in fees <==> p == fees[0] || p in fees[1..];
      if start <= fees[0].paymentDate <= end then [fees[0]] + rest else rest
  }

  /**
   * One stored payment: its id and its student's id were issued, and its
   * items are well-formed.
   */
  ghost predicate StoredPayment(p: Payment, lastFeeId: nat, lastStudentId: nat) {
    1 <= p.id <= lastFeeId && p.student <= lastStudentId && ItemsWellFormed(p.items)
  }

  /** The receipt number at position `k`; the uniqueness invariant is stated over it. */
  function ReceiptAt(fees: seq<Payment>, k: nat): string
    requires k < |fees|
  {
    fees[k].receiptNumber
  }

  /** The payment id at position `k`; the uniqueness invariant is stated over it. */
  function IdAt(fees: seq<Payment>, k: nat): FeeId
    requires k < |fees|
  {
    fees[k].id
  }

  /** Every payment is well stored, and no two payments share a receipt number (the unique index) or an id. */
  ghost predicate FeesValid(fees: seq<Payment>, lastFeeId: nat, lastStudentId: nat) {
    (forall k :: 0 <= k < |fees| ==> StoredPayment(fees[k], lastFeeId, lastStudentId)) &&
    (forall j, k {:trigger ReceiptAt(fees, j), ReceiptAt(fees, k)} ::
       0 <= j < k < |fees| ==> ReceiptAt(fees, j) != ReceiptAt(fees, k)) &&
    (forall j, k {:trigger IdAt(fees, j), IdAt(fees, k)} ::
       0 <= j < k < |fees| ==> IdAt(fees, j) != IdAt(fees, k))
  }

  /** In a valid store no two payments share a receipt number or an id. */
  lemma ReceiptsUnique(fees: seq<Payment>, lastFeeId: nat, lastStudentId: nat, j: nat, k: nat)
    requires FeesValid(fees, lastFeeId, lastStudentId) && j < |fees| && k < |fees| && j != k
    ensures fees[j].receiptNumber != fees[k].receiptNumber && fees[j].id != fees[k].id
  {
    if j < k {
      assert ReceiptAt(fees, j) != ReceiptAt(fees, k) && IdAt(fees, j) != IdAt(fees, k);
    } else {
      assert ReceiptAt(fees, k) != ReceiptAt(fees, j) && IdAt(fees, k) != IdAt(fees, j);
    }
  }

  /** No stored payment holds the receipt number. */
  predicate ReceiptFree(fees: seq<Payment>, receipt: string) {
    forall k :: 0 <= k < |fees| ==> fees[k].receiptNumber != receipt
  }

  /** A payment other than the one at `i` holds the receipt number. */
  predicate ReceiptClash(fees: seq<Payment>, i: nat, receipt: string) {
    exists k :: 0 <= k < |fees| && k != i && fees[k].receiptNumber == receipt
  }

  /**
   * Every stored receipt number is the decimal rendering of a value the
   * counter has handed out. Creating payments keeps this; an edit that sets
   * `receiptNumber` by hand can break it.
   */
  ghost predicate ReceiptsIssued(fees: seq<Payment>, counter: nat) {
    forall k :: 0 <= k < |fees| ==> ReceiptIssued(fees[k], counter)
  }

  /** While every receipt came from the counter, the counter's next value is free. */
  lemma NextReceiptFree(fees: seq<Payment>, counter: nat)
    requires ReceiptsIssued(fees, counter)
    ensures ReceiptFree(fees, NatToString(counter + 1))
  {
    forall k | 0 <= k < |fees| ensures fees[k].receiptNumber != NatToString(counter + 1) {
      FreshReceipt(fees[k], counter);
    }
  }

  /** Storing a payment under the counter's next value keeps every receipt issued. */
  lemma ReceiptsIssuedAppend(fees: seq<Payment>, counter: nat, p: Payment)
    requires ReceiptsIssued(fees, counter) && p.receiptNumber == NatToString(counter + 1)
    ensures ReceiptsIssued(fees + [p], counter + 1)
  {
    DecimalRoundTrip(counter + 1);
    var r := fees + [p];
    forall k | 0 <= k < |r| ensures ReceiptIssued(r[k], counter + 1) {
      if k < |fees| {
        assert ReceiptIssued(fees[k], counter);
      }
    }
  }

  /** An edit that keeps the receipt number, and any removal, keep every receipt issued. */
  lemma ReceiptsIssuedKept(fees: seq<Payment>, counter: nat, i: nat, p: Payment)
    requires ReceiptsIssued(fees, counter) && i < |fees| && p.receiptNumber == fees[i].receiptNumber
    ensures ReceiptsIssued(fees[i := p], counter)
    ensures ReceiptsIssued(RemoveAt(fees, i), counter)
  {
    assert ReceiptIssued(fees[i], counter);
    var r := RemoveAt(fees, i);
    forall k | 0 <= k < |r| ensures ReceiptIssued(r[k], counter) {
      assert r[k] == if k < i then fees[k] else fees[k + 1];
    }
  }

  /** The roll number of student `id`; the uniqueness invariant is stated over it. */
  function RollOf(students: map<StudentId, Student>, id: StudentId): string
    requires id in students
  {
    students[id].rollNumber
  }

  /** Student ids are issued and roll numbers are unique. */
  ghost predicate StudentsValid(students: map<StudentId, Student>, lastStudentId: nat) {
    (forall id :: id in students ==> 1 <= id <= lastStudentId) &&
    (forall a, b {:trigger RollOf(students, a), RollOf(students, b)} ::
       a in students && b in students && a != b ==> RollOf(students, a) != RollOf(students, b))
  }

  /** A payment with the next id and a receipt number no payment holds keeps the store valid. */
  lemma FeesValidAppend(fees: seq<Payment>, lastFeeId: nat, lastStudentId: nat, p: Payment)
    requires FeesValid(fees, lastFeeId, lastStudentId)
    requires ReceiptFree(fees, p.receiptNumber) && p.id == lastFeeId + 1
    requires p.student <= lastStudentId && ItemsWellFormed(p.items)
    ensures FeesValid(fees + [p], lastFeeId + 1, lastStudentId)
  {
    var r := fees + [p];
    forall k | 0 <= k < |r| ensures StoredPayment(r[k], lastFeeId + 1, lastStudentId) {
      if k < |fees| {
        assert StoredPayment(fees[k], lastFeeId, lastStudentId);
      }
    }
    forall j, k | 0 <= j < k < |r| ensures ReceiptAt(r, j) != ReceiptAt(r, k) && IdAt(r, j) != IdAt(r, k) {
      if k < |fees| {
        assert ReceiptAt(fees, j) != ReceiptAt(fees, k) && IdAt(fees, j) != IdAt(fees, k);
      } else {
        assert StoredPayment(fees[j], lastFeeId, lastStudentId);
      }
    }
  }

  /**
   * Replacing a payment by one with the same id, an issued student and a
   * receipt number no other payment holds keeps the store valid.
   */
  lemma FeesValidReplace(fees: seq<Payment>, lastFeeId: nat, lastStudentId: nat, i: nat, p: Payment)
    requires FeesValid(fees, lastFeeId, lastStudentId) && i < |fees|
    requires p.id == fees[i].id && p.student <= lastStudentId && ItemsWellFormed(p.items)
    requires !ReceiptClash(fees, i, p.receiptNumber)
    ensures FeesValid(fees[i := p], lastFeeId, lastStudentId)
  {
    var r := fees[i := p];
    assert StoredPayment(fees[i], lastFeeId, lastStudentId);
    forall j, k | 0 <= j < k < |r| ensures ReceiptAt(r, j) != ReceiptAt(r, k) && IdAt(r, j) != IdAt(r, k) {
      assert ReceiptAt(fees, j) != ReceiptAt(fees, k) && IdAt(fees, j) != IdAt(fees, k);
      if j == i {
        assert fees[k].receiptNumber != p.receiptNumber;
      } else if k == i {
        assert fees[j].receiptNumber != p.receiptNumber;
      }
    }
  }

  /** Removing a payment keeps the store valid. */
  lemma FeesValidRemove(fees: seq<Payment>, lastFeeId: nat, lastStudentId: nat, i: nat)
    requires FeesValid(fees, lastFeeId, lastStudentId) && i < |fees|
    ensures FeesValid(RemoveAt(fees, i), lastFeeId, lastStudentId)
  {
    var r := RemoveAt(fees, i);
    assert forall k :: 0 <= k < |r| ==> r[k] == (if k < i then fees[k] else fees[k + 1]);
    forall j, k | 0 <= j < k < |r| ensures ReceiptAt(r, j) != ReceiptAt(r, k) && IdAt(r, j) != IdAt(r, k) {
      var j' := if j < i then j else j + 1;
      var k' := if k < i then k else k + 1;
      assert ReceiptAt(fees, j') != ReceiptAt(fees, k') && IdAt(fees, j') != IdAt(fees, k');
    }
  }

  /** Raising the last issued student id keeps the payments valid, and no payment names a later id. */
  lemma FeesValidGrow(fees: seq<Payment>, lastFeeId: nat, lastStudentId: nat, newLast: nat)
    requires FeesValid(fees, lastFeeId, lastStudentId) && lastStudentId <= newLast
    ensures FeesValid(fees, lastFeeId, newLast)
    ensures PaidSum(fees, lastStudentId + 1) == 0
  {
    forall k | 0 <= k < |fees| ensures StoredPayment(fees[k], lastFeeId, newLast) {
      assert StoredPayment(fees[k], lastFeeId, lastStudentId);
    }
    PaidSumNone(fees, lastStudentId + 1);
  }

  /** A fresh id holding a roll number no student has keeps the students valid. */
  lemma StudentsValidInsert(students: map<StudentId, Student>, last: nat, st: Student)
    requires StudentsValid(students, last)
    requires forall a :: a in students ==> students[a].rollNumber != st.rollNumber
    ensures last + 1 !in students
    ensures StudentsValid(students[last + 1 := st], last + 1)
  {
    var m := students[last + 1 := st];
    forall a, b | a in m && b in m && a != b ensures RollOf(m, a) != RollOf(m, b) {
      if a != last + 1 && b != last + 1 {
        assert RollOf(students, a) != RollOf(students, b);
      }
    }
  }

  /** Changing a student without taking another student's roll number keeps the students valid. */
  lemma StudentsValidUpdate(students: map<StudentId, Student>, last: nat, id: StudentId, st: Student)
    requires StudentsValid(students, last) && id in students
    requires forall a :: a in students && a != id ==> students[a].rollNumber != st.rollNumber
    ensures StudentsValid(students[id := st], last)
  {
    var m := students[id := st];
    forall a, b | a in m && b in m && a != b ensures RollOf(m, a) != RollOf(m, b) {
      if a != id && b != id {
        assert RollOf(students, a) != RollOf(students, b);
      }
    }
  }

  /** Changing a student's other fields keeps the students valid. */
  lemma StudentsValidSameRoll(students: map<StudentId, Student>, last: nat, id: StudentId, st: Student)
    requires StudentsValid(students, last) && id in students && st.rollNumber == students[id].rollNumber
    ensures StudentsValid(students[id := st], last)
  {
    forall a | a in students && a != id ensures students[a].rollNumber != st.rollNumber {
      assert RollOf(students, a) != RollOf(students, id);
    }
    StudentsValidUpdate(students, last, id, st);
  }

  /** Removing a student keeps the students valid. */
  lemma StudentsValidRemove(students: map<StudentId, Student>, last: nat, id: StudentId)
    requires StudentsValid(students, last)
    ensures StudentsValid(students - {id}, last)
  {
    var m := students - {id};
    forall a, b | a in m && b in m && a != b ensures RollOf(m, a) != RollOf(m, b) {
      assert RollOf(students, a) != RollOf(students, b);
    }
  }

  /** Promotion changes no roll number and no id. */
  lemma StudentsValidPromote(students: map<StudentId, Student>, last: nat)
    requires StudentsValid(students, last)
    ensures StudentsValid(PromoteAll(students), last)
  {
    var m := PromoteAll(students);
    forall a, b | a in m && b in m && a != b ensures RollOf(m, a) != RollOf(m, b) {
      assert RollOf(students, a) != RollOf(students, b);
    }
  }

  /**
   * What `Student.create` stores for a request: the validated student with
   * the pre-save totals, or the error that stops it.
   */
  function Created(students: map<StudentId, Student>, input: StudentInput): (r: Result<Student, Error>)
    ensures BuildStudent(input).None? ==> r == Err(ValidationFailed)
    ensures r == Err(DuplicateKey) <==>
              BuildStudent(input).Some? &&
              exists a :: a in students && students[a].rollNumber == BuildStudent(input).value.rollNumber
    ensures r.Err? ==> r == Err(ValidationFailed) || r == Err(DuplicateKey)
    ensures r.Ok? ==> forall a :: a in students ==> students[a].rollNumber != r.value.rollNumber
  {
    match BuildStudent(input)
    case None => Err(ValidationFailed)
    case Some(st) =>
      if exists a :: a in students && students[a].rollNumber == st.rollNumber then Err(DuplicateKey)
      else Ok(st.(fee := WithTotals(st.fee)))   // the pre-save hook
  }

  /** A created student is the validated request with the defaults filled in and consistent totals. */
  lemma CreatedStudent(students: map<StudentId, Student>, input: StudentInput)
    ensures Created(students, input).Ok? ==>
            var st := Created(students, input).value;
            st.(fee := BuildStudent(input).value.fee) == BuildStudent(input).value &&
            st.fee == WithTotals(WithDefaults(input.fee)) && TotalsConsistent(st.fee)
  {
    var r := Created(students, input);
    if r.Ok? {
      var built := BuildStudent(input);
      assert built.Some?;
      var st := built.value;
      assert r == Ok(st.(fee := WithTotals(st.fee)));
      assert st.fee == WithDefaults(input.fee);
      WithTotalsFixpoint(st.fee);
    }
  }

  // ---------------------------------------------------------------------------
  // Updating a student
  // ---------------------------------------------------------------------------

  /**
   * The validators `runValidators` applies to the fields a patch sets: the
   * trimmed names, roll number and phone number are not empty, the class is
   * not empty, and the status is one of the four.
   */
  predicate StudentPatchValid(patch: StudentPatch) {
    (patch.firstName.Some? ==> Trim(patch.firstName.value) != "") &&
    (patch.lastName.Some? ==> Trim(patch.lastName.value) != "") &&
    (patch.rollNumber.Some? ==> Trim(patch.rollNumber.value) != "") &&
    (patch.phoneNumber.Some? ==> Trim(patch.phoneNumber.value) != "") &&
    (patch.className.Some? ==> patch.className.value != "") &&
    ParseStatus(patch.status).Some?
  }

  /** The roll number a student has after the patch (the schema trims it). */
  function PatchedRoll(st: Student, patch: StudentPatch): string {
    if patch.rollNumber.Some? then Trim(patch.rollNumber.value) else st.rollNumber
  }

  /** Another student already holds the roll number, so the unique index refuses the write. */
  predicate RollTaken(students: map<StudentId, Student>, id: StudentId, roll: string) {
    exists a :: a in students && a != id && students[a].rollNumber == roll
  }

  /** The student a valid patch leaves behind: the fields sent (trimmed where the schema trims), the others kept. */
  function StudentPatched(st: Student, patch: StudentPatch): (r: Student)
    requires StudentPatchValid(patch)
    ensures r.rollNumber == PatchedRoll(st, patch)
  {
    Student(
      if patch.firstName.Some? then Trim(patch.firstName.value) else st.firstName,
      if patch.lastName.Some? then Trim(patch.lastName.value) else st.lastName,
      PatchedRoll(st, patch),
      if patch.phoneNumber.Some? then Trim(patch.phoneNumber.value) else st.phoneNumber,
      if patch.className.Some? then patch.className.value else st.className,
      if patch.status.Some? then ParseStatus(patch.status).value else st.status,
      if patch.fee.Some? then patch.fee.value else st.fee)
  }

  /** A patch that sets nothing leaves the student as it was. */
  lemma EmptyPatchKeepsStudent(st: Student)
    ensures StudentPatchValid(StudentPatch(None, None, None, None, None, None, None))
    ensures StudentPatched(st, StudentPatch(None, None, None, None, None, None, None)) == st
  {
  }

  /** Sending the same patch twice stores the same student as sending it once. */
  lemma StudentPatchIdempotent(st: Student, patch: StudentPatch)
    requires StudentPatchValid(patch)
    ensures StudentPatched(StudentPatched(st, patch), patch) == StudentPatched(st, patch)
  {
    if patch.firstName.Some? { TrimIdempotent(patch.firstName.value); }
    if patch.lastName.Some? { TrimIdempotent(patch.lastName.value); }
    if patch.rollNumber.Some? { TrimIdempotent(patch.rollNumber.value); }
    if patch.phoneNumber.Some? { TrimIdempotent(patch.phoneNumber.value); }
  }

  /** A patched text field is stored trimmed: a second trim changes nothing. */
  lemma StudentPatchedTrimmed(st: Student, patch: StudentPatch)
    requires StudentPatchValid(patch)
    ensures patch.firstName.Some? ==> Trim(StudentPatched(st, patch).firstName) == StudentPatched(st, patch).firstName
    ensures patch.rollNumber.Some? ==> Trim(StudentPatched(st, patch).rollNumber) == StudentPatched(st, patch).rollNumber
    ensures patch.rollNumber.None? ==> StudentPatched(st, patch).rollNumber == st.rollNumber
  {
    if patch.firstName.Some? { TrimIdempotent(patch.firstName.value); }
    if patch.rollNumber.Some? { TrimIdempotent(patch.rollNumber.value); }
  }

  // ---------------------------------------------------------------------------
  // Editing a payment

  /**
   * Why `updateFee` refuses an edit before anything is written, if it does:
   * the owner-or-admin check, then the validators, then the unique receipt
   * index.
   */
  function EditRefusal(fees: seq<Payment>, i: nat, caller: User, patch: FeePatch): (e: Option<Error>)
    requires i < |fees|
    ensures Authorize(fees[i].createdBy, caller).Some? ==> e == Authorize(fees[i].createdBy, caller)
    ensures Authorize(fees[i].createdBy, caller).None? ==> (e == Some(ValidationFailed) <==> !PatchValid(patch))
    ensures e == Some(DuplicateKey) <==>
              Authorize(fees[i].createdBy, caller).None? && PatchValid(patch) &&
              ReceiptClash(fees, i, Patched(fees[i], patch).receiptNumber)
    ensures e.None? ==> PatchValid(patch)
  {
    var denied := Authorize(fees[i].createdBy, caller);
    if denied.Some? then denied
    else if !PatchValid(patch) then Some(ValidationFailed)
    else if ReceiptClash(fees, i, Patched(fees[i], patch).receiptNumber) then Some(DuplicateKey)
    else None
  }

  /**
   * The last issued student id once a payment names `patch.student`: ids
   * are never reissued, so a new student never receives an id a payment
   * already names.
   */
  function IssuedAfter(last: nat, patch: FeePatch): (r: nat)
    ensures r >= last && (patch.student.Some? ==> r >= patch.student.value)
    ensures patch.student.None? ==> r == last
  {
    if patch.student.Some? && patch.student.value > last then patch.student.value else last
  }

  /** The students after re-aggregating the paid amounts of `owners` over `fees`. */
  function Reaggregated(students: map<StudentId, Student>, fees: seq<Payment>, owners: set<StudentId>,
                        stamp: Option<int>): (r: map<StudentId, Student>)
    ensures r.Keys == students.Keys
    ensures forall t :: t in students && t !in owners ==> r[t] == students[t]
    ensures forall t :: t in students && t in owners ==> r[t].fee.paidAmount == PaidSum(fees, t)
  {
    map t | t in students :: if t in owners then students[t].(fee := Resynced(students[t].fee, PaidSum(fees, t), stamp))
                             else students[t]
  }

  /**
   * After an edit, re-aggregating the old and the new owner when the patch
   * moves money, and no one otherwise, keeps in sync every student whose
   * paid amount matched its payments before.
   */
  lemma EditKeepsSync(students: map<StudentId, Student>, fees: seq<Payment>, i: nat, p: Payment,
                      after: map<StudentId, Student>, moved: bool, stamp: Option<int>)
    requires i < |fees|
    requires !moved ==> p.student == fees[i].student && p.totalAmount == fees[i].totalAmount && after == students
    requires moved ==> after == Reaggregated(students, fees[i := p], {fees[i].student, p.student}, stamp)
    ensures forall t :: t in students && students[t].fee.paidAmount == PaidSum(fees, t) ==>
              t in after && after[t].fee.paidAmount == PaidSum(fees[i := p], t)
  {
    forall t | t in students && students[t].fee.paidAmount == PaidSum(fees, t)
      ensures t in after && after[t].fee.paidAmount == PaidSum(fees[i := p], t)
    {
      if !moved || (t != fees[i].student && t != p.student) {
        ReplaceKeepsOtherSums(fees, i, p, t);
      }
    }
  }

  /** Re-aggregating the old owner and then the new one is re-aggregating both. */
  lemma ReaggregateTwo(students: map<StudentId, Student>, fees: seq<Payment>, o: StudentId, n: StudentId,
                       stamp: Option<int>)
    ensures var once := if o in students then students[o := students[o].(fee := Resynced(students[o].fee, PaidSum(fees, o), stamp))]
                        else students;
            var twice := if n in once then once[n := once[n].(fee := Resynced(once[n].fee, PaidSum(fees, n), stamp))]
                         else once;
            twice == Reaggregated(students, fees, {o, n}, stamp)
  {
    if o == n && o in students {
      ResyncedTwice(students[o].fee, PaidSum(fees, o), stamp);
    }
  }

  /** The store behind both controllers. */
  class FeeStore {
    var students: map<StudentId, Student>
    var fees: seq<Payment>
    var receiptCounter: nat   // the last value the `receiptNumber` counter handed out
    var lastFeeId: nat        // the last payment id handed out
    var lastStudentId: nat    // the last student id handed out

    /**
     * The store's invariant (`FeesValid` and `StudentsValid`): no two
     * payments share a receipt number; ids are issued and unique, and every
     * payment names a student id that was issued; stored items are
     * well-formed; roll numbers are unique.
     */
    ghost predicate Valid()
      reads this
    {
      FeesValid(fees, lastFeeId, lastStudentId) && StudentsValid(students, lastStudentId)
    }

    /** The student's stored paid amount is the sum of its payments. */
    ghost predicate PaidInSync(s: StudentId)
      reads this
    {
      s in students && students[s].fee.paidAmount == PaidSum(fees, s)
    }

    constructor ()
      ensures Valid()
      ensures students == map[] && fees == [] && receiptCounter == 0
    {
      students := map[];
      fees := [];
      receiptCounter := 0;
      lastFeeId := 0;
      lastStudentId := 0;
    }

    // -------------------------------------------------------------------------
    // backend/controllers/students.js

    /** `createStudent`: `Student.create` validates, runs the pre-save hook, and the unique index refuses a taken roll number. */
    method CreateStudent(input: StudentInput) returns (r: Result<StudentId, Error>)
      requires Valid()
      modifies this`students, this`lastStudentId
      ensures Valid()
      ensures r.Err? <==> Created(old(students), input).Err?
      ensures r.Err? ==> r.error == Created(old(students), input).error && students == old(students)
      ensures r.Ok? ==> r.value !in old(students) && students == old(students)[r.value := Created(old(students), input).value]
      ensures r.Ok? && students[r.value].fee.paidAmount == 0 ==> PaidInSync(r.value)
    {
      var created := Created(students, input);
      if created.Err? {
        return Err(created.error);
      }
      var id := Insert(created.value);
      r := Ok(id);
    }

    /** Stores a student under the next id; the caller has checked that its roll number is free. */
    method Insert(st: Student) returns (id: StudentId)
      requires Valid()
      requires forall a :: a in students ==> students[a].rollNumber != st.rollNumber
      modifies this`students, this`lastStudentId
      ensures Valid()
      ensures id !in old(students) && students == old(students)[id := st]
      ensures st.fee.paidAmount == 0 ==> PaidInSync(id)
    {
      id := lastStudentId + 1;
      StudentsValidInsert(students, lastStudentId, st);
      FeesValidGrow(fees, lastFeeId, lastStudentId, id);
      lastStudentId := id;
      students := students[id := st];
    }

    /** `getStudent`: the stored student, or 404. */
    method GetStudent(id: StudentId) returns (r: Result<Student, Error>)
      ensures id in students <==> r.Ok?
      ensures r.Ok? ==> r.value == students[id]
      ensures r.Err? ==> r.error == NotFound
    {
      if id !in students {
        return Err(NotFound);
      }
      r := Ok(students[id]);
    }

    /**
     * `updateStudent`: the patch goes through `findByIdAndUpdate`, so the
     * validators of the fields it sets run but the pre-save hook does not:
     * a submitted fee record is stored with the totals the client computed.
     */
    method UpdateStudent(id: StudentId, patch: StudentPatch) returns (r: Result<Student, Error>)
      requires Valid()
      modifies this`students
      ensures Valid()
      ensures id !in old(students) ==> r == Err(NotFound)
      ensures id in old(students) ==> (r == Err(ValidationFailed) <==> !StudentPatchValid(patch))
      ensures id in old(students) ==>
                (r == Err(DuplicateKey) <==>
                 StudentPatchValid(patch) && RollTaken(old(students), id, PatchedRoll(old(students)[id], patch)))
      ensures r.Err? ==> students == old(students)
      ensures r.Ok? ==> id in old(students) && StudentPatchValid(patch) &&
                        r.value == StudentPatched(old(students)[id], patch) &&
                        students == old(students)[id := r.value]
      ensures r.Ok? ==> r.value.fee == (if patch.fee.Some? then patch.fee.value else old(students)[id].fee)
      ensures r.Ok? && patch.rollNumber.None? ==> r.value.rollNumber == old(students)[id].rollNumber
    {
      if id !in students {
        return Err(NotFound);
      }
      var st := students[id];
      if !StudentPatchValid(patch) {
        return Err(ValidationFailed);
      }
      if RollTaken(students, id, PatchedRoll(st, patch)) {
        return Err(DuplicateKey);
      }
      var updated := StudentPatched(st, patch);
      StudentsValidUpdate(students, lastStudentId, id, updated);
      students := students[id := updated];
      r := Ok(updated);
    }

    /** `deleteStudent`: 404 for an unknown id; the student's payments stay in the store. */
    method DeleteStudent(id: StudentId) returns (r: Result<(), Error>)
      requires Valid()
      modifies this`students
      ensures Valid()
      ensures id !in old(students) <==> r == Err(NotFound)
      ensures r.Err? ==> students == old(students)
      ensures r.Ok? ==> students == old(students) - {id}
    {
      if id !in students {
        return Err(NotFound);
      }
      StudentsValidRemove(students, lastStudentId, id);
      students := students - {id};
      r := Ok(());
    }

    /** `updateClassFees`: answers with the body it was sent and stores nothing. */
    method UpdateClassFees(body: map<string, ClassFee>) returns (echo: map<string, ClassFee>)
      ensures echo == body
    {
      echo := body;
    }

    /** `getFeeDefaulters`: the students with a positive balance, and how many there are. */
    method GetFeeDefaulters() returns (ids: set<StudentId>, count: nat)
      ensures forall id :: id in ids <==> id in students && students[id].fee.balance > 0
      ensures count == |ids|
    {
      ids := set id | id in students && students[id].fee.balance > 0;
      count := |ids|;
    }

    /**
     * `promoteAllStudents`: fetch the students with a positive balance, then
     * update them one at a time, counting each update.
     */
    method PromoteAllStudents() returns (promotedCount: nat)
      requires Valid()
      modifies this`students
      ensures Valid()
      ensures students == PromoteAll(old(students))
      ensures promotedCount == |Defaulters(old(students))|
    {
      // `Student.find` hands the defaulters back in insertion order, which is id order here
      var found := Defaulters(students);
      ghost var before := students;
      StudentsValidPromote(before, lastStudentId);
      PromoteBelowAll(before, lastStudentId);
      promotedCount := 0;
      var id := 0;
      while id <= lastStudentId
        invariant id <= lastStudentId + 1
        invariant students == PromoteBelow(before, id)
        invariant promotedCount == |DefaultersBelow(before, id)|
      {
        PromoteBelowStep(before, id);
        if id in found {
          var student := students[id];
          if student.fee.balance > 0 {
            // the update document: arrears absorb the balance, every charge is reset
            students := students[id := student.(fee := Promoted(student.fee))];
            promotedCount := promotedCount + 1;
          }
        }
        id := id + 1;
      }
    }

    // -------------------------------------------------------------------------
    // backend/controllers/fees.js and the Fee hooks

    /**
     * Re-aggregation: sum `totalAmount` over the student's payments, store it
     * as `paidAmount`, and set `balance = totalFee - paidAmount`.
     */
    method SyncPaidAmount(s: StudentId, stamp: Option<int>)
      requires Valid() && s in students
      modifies this`students
      ensures Valid()
      ensures students == old(students)[s := old(students)[s].(fee := Resynced(old(students)[s].fee, PaidSum(fees, s), stamp))]
      ensures PaidInSync(s)
    {
      var total := 0;
      var k := 0;
      while k < |fees|
        invariant 0 <= k <= |fees|
        invariant total == PaidSum(fees[..k], s)
      {
        assert fees[..k + 1][..k] == fees[..k];
        if fees[k].student == s {
          total := total + fees[k].totalAmount;
        }
        k := k + 1;
      }
      assert fees[..|fees|] == fees;
      var f := students[s].fee.(paidAmount := total, balance := students[s].fee.totalFee - total);
      if stamp.Some? {
        f := f.(lastPaymentDate := stamp);
      }
      StudentsValidSameRoll(students, lastStudentId, s, students[s].(fee := f));
      students := students[s := students[s].(fee := f)];
    }

    /**
     * `Fee.create` on a validated document: the store gives it the next id
     * and the pre-save hook advances the counter and gives it the counter's
     * value as its receipt number. The unique receipt index then refuses the
     * document if a stored payment already holds that number (an edit can
     * have set it by hand); the counter stays advanced. Otherwise the
     * post-save hook re-aggregates the student's paid amount.
     */
    method InsertFee(draft: Payment, now: int) returns (r: Result<Payment, Error>)
      requires Valid() && draft.student in students && ItemsWellFormed(draft.items)
      modifies this`students, this`fees, this`receiptCounter, this`lastFeeId
      ensures Valid()
      ensures receiptCounter == old(receiptCounter) + 1
      ensures r.Err? <==> !ReceiptFree(old(fees), NatToString(receiptCounter))
      ensures r.Err? ==>
                r.error == DuplicateKey && fees == old(fees) && students == old(students) && lastFeeId == old(lastFeeId)
      ensures r.Ok? ==>
        && lastFeeId == old(lastFeeId) + 1
        && r.value == Stamped(draft.(id := lastFeeId), receiptCounter)
        && fees == old(fees) + [r.value]
        && students == old(students)[draft.student := old(students)[draft.student].(
             fee := Resynced(old(students)[draft.student].fee, PaidSum(fees, draft.student), Some(now)))]
      ensures old(ReceiptsIssued(fees, receiptCounter)) ==> r.Ok? && ReceiptsIssued(fees, receiptCounter)
    {
      ghost var issued := ReceiptsIssued(fees, receiptCounter);
      if issued {
        NextReceiptFree(fees, receiptCounter);
      }
      receiptCounter := receiptCounter + 1;   // the pre-save hook's `Counter.getNextSequence`
      var receipt := NatToString(receiptCounter);
      if !ReceiptFree(fees, receipt) {
        // E11000 on the unique `receiptNumber` index
        return Err(DuplicateKey);
      }
      lastFeeId := lastFeeId + 1;
      var p := Stamped(draft.(id := lastFeeId), receiptCounter);
      FeesValidAppend(fees, lastFeeId - 1, lastStudentId, p);
      if issued {
        ReceiptsIssuedAppend(fees, receiptCounter - 1, p);
      }
      fees := fees + [p];
      SyncPaidAmount(draft.student, Some(now));   // the post-save hook
      r := Ok(p);
    }

    /**
     * `createFee`. The student must exist; items come from the request or
     * are made from a flat amount; the document is validated and stored
     * (`InsertFee`); the handler then re-aggregates the student once more.
     * The stored payment is `NewPayment` of the request.
     */
    method CreateFee(req: CreateFeeRequest, caller: Option<UserId>, now: int, currentYear: nat)
      returns (r: Result<Payment, Error>)
      requires Valid()
      modifies this`students, this`fees, this`receiptCounter, this`lastFeeId
      ensures Valid()
      ensures req.student !in old(students) ==> r == Err(NotFound)
      ensures req.student in old(students) && RequestItems(req).None? ==> r == Err(Internal)
      ensures req.student in old(students) && RequestItems(req).Some? && !CreateValid(RequestItems(req).value, req) ==>
                r == Err(ValidationFailed)
      ensures r.Err? ==> students == old(students) && fees == old(fees) && lastFeeId == old(lastFeeId)
      ensures r.Err? && r.error != DuplicateKey ==> receiptCounter == old(receiptCounter)
      ensures r == Err(DuplicateKey) ==>
        && req.student in old(students) && RequestItems(req).Some? && CreateValid(RequestItems(req).value, req)
        && receiptCounter == old(receiptCounter) + 1 && !ReceiptFree(old(fees), NatToString(receiptCounter))
      ensures r.Ok? ==>
        && req.student in old(students) && RequestItems(req).Some? && CreateValid(RequestItems(req).value, req)
        && receiptCounter == old(receiptCounter) + 1 && lastFeeId == old(lastFeeId) + 1
        && r.value == NewPayment(req, lastFeeId, receiptCounter, old(students)[req.student].fee.balance,
                                 if caller.Some? then caller else req.createdBy, now, currentYear)
        && fees == old(fees) + [r.value]
        && students == old(students)[req.student := old(students)[req.student].(
             fee := Resynced(old(students)[req.student].fee, PaidSum(fees, req.student), Some(now)))]
      ensures r.Ok? && old(PaidInSync(req.student)) ==>
                students[req.student].fee.paidAmount == old(students)[req.student].fee.paidAmount + r.value.totalAmount
      ensures old(ReceiptsIssued(fees, receiptCounter)) ==> r != Err(DuplicateKey) && ReceiptsIssued(fees, receiptCounter)
    {
      var createdBy := if caller.Some? then caller else req.createdBy;
      if req.student !in students {
        return Err(NotFound);
      }
      var student := students[req.student];
      var items := RequestItems(req);
      if items.None? {
        // `req.body.items.reduce` on undefined
        return Err(Internal);
      }
      var validItems := ValidateItems(items.value);
      var mode := ParsePaymentMode(req.paymentMode);
      var payer := ValidatePayer(req.paidBy);
      if validItems.None? || mode.None? || payer.None? {
        return Err(ValidationFailed);
      }
      ValidatedItemsWellFormed(items.value);
      var draft := Draft(req, student.fee.balance, createdBy, now, currentYear);
      r := InsertAndResync(draft, now);
    }

    /** `Fee.create` with its hooks, then the handler's own re-aggregation of the student, which changes nothing more. */
    method InsertAndResync(draft: Payment, now: int) returns (r: Result<Payment, Error>)
      requires Valid() && draft.student in students && ItemsWellFormed(draft.items)
      modifies this`students, this`fees, this`receiptCounter, this`lastFeeId
      ensures Valid()
      ensures receiptCounter == old(receiptCounter) + 1
      ensures r.Err? <==> !ReceiptFree(old(fees), NatToString(receiptCounter))
      ensures r.Err? ==>
                r.error == DuplicateKey && fees == old(fees) && students == old(students) && lastFeeId == old(lastFeeId)
      ensures r.Ok? ==>
        && lastFeeId == old(lastFeeId) + 1
        && r.value == Stamped(draft.(id := lastFeeId), receiptCounter)
        && fees == old(fees) + [r.value]
        && students == old(students)[draft.student := old(students)[draft.student].(
             fee := Resynced(old(students)[draft.student].fee, PaidSum(fees, draft.student), Some(now)))]
      ensures r.Ok? && old(PaidInSync(draft.student)) ==>
                students[draft.student].fee.paidAmount == old(students)[draft.student].fee.paidAmount + r.value.totalAmount
      ensures old(ReceiptsIssued(fees, receiptCounter)) ==> r.Ok? && ReceiptsIssued(fees, receiptCounter)
    {
      ghost var oldFees := fees;
      var before := students[draft.student];
      r := InsertFee(draft, now);
      if r.Err? {
        return;
      }
      ghost var afterInsert := students;
      SyncPaidAmount(draft.student, Some(now));
      ResyncedTwice(before.fee, PaidSum(fees, draft.student), Some(now));
      assert students == afterInsert;
      if before.fee.paidAmount == PaidSum(oldFees, draft.student) {
        PaidSumAppend(oldFees, [r.value], draft.student);
        assert [r.value][..0] == [];
      }
    }

    /**
     * Records that a payment now names `patch.student`. Student ids are
     * never reissued, so no student created later receives an id a payment
     * already names.
     */
    method NoteStudent(patch: FeePatch)
      requires Valid()
      modifies this`lastStudentId
      ensures Valid()
      ensures lastStudentId == IssuedAfter(old(lastStudentId), patch)
    {
      var last := IssuedAfter(lastStudentId, patch);
      FeesValidGrow(fees, lastFeeId, lastStudentId, last);
      lastStudentId := last;
    }

    /**
     * Commits a patch that `EditRefusal` lets through to the payment at `i`,
     * as `findByIdAndUpdate` does.
     */
    method CommitPatch(i: nat, patch: FeePatch) returns (p: Payment)
      requires Valid() && i < |fees| && PatchValid(patch)
      requires !ReceiptClash(fees, i, Patched(fees[i], patch).receiptNumber)
      modifies this`fees, this`lastStudentId
      ensures Valid()
      ensures p == Patched(old(fees)[i], patch) && fees == old(fees)[i := p]
      ensures lastStudentId == IssuedAfter(old(lastStudentId), patch)
      ensures old(ReceiptsIssued(fees, receiptCounter)) && patch.receiptNumber.None? ==> ReceiptsIssued(fees, receiptCounter)
    {
      p := Patched(fees[i], patch);
      PatchedTotal(fees[i], patch);
      NoteStudent(patch);
      FeesValidReplace(fees, lastFeeId, lastStudentId, i, p);
      if ReceiptsIssued(fees, receiptCounter) && patch.receiptNumber.None? {
        ReceiptsIssuedKept(fees, receiptCounter, i, p);
      }
      fees := fees[i := p];
    }

    /**
     * `updateFee` as written. After the owner-or-admin check, the
     * validators of the fields sent and the unique receipt index, the patch
     * is committed; when it carries items the handler then reads
     * `student.fees.totalFee`, a path the schema does not have, and throws:
     * the caller gets a 500 and no student is re-aggregated.
     */
    method UpdateFee(feeId: FeeId, caller: User, patch: FeePatch) returns (r: Result<Payment, Error>)
      requires Valid()
      modifies this`fees, this`lastStudentId
      ensures Valid()
      ensures students == old(students)
      ensures old(ReceiptsIssued(fees, receiptCounter)) && patch.receiptNumber.None? ==> ReceiptsIssued(fees, receiptCounter)
      ensures FindFee(old(fees), feeId).None? ==>
                r == Err(NotFound) && fees == old(fees) && lastStudentId == old(lastStudentId)
      ensures FindFee(old(fees), feeId).Some? ==>
        var i := FindFee(old(fees), feeId).value;
        var refusal := EditRefusal(old(fees), i, caller, patch);
        && (refusal.Some? ==> r == Err(refusal.value) && fees == old(fees) && lastStudentId == old(lastStudentId))
        && (refusal.None? ==>
              fees == old(fees)[i := Patched(old(fees)[i], patch)] &&
              lastStudentId == IssuedAfter(old(lastStudentId), patch) &&
              r == (if patch.items.Some? then Err(Internal) else Ok(fees[i])))
    {
      var found := FindFee(fees, feeId);
      if found.None? {
        return Err(NotFound);
      }
      var i := found.value;
      var refusal := EditRefusal(fees, i, caller, patch);
      if refusal.Some? {
        return Err(refusal.value);
      }
      var p := CommitPatch(i, patch);
      if patch.items.Some? {
        // `student.fees.totalFee`: `student.fees` is undefined
        return Err(Internal);
      }
      r := Ok(p);
    }

    /**
     * `updateFee` with the re-aggregation writing the `fee` sub-record the
     * schema defines, run whenever the patch can move money (items, a total
     * or a new owner), for the old owner and for the new one: afterwards
     * both paid amounts are again the sums of their payments, and every
     * student whose paid amount matched its payments still does.
     */
    method UpdateFeeReconciled(feeId: FeeId, caller: User, patch: FeePatch, now: int) returns (r: Result<Payment, Error>)
      requires Valid()
      modifies this`fees, this`students, this`lastStudentId
      ensures Valid()
      ensures old(ReceiptsIssued(fees, receiptCounter)) && patch.receiptNumber.None? ==> ReceiptsIssued(fees, receiptCounter)
      ensures forall t :: old(PaidInSync(t)) ==> PaidInSync(t)
      ensures FindFee(old(fees), feeId).None? ==>
                r == Err(NotFound) && fees == old(fees) && students == old(students) && lastStudentId == old(lastStudentId)
      ensures FindFee(old(fees), feeId).Some? ==>
        var i := FindFee(old(fees), feeId).value;
        var refusal := EditRefusal(old(fees), i, caller, patch);
        && (refusal.Some? ==>
              r == Err(refusal.value) && fees == old(fees) && students == old(students) &&
              lastStudentId == old(lastStudentId))
        && (refusal.None? ==>
              fees == old(fees)[i := Patched(old(fees)[i], patch)] &&
              lastStudentId == IssuedAfter(old(lastStudentId), patch))
        && (refusal.None? && !MovesMoney(patch) ==> r == Ok(fees[i]) && students == old(students))
        && (refusal.None? && MovesMoney(patch) ==>
              students == Reaggregated(old(students), fees, {old(fees)[i].student, fees[i].student}, Some(now)) &&
              r == (if fees[i].student in old(students) then Ok(fees[i]) else Err(Internal)))
    {
      var found := FindFee(fees, feeId);
      if found.None? {
        return Err(NotFound);
      }
      var i := found.value;
      var refusal := EditRefusal(fees, i, caller, patch);
      if refusal.Some? {
        return Err(refusal.value);
      }
      ghost var oldFees := fees;
      ghost var oldStudents := students;
      var o := fees[i].student;
      var p := CommitPatch(i, patch);
      PatchedTotal(oldFees[i], patch);
      r := Ok(p);
      if MovesMoney(patch) {
        ResyncOwners(o, p.student, now);
        if p.student !in students {
          r := Err(Internal);
        }
      }
      EditKeepsSync(oldStudents, oldFees, i, p, students, MovesMoney(patch), Some(now));
    }

    /** Re-aggregates the old and the new owner of an edited payment, each if it exists. */
    method ResyncOwners(o: StudentId, n: StudentId, now: int)
      requires Valid()
      modifies this`students
      ensures Valid()
      ensures students == Reaggregated(old(students), fees, {o, n}, Some(now))
    {
      ReaggregateTwo(students, fees, o, n, Some(now));
      if o in students {
        SyncPaidAmount(o, Some(now));
      }
      if n in students {
        SyncPaidAmount(n, Some(now));
      }
    }

    /**
     * `deleteFee` as written. After the owner-or-admin check the payment is
     * removed; the handler then reads `student.fees.totalFee` and throws, so
     * the caller gets a 500 and the student keeps the old paid amount.
     */
    method DeleteFee(feeId: FeeId, caller: User) returns (r: Result<(), Error>)
      requires Valid()
      modifies this`fees
      ensures Valid()
      ensures students == old(students)
      ensures FindFee(old(fees), feeId).None? ==> r == Err(NotFound) && fees == old(fees)
      ensures FindFee(old(fees), feeId).Some? ==>
        var i := FindFee(old(fees), feeId).value;
        var denied := Authorize(old(fees)[i].createdBy, caller);
        && (denied.Some? ==> r == Err(denied.value) && fees == old(fees))
        && (denied.None? ==> fees == RemoveAt(old(fees), i) && r == Err(Internal))
    {
      var found := FindFee(fees, feeId);
      if found.None? {
        return Err(NotFound);
      }
      var i := found.value;
      var denied := Authorize(fees[i].createdBy, caller);
      if denied.Some? {
        return Err(denied.value);
      }
      FeesValidRemove(fees, lastFeeId, lastStudentId, i);
      fees := RemoveAt(fees, i);
      // `student.fees.totalFee` (or `student._id` on a missing student) throws
      r := Err(Internal);
    }

    /**
     * `deleteFee` with the re-aggregation writing the `fee` sub-record: the
     * owning student's paid amount drops by exactly the deleted total.
     */
    method DeleteFeeReconciled(feeId: FeeId, caller: User) returns (r: Result<(), Error>)
      requires Valid()
      modifies this`fees, this`students
      ensures Valid()
      ensures FindFee(old(fees), feeId).None? ==> r == Err(NotFound) && fees == old(fees) && students == old(students)
      ensures FindFee(old(fees), feeId).Some? ==>
        var i := FindFee(old(fees), feeId).value;
        var s := old(fees)[i].student;
        var denied := Authorize(old(fees)[i].createdBy, caller);
        && (denied.Some? ==> r == Err(denied.value) && fees == old(fees) && students == old(students))
        && (denied.None? ==> fees == RemoveAt(old(fees), i))
        && (denied.None? && s in old(students) ==>
              r == Ok(()) &&
              students == old(students)[s := old(students)[s].(fee := Resynced(old(students)[s].fee, PaidSum(fees, s), None))] &&
              PaidInSync(s))
        && (denied.None? && s in old(students) && old(PaidInSync(s)) ==>
              students[s].fee.paidAmount == old(students)[s].fee.paidAmount - old(fees)[i].totalAmount)
        && (denied.None? && s !in old(students) ==> r == Err(Internal) && students == old(students))
    {
      var found := FindFee(fees, feeId);
      if found.None? {
        return Err(NotFound);
      }
      var i := found.value;
      var denied := Authorize(fees[i].createdBy, caller);
      if denied.Some? {
        return Err(denied.value);
      }
      var s := fees[i].student;
      PaidSumRemove(fees, i, s);
      FeesValidRemove(fees, lastFeeId, lastStudentId, i);
      fees := RemoveAt(fees, i);
      if s !in students {
        return Err(Internal);
      }
      SyncPaidAmount(s, None);
      r := Ok(());
    }

    /** `getFeesByDateRange`: both bounds are required; both are inclusive. */
    method GetFeesByDateRange(startDate: Option<int>, endDate: Option<int>) returns (r: Result<seq<Payment>, Error>)
      ensures startDate.None? || endDate.None? <==> r == Err(BadRequest)
      ensures r.Ok? ==> forall p :: p in r.value <==> p in fees && startDate.value <= p.paymentDate <= endDate.value
    {
      if startDate.None? || endDate.None? {
        return Err(BadRequest);
      }
      r := Ok(FeesInRange(fees, startDate.value, endDate.value));
    }

    /**
     * `getFeeSummary`: the sum and count of all payments, and the sums of the
     * students' signed balances and total fees; all 0 on an empty store.
     */
    method GetFeeSummary() returns (summary: Summary)
      ensures summary.totalCollected == TotalCollected(fees)
      ensures summary.totalPayments == |fees|
      ensures summary.totalPending == MapSum(BalanceMap(students))
      ensures summary.totalExpected == MapSum(TotalFeeMap(students))
      ensures fees == [] ==> summary.totalCollected == 0 && summary.totalPayments == 0
      ensures students == map[] ==> summary.totalPending == 0 && summary.totalExpected == 0
    {
      var collected := 0;
      var k := 0;
      while k < |fees|
        invariant 0 <= k <= |fees|
        invariant collected == TotalCollected(fees[..k])
      {
        assert fees[..k + 1][..k] == fees[..k];
        collected := collected + fees[k].totalAmount;
        k := k + 1;
      }
      assert fees[..|fees|] == fees;
      var pending := 0;
      var expected := 0;
      var rest := students;
      while rest != map[]
        invariant rest.Keys <= students.Keys
        invariant forall id :: id in rest ==> rest[id] == students[id]
        invariant pending + MapSum(BalanceMap(rest)) == MapSum(BalanceMap(students))
        invariant expected + MapSum(TotalFeeMap(rest)) == MapSum(TotalFeeMap(students))
        decreases |rest|
      {
        var id :| id in rest;
        SumsStep(rest, id);
        pending := pending + rest[id].fee.balance;
        expected := expected + rest[id].fee.totalFee;
        rest := rest - {id};
      }
      assert BalanceMap(rest) == map[] && TotalFeeMap(rest) == map[];
      summary := Summary(collected, |fees|, pending, expected);
    }
  }
}
