/**
 * The Student document (backend/models/Student.js): the embedded fee
 * sub-record with its defaults, the status enum, and the pre-save hook that
 * derives `totalFee` and `balance`.
 */
module StudentModel {
  import opened Wrappers
  import opened Text

  /** The `fee` sub-record. Amounts are whole rupees; dates are instants. */
  datatype FeeRecord = FeeRecord(
    admissionFee: int,
    tuitionFee: int,
    transportFee: int,
    otherFee: int,
    arrears: int,        // balance carried over from a previous academic year
    concession: int,
    totalFee: int,
    paidAmount: int,
    balance: int,
    lastPaymentDate: Option<int>)

  /** A `fee` sub-record as a client submits it: any field may be absent. */
  datatype FeeInput = FeeInput(
    admissionFee: Option<int>,
    tuitionFee: Option<int>,
    transportFee: Option<int>,
    otherFee: Option<int>,
    arrears: Option<int>,
    concession: Option<int>,
    totalFee: Option<int>,
    paidAmount: Option<int>,
    balance: Option<int>,
    lastPaymentDate: Option<int>)

  datatype Status = Active | Inactive | Graduated | Transferred

  /** The part of a student document the fee ledger and the list page use. */
  datatype Student = Student(
    firstName: string,
    lastName: string,
    rollNumber: string,
    phoneNumber: string,
    className: string,
    status: Status,
    fee: FeeRecord)

  /** A create request for a student; required fields may still be empty. */
  datatype StudentInput = StudentInput(
    firstName: string,
    lastName: string,
    rollNumber: string,
    phoneNumber: string,
    className: string,
    status: Option<string>,
    fee: FeeInput)

  /** Every numeric field of the sub-record defaults to 0; the date has no default. */
  function WithDefaults(input: FeeInput): (f: FeeRecord)
    ensures input.admissionFee.None? ==> f.admissionFee == 0
    ensures input.admissionFee.Some? ==> f.admissionFee == input.admissionFee.value
    ensures input.tuitionFee.None? ==> f.tuitionFee == 0
    ensures input.tuitionFee.Some? ==> f.tuitionFee == input.tuitionFee.value
    ensures input.transportFee.None? ==> f.transportFee == 0
    ensures input.transportFee.Some? ==> f.transportFee == input.transportFee.value
    ensures input.otherFee.None? ==> f.otherFee == 0
    ensures input.otherFee.Some? ==> f.otherFee == input.otherFee.value
    ensures input.arrears.None? ==> f.arrears == 0
    ensures input.arrears.Some? ==> f.arrears == input.arrears.value
    ensures input.concession.None? ==> f.concession == 0
    ensures input.concession.Some? ==> f.concession == input.concession.value
    ensures input.totalFee.None? ==> f.totalFee == 0
    ensures input.totalFee.Some? ==> f.totalFee == input.totalFee.value
    ensures input.paidAmount.None? ==> f.paidAmount == 0
    ensures input.paidAmount.Some? ==> f.paidAmount == input.paidAmount.value
    ensures input.balance.None? ==> f.balance == 0
    ensures input.balance.Some? ==> f.balance == input.balance.value
    ensures f.lastPaymentDate == input.lastPaymentDate
  {
    FeeRecord(
      input.admissionFee.GetOr(0), input.tuitionFee.GetOr(0),
      input.transportFee.GetOr(0), input.otherFee.GetOr(0),
      input.arrears.GetOr(0), input.concession.GetOr(0),
      input.totalFee.GetOr(0), input.paidAmount.GetOr(0),
      input.balance.GetOr(0), input.lastPaymentDate)
  }

  function StatusName(s: Status): string {
    match s
    case Active => "active"
    case Inactive => "inactive"
    case Graduated => "graduated"
    case Transferred => "transferred"
  }

  /** The `status` enum with its default: absent means active, an unknown word is refused. */
  function ParseStatus(s: Option<string>): (r: Option<Status>)
    ensures s.None? ==> r == Some(Active)
  {
    match s
    case None => Some(Active)
    case Some(w) =>
      if w == "active" then Some(Active)
      else if w == "inactive" then Some(Inactive)
      else if w == "graduated" then Some(Graduated)
      else if w == "transferred" then Some(Transferred)
      else None
  }

  /** The enum accepts exactly the four status words. */
  lemma ParseStatusExact(w: string, st: Status)
    ensures ParseStatus(Some(w)) == Some(st) <==> w == StatusName(st)
  {
  }

  /** The four category charges, arrears excluded. */
  function CategorySum(f: FeeRecord): int {
    f.admissionFee + f.tuitionFee + f.transportFee + f.otherFee
  }

  /** The state the pre-save hook leaves a sub-record in. */
  predicate TotalsConsistent(f: FeeRecord) {
    f.totalFee == CategorySum(f) && f.balance == f.totalFee - f.concession - f.paidAmount
  }

  /** The pre-save hook's computation on a copy of the sub-record. */
  function WithTotals(f: FeeRecord): (r: FeeRecord)
    ensures r.totalFee == CategorySum(f)
    ensures r.balance + r.concession + r.paidAmount == CategorySum(f)
    ensures r.(totalFee := f.totalFee, balance := f.balance) == f
  {
    var total := CategorySum(f);
    f.(totalFee := total, balance := total - f.concession - f.paidAmount)
  }

  /**
   * What a saved student's fee record holds when the client sends only some
   * fields: the missing charges count as 0, any `totalFee` or `balance` sent
   * is replaced by the derived one, and arrears are kept.
   */
  lemma DefaultsThenTotals(input: FeeInput)
    ensures var f := WithTotals(WithDefaults(input));
      && f.totalFee == input.admissionFee.GetOr(0) + input.tuitionFee.GetOr(0) +
                       input.transportFee.GetOr(0) + input.otherFee.GetOr(0)
      && f.balance == f.totalFee - input.concession.GetOr(0) - input.paidAmount.GetOr(0)
      && f.arrears == input.arrears.GetOr(0) && f.lastPaymentDate == input.lastPaymentDate
  {
    var d := WithDefaults(input);
    var a, t, tr, o := input.admissionFee.GetOr(0), input.tuitionFee.GetOr(0),
                       input.transportFee.GetOr(0), input.otherFee.GetOr(0);
    assert d.admissionFee + d.tuitionFee + d.transportFee + d.otherFee == a + t + tr + o;
    TotalsFields(d);
  }

  /** A student sent with no charges, concession or payment owes nothing. */
  lemma NoFeeInputOwesNothing(input: FeeInput)
    requires input.admissionFee.None? && input.tuitionFee.None? && input.transportFee.None?
    requires input.otherFee.None? && input.concession.None? && input.paidAmount.None?
    ensures WithTotals(WithDefaults(input)).totalFee == 0 && WithTotals(WithDefaults(input)).balance == 0
  {
    DefaultsThenTotals(input);
  }

  /** The fields of the hook's result, one by one. */
  lemma TotalsFields(f: FeeRecord)
    ensures WithTotals(f).totalFee == f.admissionFee + f.tuitionFee + f.transportFee + f.otherFee
    ensures WithTotals(f).balance == WithTotals(f).totalFee - f.concession - f.paidAmount
    ensures WithTotals(f).arrears == f.arrears && WithTotals(f).lastPaymentDate == f.lastPaymentDate
  {
  }

  /** A sub-record is a fixed point of the hook exactly when its totals are consistent. */
  lemma WithTotalsFixpoint(f: FeeRecord)
    ensures WithTotals(f) == f <==> TotalsConsistent(f)
    ensures TotalsConsistent(WithTotals(f))
    ensures WithTotals(WithTotals(f)) == WithTotals(f)
  {
  }

  /** Arrears never enter the hook's `totalFee` or `balance`. */
  lemma WithTotalsIgnoresArrears(f: FeeRecord, arrears: int)
    ensures WithTotals(f.(arrears := arrears)).totalFee == WithTotals(f).totalFee
    ensures WithTotals(f.(arrears := arrears)).balance == WithTotals(f).balance
  {
  }

  /** A student document; `PreSave` is the hook that runs when it is saved. */
  class StudentDocument {
    var fee: FeeRecord

    constructor (fee: FeeRecord)
      ensures this.fee == fee
    {
      this.fee := fee;
    }

    /** Overwrites `totalFee` and `balance`; every other field is kept. */
    method PreSave()
      modifies this
      ensures fee == WithTotals(old(fee))
      ensures TotalsConsistent(fee)
    {
      fee := fee.(totalFee := fee.admissionFee + fee.tuitionFee + fee.transportFee + fee.otherFee);
      fee := fee.(balance := fee.totalFee - fee.concession - fee.paidAmount);
    }
  }

  /**
   * Schema validation of a new student: the required strings must be non-empty
   * (after trimming where the schema trims) and the status must be in the enum.
   */
  function BuildStudent(input: StudentInput): (r: Option<Student>)
    ensures r.Some? <==>
      Trim(input.firstName) != "" && Trim(input.lastName) != "" &&
      Trim(input.rollNumber) != "" && Trim(input.phoneNumber) != "" &&
      input.className != "" && ParseStatus(input.status).Some?
    ensures r.Some? ==> r.value.fee == WithDefaults(input.fee)
    ensures r.Some? ==> r.value.rollNumber == Trim(input.rollNumber)
  {
    var status := ParseStatus(input.status);
    if Trim(input.firstName) == "" || Trim(input.lastName) == "" ||
       Trim(input.rollNumber) == "" || Trim(input.phoneNumber) == "" ||
       input.className == "" || status.None?
    then None
    else Some(Student(Trim(input.firstName), Trim(input.lastName), Trim(input.rollNumber),
                      Trim(input.phoneNumber), input.className, status.value,
                      WithDefaults(input.fee)))
  }
}
