/**
 * The student admission form (frontend/src/components/students/StudentForm.js):
 * the field patterns of its validation schema, the three-step wizard with its
 * per-step checks, the fee handlers that recompute totals as the user types,
 * the class-fee lookup, and the submit path that recomputes the totals once
 * more before the record is sent.
 *
 * Form fields hold text; Formik hands an empty text to the schema as
 * `undefined`, so a pattern on an optional field accepts "". Fee amounts are
 * whole rupees, and `x || 0` on an amount is `x` itself.
 */
module StudentForm {
  import opened Wrappers
  import opened Text
  import opened StudentModel
  import FormatUtils

  // ---------------------------------------------------------------------
  // Field patterns
  // ---------------------------------------------------------------------

  /** `/^\d{12}$/`. */
  predicate IsAadhar(s: string) {
    |s| == 12 && AllDigits(s)
  }

  /** `/^[0-9]{10}$/`. */
  predicate IsPhone(s: string) {
    |s| == 10 && AllDigits(s)
  }

  /** `/^[1-9][0-9]{5}$/`. */
  predicate IsPincode(s: string) {
    |s| == 6 && AllDigits(s) && s[0] != '0'
  }

  /** A pattern on a field that is not required: an empty field passes. */
  predicate OptionalAadhar(s: string) {
    s == "" || IsAadhar(s)
  }

  predicate OptionalPhone(s: string) {
    s == "" || IsPhone(s)
  }

  function Pow10(n: nat): (r: nat)
    ensures r >= 1
  {
    if n == 0 then 1 else 10 * Pow10(n - 1)
  }

  /** The leading digit of a numeral fixes its value to within one power of ten. */
  lemma {:induction false} LeadingDigitValue(s: string)
    requires s != [] && AllDigits(s)
    ensures DigitValue(s[0]) * Pow10(|s| - 1) <= DecimalValue(s) < (DigitValue(s[0]) + 1) * Pow10(|s| - 1)
    decreases |s|
  {
    if |s| > 1 {
      var t := s[..|s| - 1];
      assert t[0] == s[0];
      LeadingDigitValue(t);
      assert DecimalValue(s) == DecimalValue(t) * 10 + DigitValue(s[|s| - 1]);
      assert Pow10(|s| - 1) == 10 * Pow10(|t| - 1);
      ShiftBounds(DigitValue(s[0]), Pow10(|t| - 1), DecimalValue(t), DigitValue(s[|s| - 1]));
    }
  }

  /** Appending a digit multiplies both bounds by ten. */
  lemma ShiftBounds(a: int, p: int, x: int, d: int)
    requires a * p <= x < (a + 1) * p && 0 <= d < 10
    ensures a * (10 * p) <= x * 10 + d < (a + 1) * (10 * p)
  {
    assert a * (10 * p) == 10 * (a * p);
    assert (a + 1) * (10 * p) == 10 * ((a + 1) * p);
  }

  /** A pincode is exactly the rendering of a six-digit number with no leading zero. */
  lemma PincodeIsSixDigitNumber(s: string)
    ensures IsPincode(s) <==> |s| == 6 && AllDigits(s) && 100000 <= DecimalValue(s) <= 999999
  {
    if |s| == 6 && AllDigits(s) {
      LeadingDigitValue(s);
      assert Pow10(5) == 100000 by {
        assert Pow10(2) == 100;
        assert Pow10(4) == 10000;
      }
      assert s[0] != '0' <==> DigitValue(s[0]) >= 1;
    }
  }

  /** A valid phone number is shown as "+91 ddddd ddddd" by the display helper. */
  lemma PhoneValidFormats(s: string)
    requires IsPhone(s)
    ensures FormatUtils.FormatPhoneNumber(Some(s)) == "+91 " + s[..5] + " " + s[5..]
  {
    DigitsOfDigits(s);
  }

  // ---------------------------------------------------------------------
  // Form values
  // ---------------------------------------------------------------------

  /** The form fields that a check or a handler reads; dates are instants. */
  datatype FormValues = FormValues(
    firstName: string,
    lastName: string,
    gender: string,
    dateOfBirth: Option<int>,
    aadharNumber: string,
    phoneNumber: string,
    phoneNumber2: string,
    address: string,
    city: string,
    state: string,
    pincode: string,
    rollNumber: string,
    className: string,
    admissionDate: Option<int>,
    fatherName: string,
    fatherPhone: string,
    fatherAadhar: string,
    motherName: string,
    motherPhone: string,
    motherAadhar: string,
    guardianPhone: string,
    fee: FeeRecord)

  /** A new form: every text empty, no dates, every amount 0. */
  const InitialValues := FormValues(
    "", "", "", None, "", "", "", "", "", "", "", "", "", None,
    "", "", "", "", "", "", "", FeeRecord(0, 0, 0, 0, 0, 0, 0, 0, 0, None))

  /** The fields an error can be recorded against: every field the schema tests. */
  datatype FieldName =
    | FirstName | LastName | Gender | DateOfBirth | AadharNumber | PhoneNumber | PhoneNumber2
    | Address | City | State | Pincode
    | RollNumber | ClassName | AdmissionDate | FatherName | FatherPhone | FatherAadhar
    | MotherName | MotherPhone | MotherAadhar | GuardianPhone
    | AdmissionFee | TuitionFee | TransportFee | OtherFee | Concession

  /** The key of the field in the form's error object. */
  function Key(f: FieldName): string {
    match f
    case FirstName => "firstName"
    case LastName => "lastName"
    case Gender => "gender"
    case DateOfBirth => "dateOfBirth"
    case AadharNumber => "aadharNumber"
    case PhoneNumber => "phoneNumber"
    case PhoneNumber2 => "phoneNumber2"
    case Address => "address"
    case City => "city"
    case State => "state"
    case Pincode => "pincode"
    case RollNumber => "rollNumber"
    case ClassName => "class"
    case AdmissionDate => "admissionDate"
    case FatherName => "fatherName"
    case FatherPhone => "fatherPhone"
    case FatherAadhar => "fatherAadhar"
    case MotherName => "motherName"
    case MotherPhone => "motherPhone"
    case MotherAadhar => "motherAadhar"
    case GuardianPhone => "guardianPhone"
    case AdmissionFee => "fee.admissionFee"
    case TuitionFee => "fee.tuitionFee"
    case TransportFee => "fee.transportFee"
    case OtherFee => "fee.otherFee"
    case Concession => "fee.concession"
  }

  /** `!values[field]`: empty text, no date, or a zero amount. */
  predicate Missing(v: FormValues, f: FieldName) {
    match f
    case FirstName => v.firstName == ""
    case LastName => v.lastName == ""
    case Gender => v.gender == ""
    case DateOfBirth => v.dateOfBirth.None?
    case AadharNumber => v.aadharNumber == ""
    case PhoneNumber => v.phoneNumber == ""
    case PhoneNumber2 => v.phoneNumber2 == ""
    case Address => v.address == ""
    case City => v.city == ""
    case State => v.state == ""
    case Pincode => v.pincode == ""
    case RollNumber => v.rollNumber == ""
    case ClassName => v.className == ""
    case AdmissionDate => v.admissionDate.None?
    case FatherName => v.fatherName == ""
    case FatherPhone => v.fatherPhone == ""
    case FatherAadhar => v.fatherAadhar == ""
    case MotherName => v.motherName == ""
    case MotherPhone => v.motherPhone == ""
    case MotherAadhar => v.motherAadhar == ""
    case GuardianPhone => v.guardianPhone == ""
    case AdmissionFee => v.fee.admissionFee == 0
    case TuitionFee => v.fee.tuitionFee == 0
    case TransportFee => v.fee.transportFee == 0
    case OtherFee => v.fee.otherFee == 0
    case Concession => v.fee.concession == 0
  }

  /** `field.replace(/([A-Z])/g, ' $1')`. */
  function SpaceBeforeCapitals(s: string): string {
    if s == [] then []
    else (if 'A' <= s[0] <= 'Z' then [' ', s[0]] else [s[0]]) + SpaceBeforeCapitals(s[1..])
  }

  function RequiredMessage(f: FieldName): string {
    Trim(SpaceBeforeCapitals(Key(f))) + " is required"
  }

  const PhoneMessage := "Phone number must be 10 digits"
  const PincodeMessage := "Invalid pincode"
  const TuitionMessage := "Tuition fee is required"
  const ConcessionMessage := "Concession cannot be more than total fee"

  const Step0Fields: seq<FieldName> :=
    [FirstName, LastName, Gender, DateOfBirth, PhoneNumber, Address, City, State, Pincode]
  const Step1Fields: seq<FieldName> :=
    [RollNumber, ClassName, AdmissionDate, FatherName, MotherName]

  // ---------------------------------------------------------------------
  // Step checks
  // ---------------------------------------------------------------------

  /** The "is required" errors of the missing fields among `fields`. */
  function RequiredErrors(fields: seq<FieldName>, v: FormValues): (m: map<FieldName, string>)
    ensures forall f :: f in m <==> f in fields && Missing(v, f)
    ensures forall f :: f in m ==> m[f] == RequiredMessage(f)
  {
    if fields == [] then map[]
    else
      var init := fields[..|fields| - 1];
      var f := fields[|fields| - 1];
      assert fields == init + [f];
      var m := RequiredErrors(init, v);
      if Missing(v, f) then m[f := RequiredMessage(f)] else m
  }

  /** The errors `handleNext` records for a step. */
  function StepErrors(step: int, v: FormValues): map<FieldName, string> {
    if step == 0 then
      var required := RequiredErrors(Step0Fields, v);
      var phone := if v.phoneNumber != "" && !IsPhone(v.phoneNumber)
                   then required[PhoneNumber := PhoneMessage] else required;
      if v.pincode != "" && !IsPincode(v.pincode) then phone[Pincode := PincodeMessage] else phone
    else if step == 1 then
      RequiredErrors(Step1Fields, v)
    else if step == 2 then
      if v.fee.tuitionFee == 0 then map[TuitionFee := TuitionMessage] else map[]
    else
      map[]
  }

  /**
   * What each step demands before the wizard moves on: the personal details
   * with a valid phone number and pincode; the academic details; a non-zero
   * tuition fee (an admission fee alone does not do, whatever the page says).
   */
  predicate StepValid(step: int, v: FormValues) {
    if step == 0 then
      v.firstName != "" && v.lastName != "" && v.gender != "" && v.dateOfBirth.Some? &&
      IsPhone(v.phoneNumber) && v.address != "" && v.city != "" && v.state != "" &&
      IsPincode(v.pincode)
    else if step == 1 then
      v.rollNumber != "" && v.className != "" && v.admissionDate.Some? &&
      v.fatherName != "" && v.motherName != ""
    else if step == 2 then
      v.fee.tuitionFee != 0
    else
      true
  }

  /** No "is required" error is recorded exactly when no listed field is missing. */
  lemma RequiredErrorsEmpty(fields: seq<FieldName>, v: FormValues)
    ensures RequiredErrors(fields, v) == map[] <==> forall i :: 0 <= i < |fields| ==> !Missing(v, fields[i])
  {
    var m := RequiredErrors(fields, v);
    if forall i :: 0 <= i < |fields| ==> !Missing(v, fields[i]) {
      assert m.Keys == {};
    } else {
      var i :| 0 <= i < |fields| && Missing(v, fields[i]);
      assert fields[i] in m;
    }
  }

  /** The nine personal fields are all present. */
  predicate PersonalPresent(v: FormValues) {
    v.firstName != "" && v.lastName != "" && v.gender != "" && v.dateOfBirth.Some? &&
    v.phoneNumber != "" && v.address != "" && v.city != "" && v.state != "" && v.pincode != ""
  }

  lemma PersonalFieldsPresent(v: FormValues)
    ensures (forall i :: 0 <= i < |Step0Fields| ==> !Missing(v, Step0Fields[i])) <==> PersonalPresent(v)
  {
    var fs := Step0Fields;
    assert fs[0] == FirstName && fs[1] == LastName && fs[2] == Gender && fs[3] == DateOfBirth;
    assert fs[4] == PhoneNumber && fs[5] == Address && fs[6] == City && fs[7] == State && fs[8] == Pincode;
    if PersonalPresent(v) {
      forall i | 0 <= i < |fs| ensures !Missing(v, fs[i]) {
        assert fs[i] in {FirstName, LastName, Gender, DateOfBirth, PhoneNumber, Address, City, State, Pincode};
      }
    }
  }

  lemma AcademicFieldsPresent(v: FormValues)
    ensures (forall i :: 0 <= i < |Step1Fields| ==> !Missing(v, Step1Fields[i])) <==> StepValid(1, v)
  {
    var fs := Step1Fields;
    assert fs[0] == RollNumber && fs[1] == ClassName && fs[2] == AdmissionDate;
    assert fs[3] == FatherName && fs[4] == MotherName;
  }

  lemma Step0MissingRecorded(v: FormValues)
    requires !PersonalPresent(v)
    ensures StepErrors(0, v) != map[]
  {
    var f :=
      if v.firstName == "" then FirstName else if v.lastName == "" then LastName
      else if v.gender == "" then Gender else if v.dateOfBirth.None? then DateOfBirth
      else if v.phoneNumber == "" then PhoneNumber else if v.address == "" then Address
      else if v.city == "" then City else if v.state == "" then State else Pincode;
    assert Missing(v, f) && f in Step0Fields;
    assert f in RequiredErrors(Step0Fields, v);
    Step0KeepsRequired(v);
  }

  /** The format checks only add to the "is required" errors. */
  lemma Step0KeepsRequired(v: FormValues)
    ensures RequiredErrors(Step0Fields, v).Keys <= StepErrors(0, v).Keys
  {
    var required := RequiredErrors(Step0Fields, v);
    var phone := if v.phoneNumber != "" && !IsPhone(v.phoneNumber)
                 then required[PhoneNumber := PhoneMessage] else required;
    assert required.Keys <= phone.Keys;
    assert StepErrors(0, v) == if v.pincode != "" && !IsPincode(v.pincode)
                               then phone[Pincode := PincodeMessage] else phone;
  }

  lemma Step0FormatRecorded(v: FormValues)
    requires PersonalPresent(v) && !(IsPhone(v.phoneNumber) && IsPincode(v.pincode))
    ensures StepErrors(0, v) != map[]
  {
    if !IsPhone(v.phoneNumber) {
      assert PhoneNumber in StepErrors(0, v);
    } else {
      assert Pincode in StepErrors(0, v);
    }
  }

  lemma Step0ValidClean(v: FormValues)
    requires StepValid(0, v)
    ensures StepErrors(0, v) == map[]
  {
    RequiredErrorsEmpty(Step0Fields, v);
    PersonalFieldsPresent(v);
  }

  lemma Step0ErrorsEmpty(v: FormValues)
    ensures StepErrors(0, v) == map[] <==> StepValid(0, v)
  {
    if StepValid(0, v) {
      Step0ValidClean(v);
    } else if !PersonalPresent(v) {
      Step0MissingRecorded(v);
    } else {
      Step0FormatRecorded(v);
    }
  }

  lemma Step1ErrorsEmpty(v: FormValues)
    ensures StepErrors(1, v) == map[] <==> StepValid(1, v)
  {
    RequiredErrorsEmpty(Step1Fields, v);
    AcademicFieldsPresent(v);
  }

  /** A step passes exactly when its check records no error. */
  lemma StepValidIffNoErrors(step: int, v: FormValues)
    ensures StepValid(step, v) <==> StepErrors(step, v) == map[]
  {
    if step == 0 {
      Step0ErrorsEmpty(v);
    } else if step == 1 {
      Step1ErrorsEmpty(v);
    } else if step == 2 {
      assert v.fee.tuitionFee == 0 ==> TuitionFee in StepErrors(step, v);
    }
  }

  /** Every failed step check names the offending field; a passed one names none. */
  lemma StepErrorsNameFields(step: int, v: FormValues, f: FieldName)
    requires 0 <= step <= 1
    requires f in (if step == 0 then Step0Fields else Step1Fields)
    ensures Missing(v, f) ==> f in StepErrors(step, v)
  {
  }

  /**
   * The check runs over a list of field names and clears `isValid` at the
   * first empty one (the `forEach` over `fieldsToCheck`).
   */
  method CheckRequired(fields: seq<FieldName>, v: FormValues) returns (isValid: bool, errors: map<FieldName, string>)
    ensures errors == RequiredErrors(fields, v)
    ensures isValid <==> forall i :: 0 <= i < |fields| ==> !Missing(v, fields[i])
  {
    isValid := true;
    errors := map[];
    for i := 0 to |fields|
      invariant errors == RequiredErrors(fields[..i], v)
      invariant isValid <==> forall j :: 0 <= j < i ==> !Missing(v, fields[j])
    {
      assert fields[..i + 1][..i] == fields[..i];
      if Missing(v, fields[i]) {
        errors := errors[fields[i] := RequiredMessage(fields[i])];
        isValid := false;
      }
    }
    assert fields[..|fields|] == fields;
  }

  // ---------------------------------------------------------------------
  // Fee handlers
  // ---------------------------------------------------------------------

  /** `parseFloat(text) || 0` on whole numbers: the number read, or 0 when there is none. */
  function FieldInput(text: string): (n: int)
    ensures ParseInt(text).None? ==> n == 0
  {
    match ParseInt(text)
    case None => 0
    case Some(value) => value
  }

  /** Typing a number into a fee field stores that number. */
  lemma FieldInputOfNumeral(n: nat)
    ensures FieldInput(NatToString(n)) == n
  {
    ParseIntOfNatToString(n);
  }

  /** The fields wired to `handleFeeChange`. */
  datatype FeeField = AdmissionFeeField | TuitionFeeField | TransportFeeField | OtherFeeField | ArrearsField

  function FeeAmount(f: FeeRecord, field: FeeField): int {
    match field
    case AdmissionFeeField => f.admissionFee
    case TuitionFeeField => f.tuitionFee
    case TransportFeeField => f.transportFee
    case OtherFeeField => f.otherFee
    case ArrearsField => f.arrears
  }

  function SetFeeAmount(f: FeeRecord, field: FeeField, value: int): FeeRecord {
    match field
    case AdmissionFeeField => f.(admissionFee := value)
    case TuitionFeeField => f.(tuitionFee := value)
    case TransportFeeField => f.(transportFee := value)
    case OtherFeeField => f.(otherFee := value)
    case ArrearsField => f.(arrears := value)
  }

  /** The total the form shows while editing: the four charges and the arrears. */
  function LiveTotal(f: FeeRecord): int {
    CategorySum(f) + f.arrears
  }

  /** `handleFeeChange(field)`: store the amount, then recompute the total (arrears in) and the balance. */
  function FeeChanged(f: FeeRecord, field: FeeField, value: int): (r: FeeRecord)
    ensures FeeAmount(r, field) == value
    ensures forall g :: g != field ==> FeeAmount(r, g) == FeeAmount(f, g)
    ensures r.concession == f.concession && r.paidAmount == f.paidAmount
    ensures r.lastPaymentDate == f.lastPaymentDate
    ensures r.totalFee == CategorySum(r) + r.arrears
    ensures r.balance == r.totalFee - r.concession - r.paidAmount
  {
    var current := SetFeeAmount(f, field, value);
    var total := current.admissionFee + current.tuitionFee + current.transportFee +
                 current.otherFee + current.arrears;
    current.(totalFee := total, balance := total - current.concession - current.paidAmount)
  }

  /**
   * `handleConcessionChange`: a concession above the live total is refused
   * (`None`, the record untouched); otherwise only the concession and the
   * balance change. The stored `totalFee` is left as it was.
   */
  function ConcessionChanged(f: FeeRecord, concession: int): (r: Option<FeeRecord>)
    ensures r.None? <==> concession > CategorySum(f) + f.arrears
    ensures r.Some? ==> r.value.concession == concession
    ensures r.Some? ==> r.value.balance == CategorySum(f) + f.arrears - concession - f.paidAmount
    ensures r.Some? ==> r.value.(concession := f.concession, balance := f.balance) == f
  {
    var total := f.admissionFee + f.tuitionFee + f.transportFee + f.otherFee + f.arrears;
    if concession > total then None
    else Some(f.(concession := concession, balance := total - concession - f.paidAmount))
  }

  /**
   * The paid-amount field's handler: store the amount and the balance
   * against the live total; `overpaid` says whether the overpayment warning
   * is raised.
   */
  function PaidChanged(f: FeeRecord, paid: int): (r: (FeeRecord, bool))
    ensures r.0.paidAmount == paid
    ensures r.0.balance == CategorySum(f) + f.arrears - f.concession - paid
    ensures r.0.(paidAmount := f.paidAmount, balance := f.balance) == f
    ensures r.1 <==> paid > CategorySum(f) + f.arrears - f.concession
  {
    var total := f.admissionFee + f.tuitionFee + f.transportFee + f.otherFee + f.arrears;
    var balance := total - f.concession - paid;
    (f.(paidAmount := paid, balance := balance), balance < 0)
  }

  /** The totals `onSubmit` recomputes: the four charges only, arrears left out. */
  function SubmitFee(f: FeeRecord): (r: FeeRecord)
    ensures r.(totalFee := f.totalFee, balance := f.balance) == f
  {
    var total := f.admissionFee + f.tuitionFee + f.transportFee + f.otherFee;
    f.(totalFee := total, balance := total - f.concession - f.paidAmount)
  }

  /** The form's submit totals are the ones the server's save hook derives. */
  lemma SubmitAgreesWithPreSave(f: FeeRecord)
    ensures SubmitFee(f) == WithTotals(f)
    ensures TotalsConsistent(SubmitFee(f))
  {
  }

  /** After a fee edit, the shown total and balance exceed the submitted ones by exactly the arrears. */
  lemma LiveExceedsSubmitByArrears(f: FeeRecord, field: FeeField, value: int)
    ensures var r := FeeChanged(f, field, value);
            r.totalFee - SubmitFee(r).totalFee == r.arrears &&
            r.balance - SubmitFee(r).balance == r.arrears
  {
  }

  /** A handler's recomputation is idempotent: re-entering the same amount changes nothing. */
  lemma FeeChangedIdempotent(f: FeeRecord, field: FeeField, value: int)
    ensures FeeChanged(FeeChanged(f, field, value), field, value) == FeeChanged(f, field, value)
  {
  }

  /** The schema's bounds on the fee sub-record: amounts not negative, concession within the four charges. */
  predicate FeeSchemaValid(f: FeeRecord) {
    f.admissionFee >= 0 && f.tuitionFee >= 0 && f.transportFee >= 0 && f.otherFee >= 0 &&
    f.concession >= 0 && f.concession <= CategorySum(f)
  }

  /** With no negative arrears, a concession the schema accepts is accepted while typing. */
  lemma SchemaConcessionAccepted(f: FeeRecord, concession: int)
    requires f.arrears >= 0 && concession <= CategorySum(f)
    ensures ConcessionChanged(f, concession).Some?
  {
  }

  /** The handler also accepts a concession that eats into the arrears, which the schema then refuses. */
  lemma ConcessionAgainstArrearsRefusedOnSubmit(f: FeeRecord, concession: int)
    requires FeeSchemaValid(f) && CategorySum(f) < concession <= CategorySum(f) + f.arrears
    ensures ConcessionChanged(f, concession).Some?
    ensures !FeeSchemaValid(ConcessionChanged(f, concession).value)
  {
  }

  /** A record that passes the schema is never submitted with a balance below minus the paid amount. */
  lemma SchemaBoundsSubmittedBalance(f: FeeRecord)
    requires FeeSchemaValid(f)
    ensures SubmitFee(f).balance + f.paidAmount >= 0
    ensures SubmitFee(f).balance + f.paidAmount <= SubmitFee(f).totalFee
  {
  }

  // ---------------------------------------------------------------------
  // Class selection
  // ---------------------------------------------------------------------

  datatype ClassFee = ClassFee(tuitionFee: int, admissionFee: int)

  /** The table the form falls back on (it mirrors backend/config/classFees.js). */
  const FallbackClassFees: map<string, ClassFee> := map[
    "Class 1" := ClassFee(15000, 5000),
    "Class 2" := ClassFee(16000, 5000),
    "Class 3" := ClassFee(17000, 5000),
    "Class 4" := ClassFee(18000, 5000),
    "Class 5" := ClassFee(19000, 5000),
    "Class 6" := ClassFee(22000, 5000),
    "Class 7" := ClassFee(24000, 5000),
    "Class 8" := ClassFee(26000, 5000),
    "Class 9" := ClassFee(28000, 5000),
    "Class 10" := ClassFee(30000, 5000)]

  /**
   * `handleClassChange`: the class is always stored; a class in the table
   * also replaces tuition and admission fees and recomputes the live totals.
   */
  function ClassChanged(v: FormValues, cls: string, table: map<string, ClassFee>): (r: FormValues)
    ensures r.className == cls
    ensures cls !in table ==> r == v.(className := cls)
    ensures cls in table ==>
              r.fee.tuitionFee == table[cls].tuitionFee &&
              r.fee.admissionFee == table[cls].admissionFee &&
              r.fee.totalFee == CategorySum(r.fee) + r.fee.arrears &&
              r.fee.balance == r.fee.totalFee - r.fee.concession - r.fee.paidAmount &&
              r.(className := v.className, fee := v.fee) == v &&
              r.fee.(tuitionFee := v.fee.tuitionFee, admissionFee := v.fee.admissionFee,
                     totalFee := v.fee.totalFee, balance := v.fee.balance) == v.fee
  {
    var v' := v.(className := cls);
    if cls !in table then v'
    else
      var current := v.fee.(tuitionFee := table[cls].tuitionFee, admissionFee := table[cls].admissionFee);
      var total := current.admissionFee + current.tuitionFee + current.transportFee +
                   current.otherFee + current.arrears;
      v'.(fee := current.(totalFee := total, balance := total - current.concession - current.paidAmount))
  }

  /** Every class of the fallback table charges a tuition fee, so picking one satisfies the fee step. */
  lemma FallbackClassPassesFeeStep(v: FormValues, cls: string)
    requires cls in FallbackClassFees
    ensures StepValid(2, ClassChanged(v, cls, FallbackClassFees))
    ensures ClassChanged(v, cls, FallbackClassFees).fee.admissionFee == 5000
  {
  }

  /** Picking a class and then typing a fee keeps the live totals of the last handler. */
  lemma ClassThenFeeConsistent(v: FormValues, cls: string, table: map<string, ClassFee>, field: FeeField, value: int)
    requires cls in table
    ensures var r := FeeChanged(ClassChanged(v, cls, table).fee, field, value);
            r.totalFee == LiveTotal(r) && r.balance == LiveTotal(r) - r.concession - r.paidAmount
  {
  }

  // ---------------------------------------------------------------------
  // Submission
  // ---------------------------------------------------------------------

  /** The schema's tests on the personal and contact fields. */
  predicate ContactSchemaValid(v: FormValues) {
    v.firstName != "" && v.lastName != "" && v.gender != "" && v.dateOfBirth.Some? &&
    OptionalAadhar(v.aadharNumber) &&
    IsPhone(v.phoneNumber) && OptionalPhone(v.phoneNumber2) &&
    v.address != "" && v.city != "" && v.state != "" && IsPincode(v.pincode)
  }

  /** The schema's tests on the academic and parent fields. */
  predicate FamilySchemaValid(v: FormValues) {
    v.rollNumber != "" && v.className != "" && v.admissionDate.Some? &&
    v.fatherName != "" && OptionalPhone(v.fatherPhone) && OptionalAadhar(v.fatherAadhar) &&
    v.motherName != "" && OptionalPhone(v.motherPhone) && OptionalAadhar(v.motherAadhar) &&
    OptionalPhone(v.guardianPhone)
  }

  /** The whole schema as Formik applies it before calling `onSubmit` (the e-mail pattern aside). */
  predicate SchemaValid(v: FormValues) {
    ContactSchemaValid(v) && FamilySchemaValid(v) && FeeSchemaValid(v.fee)
  }

  /** A required text field: its own message when empty. */
  function RequiredText(text: string, message: string): Option<string> {
    if text == "" then Some(message) else None
  }

  /** A required field with a pattern: the "required" message when empty, the pattern's otherwise. */
  function RequiredPattern(text: string, matches: bool, required: string, pattern: string): Option<string> {
    if text == "" then Some(required) else if !matches then Some(pattern) else None
  }

  /** An optional field with a pattern (an empty field reaches the schema as `undefined`). */
  function OptionalPattern(text: string, matches: bool, pattern: string): Option<string> {
    if text != "" && !matches then Some(pattern) else None
  }

  const PositiveMessage := "Must be positive"

  /** `Yup.number().min(0, 'Must be positive')`. */
  function NotNegative(amount: int): Option<string> {
    if amount < 0 then Some(PositiveMessage) else None
  }

  /**
   * The message the schema reports for a field, or None when the field passes.
   * Where two tests of a field fail, the first one declared is reported.
   */
  function SchemaMessage(v: FormValues, f: FieldName): Option<string> {
    match f
    case FirstName => RequiredText(v.firstName, "First name is required")
    case LastName => RequiredText(v.lastName, "Last name is required")
    case Gender => RequiredText(v.gender, "Gender is required")
    case DateOfBirth => if v.dateOfBirth.None? then Some("Date of birth is required") else None
    case AadharNumber => OptionalPattern(v.aadharNumber, IsAadhar(v.aadharNumber), "Aadhar must be 12 digits")
    case PhoneNumber =>
      RequiredPattern(v.phoneNumber, IsPhone(v.phoneNumber), "Phone number is required", PhoneMessage)
    case PhoneNumber2 => OptionalPattern(v.phoneNumber2, IsPhone(v.phoneNumber2), "Alternate phone must be 10 digits")
    case Address => RequiredText(v.address, "Address is required")
    case City => RequiredText(v.city, "City is required")
    case State => RequiredText(v.state, "State is required")
    case Pincode => RequiredPattern(v.pincode, IsPincode(v.pincode), "Pincode is required", PincodeMessage)
    case RollNumber => RequiredText(v.rollNumber, "Roll number is required")
    case ClassName => RequiredText(v.className, "Class is required")
    case AdmissionDate => if v.admissionDate.None? then Some("Admission date is required") else None
    case FatherName => RequiredText(v.fatherName, "Father's name is required")
    case FatherPhone => OptionalPattern(v.fatherPhone, IsPhone(v.fatherPhone), "Father's phone must be 10 digits")
    case FatherAadhar => OptionalPattern(v.fatherAadhar, IsAadhar(v.fatherAadhar), "Father Aadhar must be 12 digits")
    case MotherName => RequiredText(v.motherName, "Mother's name is required")
    case MotherPhone => OptionalPattern(v.motherPhone, IsPhone(v.motherPhone), "Mother's phone must be 10 digits")
    case MotherAadhar => OptionalPattern(v.motherAadhar, IsAadhar(v.motherAadhar), "Mother Aadhar must be 12 digits")
    case GuardianPhone => OptionalPattern(v.guardianPhone, IsPhone(v.guardianPhone), "Guardian phone must be 10 digits")
    case AdmissionFee => NotNegative(v.fee.admissionFee)
    case TuitionFee => NotNegative(v.fee.tuitionFee)
    case TransportFee => NotNegative(v.fee.transportFee)
    case OtherFee => NotNegative(v.fee.otherFee)
    case Concession =>
      if v.fee.concession < 0 then Some(PositiveMessage)
      else if v.fee.concession > CategorySum(v.fee) then Some(ConcessionMessage)
      else None
  }

  const AllFields: set<FieldName> := {
    FirstName, LastName, Gender, DateOfBirth, AadharNumber, PhoneNumber, PhoneNumber2,
    Address, City, State, Pincode, RollNumber, ClassName, AdmissionDate,
    FatherName, FatherPhone, FatherAadhar, MotherName, MotherPhone, MotherAadhar, GuardianPhone,
    AdmissionFee, TuitionFee, TransportFee, OtherFee, Concession}

  /**
   * The error object Formik stores after running the schema over the values:
   * one message per failing field, and nothing for the others.
   */
  function SchemaErrors(v: FormValues): (m: map<FieldName, string>)
    ensures forall f :: f in m ==> SchemaMessage(v, f) == Some(m[f])
  {
    map f | f in AllFields && SchemaMessage(v, f).Some? :: SchemaMessage(v, f).value
  }

  /** Every field the schema fails is recorded. */
  lemma SchemaErrorsComplete(v: FormValues, f: FieldName)
    ensures f in SchemaErrors(v) <==> SchemaMessage(v, f).Some?
  {
    assert f in AllFields;
  }

  /** Under a passing schema no single field fails. */
  lemma SchemaValidFieldPasses(v: FormValues, f: FieldName)
    requires SchemaValid(v)
    ensures SchemaMessage(v, f).None?
  {
    match f
    case FirstName | LastName | Gender | DateOfBirth | AadharNumber | PhoneNumber | PhoneNumber2
         | Address | City | State | Pincode =>
      assert ContactSchemaValid(v);
    case RollNumber | ClassName | AdmissionDate | FatherName | FatherPhone | FatherAadhar
         | MotherName | MotherPhone | MotherAadhar | GuardianPhone =>
      assert FamilySchemaValid(v);
    case AdmissionFee | TuitionFee | TransportFee | OtherFee | Concession =>
      assert FeeSchemaValid(v.fee);
  }

  function ContactFailing(v: FormValues): (f: FieldName)
    requires !ContactSchemaValid(v)
    ensures SchemaMessage(v, f).Some?
  {
    if v.firstName == "" then FirstName else if v.lastName == "" then LastName
    else if v.gender == "" then Gender else if v.dateOfBirth.None? then DateOfBirth
    else if !OptionalAadhar(v.aadharNumber) then AadharNumber
    else if !IsPhone(v.phoneNumber) then PhoneNumber
    else if !OptionalPhone(v.phoneNumber2) then PhoneNumber2
    else if v.address == "" then Address else if v.city == "" then City
    else if v.state == "" then State else Pincode
  }

  function FamilyFailing(v: FormValues): (f: FieldName)
    requires !FamilySchemaValid(v)
    ensures SchemaMessage(v, f).Some?
  {
    if v.rollNumber == "" then RollNumber else if v.className == "" then ClassName
    else if v.admissionDate.None? then AdmissionDate
    else ParentFailing(v)
  }

  function ParentFailing(v: FormValues): (f: FieldName)
    requires !FamilySchemaValid(v)
    requires v.rollNumber != "" && v.className != "" && v.admissionDate.Some?
    ensures SchemaMessage(v, f).Some?
  {
    if v.fatherName == "" then FatherName
    else if !OptionalPhone(v.fatherPhone) then FatherPhone
    else if !OptionalAadhar(v.fatherAadhar) then FatherAadhar
    else MotherFailing(v)
  }

  function MotherFailing(v: FormValues): (f: FieldName)
    requires !FamilySchemaValid(v)
    requires v.rollNumber != "" && v.className != "" && v.admissionDate.Some?
    requires v.fatherName != "" && OptionalPhone(v.fatherPhone) && OptionalAadhar(v.fatherAadhar)
    ensures SchemaMessage(v, f).Some?
  {
    if v.motherName == "" then MotherName
    else if !OptionalPhone(v.motherPhone) then MotherPhone
    else if !OptionalAadhar(v.motherAadhar) then MotherAadhar
    else GuardianPhone
  }

  function FeeFailing(v: FormValues): (f: FieldName)
    requires !FeeSchemaValid(v.fee)
    ensures SchemaMessage(v, f).Some?
  {
    if v.fee.admissionFee < 0 then AdmissionFee else if v.fee.tuitionFee < 0 then TuitionFee
    else if v.fee.transportFee < 0 then TransportFee else if v.fee.otherFee < 0 then OtherFee
    else Concession
  }

  /** A failing schema names a failing field: the first failing one in declaration order. */
  function FirstFailing(v: FormValues): (f: FieldName)
    requires !SchemaValid(v)
    ensures SchemaMessage(v, f).Some?
  {
    if !ContactSchemaValid(v) then ContactFailing(v)
    else if !FamilySchemaValid(v) then FamilyFailing(v)
    else FeeFailing(v)
  }

  /** The schema passes exactly when it records no error. */
  lemma SchemaErrorsEmptyIffValid(v: FormValues)
    ensures SchemaErrors(v) == map[] <==> SchemaValid(v)
  {
    if SchemaValid(v) {
      forall g | g in SchemaErrors(v)
        ensures false
      {
        SchemaValidFieldPasses(v, g);
      }
    } else {
      SchemaErrorsComplete(v, FirstFailing(v));
    }
  }

  /** A field the first two steps require is one the schema requires too. */
  lemma MissingStepFieldFlagged(v: FormValues, f: FieldName)
    requires f in Step0Fields || f in Step1Fields
    requires Missing(v, f)
    ensures SchemaMessage(v, f).Some?
  {
  }

  /** Every field the step check of the first two steps flags, the schema flags as well. */
  lemma StepErrorsFlaggedBySchema(step: int, v: FormValues)
    requires 0 <= step <= 1
    ensures StepErrors(step, v).Keys <= SchemaErrors(v).Keys
  {
    var required := RequiredErrors(if step == 0 then Step0Fields else Step1Fields, v);
    forall f | f in StepErrors(step, v)
      ensures f in SchemaErrors(v)
    {
      SchemaErrorsComplete(v, f);
      if f in required {
        MissingStepFieldFlagged(v, f);
      }
    }
  }

  /** What the form sends: the values with the submit totals. */
  function SubmittedData(v: FormValues): (d: FormValues)
    ensures d.(fee := v.fee) == v
    ensures TotalsConsistent(d.fee)
    ensures d.fee.totalFee == CategorySum(v.fee)
  {
    v.(fee := SubmitFee(v.fee))
  }

  /** The schema's checks include every per-step check except the tuition fee's. */
  lemma SchemaCoversSteps(v: FormValues)
    requires SchemaValid(v)
    ensures StepValid(0, v) && StepValid(1, v)
  {
  }

  /** The schema accepts a zero tuition fee that the fee step refuses. */
  lemma SchemaAllowsZeroTuition(v: FormValues)
    requires SchemaValid(v) && v.fee.tuitionFee == 0
    ensures !StepValid(2, v)
  {
  }

  datatype SubmitResult = Blocked | Rejected | Sent(data: FormValues)

  /** Formik's `handleSubmit`: the schema first, then `onSubmit` with its own step check. */
  function HandleSubmit(step: int, v: FormValues): SubmitResult {
    if !SchemaValid(v) then Rejected
    else if step != 2 then Blocked
    else Sent(SubmittedData(v))
  }

  /** The Save button (shown at the last step only) submits only at step 2. */
  function SaveOutcome(step: int, v: FormValues): SubmitResult {
    if step != 2 then Blocked else HandleSubmit(step, v)
  }

  /** The form's own submit event goes through only at step 2 and from a submit button. */
  function FormSubmitOutcome(step: int, v: FormValues, fromSubmitButton: bool): SubmitResult {
    if step == 2 && fromSubmitButton then HandleSubmit(step, v) else Blocked
  }

  /** A record is sent exactly when the wizard is at its last step and the whole schema holds. */
  lemma SentOnlyAtFinalStep(step: int, v: FormValues, fromSubmitButton: bool)
    ensures SaveOutcome(step, v).Sent? <==> step == 2 && SchemaValid(v)
    ensures FormSubmitOutcome(step, v, fromSubmitButton).Sent? <==>
              step == 2 && fromSubmitButton && SchemaValid(v)
    ensures SaveOutcome(step, v).Sent? ==> SaveOutcome(step, v).data == SubmittedData(v)
  {
  }

  // ---------------------------------------------------------------------
  // The wizard
  // ---------------------------------------------------------------------

  /** The page-level error banner. */
  datatype Banner = NoBanner | Notice(text: string) | Overpayment(extra: int)

  const SaveStepMessage := "Please complete all steps before saving."
  const SubmitStepMessage := "Please complete all steps before submitting"

  function FormStepMessage(step: int): string {
    "Please complete all steps and click \"Save Student\" button. Currently on step " +
    IntToString(step + 1) + " of 3."
  }

  /** The form's state: the step shown, the values, the field errors and the banner. */
  class Wizard {
    var activeStep: int
    var values: FormValues
    var errors: map<FieldName, string>
    var banner: Banner

    /** The step stays within the three steps. */
    predicate Valid()
      reads this
    {
      0 <= activeStep <= 2
    }

    constructor ()
      ensures Valid()
      ensures activeStep == 0 && values == InitialValues && errors == map[] && banner == NoBanner
    {
      activeStep := 0;
      values := InitialValues;
      errors := map[];
      banner := NoBanner;
    }

    /** Editing an existing student loads its values, and Formik runs the schema over them. */
    method Load(student: FormValues)
      modifies this
      ensures values == student && errors == SchemaErrors(student)
      ensures activeStep == old(activeStep) && banner == old(banner)
    {
      values := student;
      errors := SchemaErrors(values);
    }

    /** `handleNext`: record the step's errors; move on when there are none and a step is left. */
    method HandleNext()
      requires Valid()
      modifies this
      ensures Valid()
      ensures errors == StepErrors(old(activeStep), values)
      ensures activeStep == if StepValid(old(activeStep), values) && old(activeStep) < 2
                            then old(activeStep) + 1 else old(activeStep)
      ensures values == old(values) && banner == old(banner)
    {
      var isValid := true;
      var found: map<FieldName, string> := map[];
      if activeStep == 0 {
        isValid, found := CheckRequired(Step0Fields, values);
        if values.phoneNumber != "" && !IsPhone(values.phoneNumber) {
          found := found[PhoneNumber := PhoneMessage];
          isValid := false;
        }
        if values.pincode != "" && !IsPincode(values.pincode) {
          found := found[Pincode := PincodeMessage];
          isValid := false;
        }
      } else if activeStep == 1 {
        isValid, found := CheckRequired(Step1Fields, values);
      } else {
        if values.fee.tuitionFee == 0 {
          found := found[TuitionFee := TuitionMessage];
          isValid := false;
        }
      }
      errors := found;
      assert isValid <==> StepValid(activeStep, values) by {
        StepValidIffNoErrors(activeStep, values);
        if activeStep == 0 {
          assert Missing(values, PhoneNumber) ==> !isValid by {
            assert Step0Fields[4] == PhoneNumber;
          }
          assert Missing(values, Pincode) ==> !isValid by {
            assert Step0Fields[8] == Pincode;
          }
        }
      }
      if isValid && activeStep < 2 {
        activeStep := activeStep + 1;
      }
    }

    /** The Back button, disabled at the first step, steps back by one. */
    method BackClicked()
      requires Valid()
      modifies this
      ensures Valid()
      ensures activeStep == if old(activeStep) == 0 then 0 else old(activeStep) - 1
      ensures values == old(values) && errors == old(errors) && banner == old(banner)
    {
      if activeStep != 0 {
        activeStep := activeStep - 1;
      }
    }

    /** A fee field stores the amount typed and the live totals; the schema runs over the new values. */
    method FeeFieldChanged(field: FeeField, text: string)
      modifies this
      ensures values == old(values).(fee := FeeChanged(old(values).fee, field, FieldInput(text)))
      ensures errors == SchemaErrors(values)
      ensures activeStep == old(activeStep) && banner == old(banner)
    {
      values := values.(fee := FeeChanged(values.fee, field, FieldInput(text)));
      errors := SchemaErrors(values);
    }

    /**
     * A refused concession records an error on that field alone and keeps the
     * values; an accepted one is stored and the schema runs over the new values.
     */
    method ConcessionFieldChanged(text: string)
      modifies this
      ensures var r := ConcessionChanged(old(values).fee, FieldInput(text));
              if r.None? then values == old(values) && errors == old(errors)[Concession := ConcessionMessage]
              else values == old(values).(fee := r.value) && errors == SchemaErrors(values)
      ensures activeStep == old(activeStep) && banner == old(banner)
    {
      var r := ConcessionChanged(values.fee, FieldInput(text));
      if r.None? {
        errors := errors[Concession := ConcessionMessage];
      } else {
        values := values.(fee := r.value);
        errors := SchemaErrors(values);
      }
    }

    /**
     * The paid amount raises the overpayment banner when the live balance goes
     * negative, and clears it otherwise; the schema runs over the new values.
     */
    method PaidFieldChanged(text: string)
      modifies this
      ensures var r := PaidChanged(old(values).fee, FieldInput(text));
              values == old(values).(fee := r.0) &&
              banner == if r.1 then Overpayment(-r.0.balance) else NoBanner
      ensures errors == SchemaErrors(values)
      ensures activeStep == old(activeStep)
    {
      var r := PaidChanged(values.fee, FieldInput(text));
      if r.1 {
        banner := Overpayment(-r.0.balance);
      } else {
        banner := NoBanner;
      }
      values := values.(fee := r.0);
      errors := SchemaErrors(values);
    }

    /** Picking a class stores it (and its fees); the errors are those of the last schema run. */
    method ClassSelected(cls: string, table: map<string, ClassFee>)
      modifies this
      ensures values == ClassChanged(old(values), cls, table)
      ensures errors == SchemaErrors(values)
      ensures activeStep == old(activeStep) && banner == old(banner)
    {
      values := ClassChanged(values, cls, table);
      errors := SchemaErrors(values);
    }

    /**
     * Formik's `handleSubmit`: the schema runs and its errors are stored; a
     * failing schema stops there, otherwise `onSubmit` clears the banner, checks
     * the step and hands over the record with the submit totals.
     */
    method Submit() returns (result: SubmitResult)
      modifies this
      ensures result == HandleSubmit(activeStep, values)
      ensures errors == SchemaErrors(values)
      ensures banner == if result.Rejected? then old(banner)
                        else if activeStep == 2 then NoBanner else Notice(SubmitStepMessage)
      ensures activeStep == old(activeStep) && values == old(values)
    {
      errors := SchemaErrors(values);
      SchemaErrorsEmptyIffValid(values);
      if errors != map[] {
        return Rejected;
      }
      banner := NoBanner;
      if activeStep != 2 {
        banner := Notice(SubmitStepMessage);
        return Blocked;
      }
      var fee := values.fee;
      var totalFee := fee.admissionFee + fee.tuitionFee + fee.transportFee + fee.otherFee;
      var balance := totalFee - fee.concession - fee.paidAmount;
      result := Sent(values.(fee := fee.(totalFee := totalFee, balance := balance)));
    }

    /** The Save button: at step 2 hand over to `handleSubmit`, elsewhere only a banner. */
    method SaveClicked() returns (result: SubmitResult)
      requires Valid()
      modifies this
      ensures Valid()
      ensures result == SaveOutcome(activeStep, values)
      ensures activeStep != 2 ==> banner == Notice(SaveStepMessage) && errors == old(errors)
      ensures activeStep == 2 ==> errors == SchemaErrors(values)
      ensures result.Sent? ==> banner == NoBanner
      ensures result.Rejected? ==> banner == old(banner)
      ensures activeStep == old(activeStep) && values == old(values)
    {
      if activeStep != 2 {
        banner := Notice(SaveStepMessage);
        return Blocked;
      }
      result := Submit();
    }

    /** The form's submit event: only a submit button at step 2 gets through to `handleSubmit`. */
    method FormSubmitted(fromSubmitButton: bool) returns (result: SubmitResult)
      requires Valid()
      modifies this
      ensures Valid()
      ensures result == FormSubmitOutcome(activeStep, values, fromSubmitButton)
      ensures !(activeStep == 2 && fromSubmitButton) ==>
                banner == Notice(FormStepMessage(activeStep)) && errors == old(errors)
      ensures activeStep == 2 && fromSubmitButton ==> errors == SchemaErrors(values)
      ensures result.Sent? ==> banner == NoBanner
      ensures result.Rejected? ==> banner == old(banner)
      ensures activeStep == old(activeStep) && values == old(values)
    {
      if !(activeStep == 2 && fromSubmitButton) {
        banner := Notice(FormStepMessage(activeStep));
        return Blocked;
      }
      result := Submit();
    }
  }
}
