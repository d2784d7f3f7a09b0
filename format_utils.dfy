/**
 * The display helpers of the front end (frontend/src/utils/formatUtils.js)
 * that work on text: truncation, Indian phone numbers, a student's display
 * name, a postal address on one line, the academic-year label and zero
 * padding. A value JavaScript treats as falsy (missing, null or the empty
 * string) is `None` or `Some("")`.
 */
module FormatUtils {
  import opened Wrappers
  import opened Text

  /** The length `truncateText` keeps when the caller gives none. */
  const DefaultMaxLength := 50

  /** `!text` for an optional string. */
  predicate Falsy(text: Option<string>) {
    text.None? || text.value == ""
  }

  // ---------------------------------------------------------------------
  // truncateText
  // ---------------------------------------------------------------------

  /**
   * Text no longer than the limit is kept; longer text is cut to its first
   * limit characters (none when the limit is negative) and gets "...". An
   * absent `maxLength` means `DefaultMaxLength`.
   */
  function TruncateText(text: Option<string>, maxLength: Option<int>): (r: string)
    ensures var n := maxLength.GetOr(DefaultMaxLength);
      && (Falsy(text) ==> r == "")
      && (!Falsy(text) && |text.value| <= n ==> r == text.value)
      && (!Falsy(text) && |text.value| > n ==>
            var kept := if n < 0 then 0 else n;
            r == text.value[..kept] + "..." && |r| == kept + 3)
  {
    var n := maxLength.GetOr(DefaultMaxLength);
    if Falsy(text) then ""
    else if |text.value| <= n then text.value
    else text.value[..if n < 0 then 0 else n] + "..."
  }

  /** Truncation never lengthens by more than the ellipsis, and keeps a prefix of the text. */
  lemma TruncateKeepsPrefix(text: string, maxLength: Option<int>)
    requires text != []
    ensures var r := TruncateText(Some(text), maxLength);
            |r| <= |text| + 3 &&
            (r == text || (EndsWith(r, "...") && StartsWith(text, r[..|r| - 3])))
    ensures maxLength.None? ==> |TruncateText(Some(text), maxLength)| <= DefaultMaxLength + 3
  {
    var r := TruncateText(Some(text), maxLength);
    var n := maxLength.GetOr(DefaultMaxLength);
    if |text| > n {
      var kept := if n < 0 then 0 else n;
      assert r[..|r| - 3] == text[..kept];
      assert r[|r| - 3..] == "...";
    }
  }

  // ---------------------------------------------------------------------
  // formatPhoneNumber
  // ---------------------------------------------------------------------

  /** Ten digits become "+91 ddddd ddddd"; anything else is returned as given. */
  function FormatPhoneNumber(phone: Option<string>): (r: string)
    ensures Falsy(phone) ==> r == ""
    ensures !Falsy(phone) && |Digits(phone.value)| == 10 ==>
              |r| == 15 && r[..4] == "+91 " && r[9] == ' ' &&
              r[4..9] == Digits(phone.value)[..5] && r[10..] == Digits(phone.value)[5..]
    ensures !Falsy(phone) && |Digits(phone.value)| != 10 ==> r == phone.value
  {
    if Falsy(phone) then ""
    else
      var cleaned := Digits(phone.value);
      if |cleaned| == 10 then "+91 " + cleaned[..5] + " " + cleaned[5..] else phone.value
  }

  /** The prefix "+91 " contributes the country code's two digits. */
  lemma DigitsOfPrefix()
    ensures Digits("+91 ") == "91"
  {
    assert "+91 " == "+" + "91" + " ";
    assert "+"[1..] == [] && " "[1..] == [];
    DigitsAppend("+" + "91", " ");
    DigitsAppend("+", "91");
    DigitsOfDigits("91");
  }

  /** Two digit strings separated by a space give their concatenation. */
  lemma DigitsOfSpaced(a: string, b: string)
    requires AllDigits(a) && AllDigits(b)
    ensures Digits(a + " " + b) == a + b
  {
    var front := a + " ";
    assert Digits(" ") == [] by {
      assert " "[1..] == [];
    }
    DigitsAppend(a, " ");
    DigitsOfDigits(a);
    assert Digits(front) == a;
    DigitsAppend(front, b);
    DigitsOfDigits(b);
  }

  /** The digits of "+91 a b" for digit strings a and b. */
  lemma DigitsOfFormatted(a: string, b: string)
    requires AllDigits(a) && AllDigits(b)
    ensures Digits("+91 " + a + " " + b) == "91" + (a + b)
  {
    var t := a + " " + b;
    assert Digits("+91 " + t) == "91" + (a + b) by {
      DigitsAppend("+91 ", t);
      DigitsOfPrefix();
      DigitsOfSpaced(a, b);
    }
    assert "+91 " + a + " " + b == "+91 " + t;
  }

  /** The formatted number carries the country code followed by exactly the original digits. */
  lemma FormattedPhoneDigits(phone: string)
    requires |Digits(phone)| == 10
    ensures Digits(FormatPhoneNumber(Some(phone))) == "91" + Digits(phone)
  {
    var cleaned := Digits(phone);
    assert cleaned[..5] + cleaned[5..] == cleaned;
    DigitsOfFormatted(cleaned[..5], cleaned[5..]);
  }

  /** Formatting an already formatted number changes nothing: it has twelve digits. */
  lemma FormatPhoneIdempotent(phone: string)
    requires phone != []
    ensures FormatPhoneNumber(Some(FormatPhoneNumber(Some(phone)))) == FormatPhoneNumber(Some(phone))
  {
    if |Digits(phone)| == 10 {
      FormattedPhoneDigits(phone);
    }
  }

  // ---------------------------------------------------------------------
  // formatStudentName
  // ---------------------------------------------------------------------

  datatype NameParts = NameParts(firstName: Option<string>, middleName: Option<string>, lastName: Option<string>)

  /** The name before trimming: first name, middle initial with a dot, last name. */
  function UntrimmedName(s: NameParts): string {
    s.firstName.GetOr("") +
    (if Falsy(s.middleName) then "" else " " + [s.middleName.value[0]] + ".") +
    (if Falsy(s.lastName) then "" else " " + s.lastName.value)
  }

  /** Builds the display name piece by piece, then trims it. */
  method FormatStudentName(student: Option<NameParts>) returns (name: string)
    ensures student.None? ==> name == ""
    ensures student.Some? ==> name == Trim(UntrimmedName(student.value))
  {
    if student.None? {
      return "";
    }
    var s := student.value;
    name := s.firstName.GetOr("");
    if !Falsy(s.middleName) {
      name := name + (" " + [s.middleName.value[0]] + ".");
    } else {
      assert name + "" == name;
    }
    if !Falsy(s.lastName) {
      name := name + (" " + s.lastName.value);
    } else {
      assert name + "" == name;
    }
    name := Trim(name);
  }

  /** With names that carry no outer white space, the display name is "First M. Last". */
  lemma StudentNameShape(first: string, middle: string, last: string)
    requires first != [] && !IsSpace(first[0])
    requires middle != [] && last != [] && !IsSpace(last[|last| - 1])
    ensures Trim(UntrimmedName(NameParts(Some(first), Some(middle), Some(last)))) ==
              first + " " + [middle[0]] + ". " + last
  {
    var n := first + " " + [middle[0]] + ". " + last;
    assert UntrimmedName(NameParts(Some(first), Some(middle), Some(last))) == n;
    assert n[0] == first[0];
    assert n[|n| - 1] == last[|last| - 1];
    TrimUnchanged(n);
  }

  /** Without a middle name the display name is "First Last"; without a last name, "First". */
  lemma StudentNameWithoutMiddle(first: string, last: Option<string>)
    requires first != [] && !IsSpace(first[0]) && !IsSpace(first[|first| - 1])
    requires last.Some? ==> last.value != [] && !IsSpace(last.value[|last.value| - 1])
    ensures Trim(UntrimmedName(NameParts(Some(first), None, last))) ==
              if last.None? then first else first + " " + last.value
  {
    var n := UntrimmedName(NameParts(Some(first), None, last));
    if last.Some? {
      assert n == first + " " + last.value;
      assert n[|n| - 1] == last.value[|last.value| - 1];
    } else {
      assert n == first;
    }
    TrimUnchanged(n);
  }

  // ---------------------------------------------------------------------
  // formatAddress
  // ---------------------------------------------------------------------

  datatype Address = Address(
    addressLine1: Option<string>,
    addressLine2: Option<string>,
    landmark: Option<string>,
    city: Option<string>,
    state: Option<string>,
    pincode: Option<string>,
    country: Option<string>)

  /** The parts in the fixed order of the one-line form. */
  function AddressParts(a: Address): seq<Option<string>> {
    [a.addressLine1, a.addressLine2, a.landmark, a.city, a.state, a.pincode, a.country]
  }

  /** `filter(Boolean)`: the non-empty parts, in order. */
  function Present(parts: seq<Option<string>>): (r: seq<string>)
    ensures |r| <= |parts|
    ensures forall i :: 0 <= i < |r| ==> r[i] != ""
    ensures forall x :: x != "" ==> (x in r <==> Some(x) in parts)
  {
    if parts == [] then []
    else
      var rest := Present(parts[1..]);
      assert forall x :: Some(x) in parts <==> Some(x) == parts[0] || Some(x) in parts[1..];
      if Falsy(parts[0]) then rest else [parts[0].value] + rest
  }

  /** Nothing is left exactly when every part is falsy. */
  lemma {:induction false} PresentEmpty(parts: seq<Option<string>>)
    ensures Present(parts) == [] <==> forall i :: 0 <= i < |parts| ==> Falsy(parts[i])
  {
    if parts != [] {
      PresentEmpty(parts[1..]);
      assert forall i :: 1 <= i < |parts| ==> parts[i] == parts[1..][i - 1];
    }
  }

  /** `join(', ')`. */
  function Join(parts: seq<string>): string {
    if parts == [] then ""
    else if |parts| == 1 then parts[0]
    else parts[0] + ", " + Join(parts[1..])
  }

  /** Joining non-empty parts gives the empty string only when there are no parts. */
  lemma {:induction false} JoinEmpty(parts: seq<string>)
    requires forall i :: 0 <= i < |parts| ==> parts[i] != ""
    ensures Join(parts) == "" <==> parts == []
  {
    if |parts| > 1 {
      assert |Join(parts)| >= |parts[0]|;
    }
  }

  /** The address on one line, or "N/A" when it is missing or has no non-empty part. */
  function FormatAddress(address: Option<Address>): (r: string)
    ensures address.None? ==> r == "N/A"
    ensures address.Some? ==> r == "N/A" || r == Join(Present(AddressParts(address.value)))
  {
    if address.None? then "N/A"
    else
      var joined := Join(Present(AddressParts(address.value)));
      if joined == "" then "N/A" else joined
  }

  /** "N/A" stands for exactly the addresses with no non-empty part. */
  lemma FormatAddressMeaning(address: Address)
    ensures FormatAddress(Some(address)) == "N/A" <==>
              (forall i :: 0 <= i < 7 ==> Falsy(AddressParts(address)[i])) ||
              Join(Present(AddressParts(address))) == "N/A"
  {
    JoinEmpty(Present(AddressParts(address)));
    PresentEmpty(AddressParts(address));
  }

  // ---------------------------------------------------------------------
  // getCurrentAcademicYear
  // ---------------------------------------------------------------------

  /** The first calendar year of the academic year that month `month` (1 to 12) of `year` falls in. */
  function AcademicYearStart(year: int, month: int): (start: int)
    ensures month > 6 ==> start == year
    ensures month <= 6 ==> start == year - 1
  {
    if month > 6 then year else year - 1
  }

  /** "start-(start+1)", for instance "2024-2025". */
  function AcademicYearLabel(year: int, month: int): (r: string)
  {
    var start := AcademicYearStart(year, month);
    IntToString(start) + "-" + IntToString(start + 1)
  }

  /** July to December and the following January to June share one label. */
  lemma AcademicYearSpansNewYear(year: int, month: int, nextMonth: int)
    requires 7 <= month <= 12 && 1 <= nextMonth <= 6
    ensures AcademicYearLabel(year, month) == AcademicYearLabel(year + 1, nextMonth)
  {
  }

  /** The digits read from a numeral followed by a dash are the numeral. */
  lemma {:induction false} DigitPrefixBeforeDash(a: string, b: string)
    requires AllDigits(a)
    ensures DigitPrefix(a + "-" + b) == a
  {
    var s := a + "-" + b;
    if a == [] {
      assert s[0] == '-';
    } else {
      assert s[0] == a[0];
      assert s[1..] == a[1..] + "-" + b;
      DigitPrefixBeforeDash(a[1..], b);
    }
  }

  /** Two separator-joined numerals are equal only when their first numerals are. */
  lemma {:induction false} SplitAtDash(a: string, b: string, c: string, d: string)
    requires AllDigits(a) && AllDigits(c)
    requires a + "-" + b == c + "-" + d
    ensures a == c
  {
    DigitPrefixBeforeDash(a, b);
    DigitPrefixBeforeDash(c, d);
  }

  /** For years after year 0 the label determines the academic year: distinct years, distinct labels. */
  lemma AcademicYearLabelInjective(y1: int, m1: int, y2: int, m2: int)
    requires AcademicYearStart(y1, m1) >= 0 && AcademicYearStart(y2, m2) >= 0
    requires AcademicYearLabel(y1, m1) == AcademicYearLabel(y2, m2)
    ensures AcademicYearStart(y1, m1) == AcademicYearStart(y2, m2)
  {
    var s1, s2 := AcademicYearStart(y1, m1), AcademicYearStart(y2, m2);
    SplitAtDash(NatToString(s1), NatToString(s1 + 1), NatToString(s2), NatToString(s2 + 1));
    NatToStringInjective(s1, s2);
  }

  // ---------------------------------------------------------------------
  // padWithZeros
  // ---------------------------------------------------------------------

  function Zeros(k: nat): (r: string)
    ensures |r| == k
  {
    if k == 0 then [] else "0" + Zeros(k - 1)
  }

  /** Every character of the padding is '0'. */
  lemma {:induction false} ZerosAreZeros(k: nat)
    ensures forall i :: 0 <= i < k ==> Zeros(k)[i] == '0'
  {
    if k > 0 {
      ZerosAreZeros(k - 1);
      assert Zeros(k) == "0" + Zeros(k - 1);
    }
  }

  /** One more leading zero. */
  lemma ZerosPrepend(k: nat, t: string)
    ensures "0" + (Zeros(k) + t) == Zeros(k + 1) + t
  {
    assert Zeros(k + 1) == "0" + Zeros(k);
  }

  lemma PaddedEndsWith(k: nat, t: string)
    ensures EndsWith(Zeros(k) + t, t)
  {
    var s := Zeros(k) + t;
    assert s[|s| - |t|..] == t;
  }

  /** Prepends '0' until the text is `size` long; text already that long is kept whole. */
  method PadWithZeros(num: string, size: int) returns (s: string)
    ensures |s| == if |num| < size then size else |num|
    ensures EndsWith(s, num)
    ensures s == Zeros(|s| - |num|) + num
  {
    s := num;
    ghost var k: nat := 0;
    assert Zeros(0) + num == num;
    while |s| < size
      invariant s == Zeros(k) + num && |s| == k + |num|
      invariant k == 0 || |s| <= size
      decreases size - |s|
    {
      ZerosPrepend(k, num);
      s := "0" + s;
      k := k + 1;
    }
    PaddedEndsWith(k, num);
  }

  lemma {:induction false} DecimalValueOfZeros(k: nat)
    ensures AllDigits(Zeros(k)) && DecimalValue(Zeros(k)) == 0
  {
    ZerosAreZeros(k);
    if k > 0 {
      var z := Zeros(k);
      ZerosAreZeros(k - 1);
      assert z[..k - 1] == Zeros(k - 1);
      DecimalValueOfZeros(k - 1);
    }
  }

  /** Leading zeros do not change the value of a numeral. */
  lemma {:induction false} LeadingZerosKeepValue(k: nat, d: string)
    requires AllDigits(d)
    ensures AllDigits(Zeros(k) + d) && DecimalValue(Zeros(k) + d) == DecimalValue(d)
    decreases |d|
  {
    var s := Zeros(k) + d;
    if d == [] {
      assert s == Zeros(k);
      DecimalValueOfZeros(k);
    } else {
      LeadingZerosKeepValue(k, d[..|d| - 1]);
      assert s[..|s| - 1] == Zeros(k) + d[..|d| - 1];
      assert s[|s| - 1] == d[|d| - 1];
    }
  }

  /** A padded number reads back as the number. */
  lemma PaddedNumberValue(n: nat, k: nat)
    ensures ParseInt(Zeros(k) + NatToString(n)) == Some(n)
  {
    var d := NatToString(n);
    var s := Zeros(k) + d;
    LeadingZerosKeepValue(k, d);
    ParseIntOfDigits(s);
    DecimalRoundTrip(n);
  }
}
