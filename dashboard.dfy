/**
 * The dashboard (frontend/src/components/dashboard/Dashboard.js): the paid and
 * pending totals over the fetched students, the six monthly collection
 * buckets, the five most recent payments, and the typed confirmation that
 * guards the year-end promotion.
 *
 * The clock is a parameter (`now` as a year and a 0-based month), and a
 * payment's date is given as the year and month it falls in locally.
 */
module Dashboard {
  import opened Wrappers
  import opened Text
  import opened StudentModel
  import AdvancedResults

  // ---------------------------------------------------------------------
  // Paid and pending totals
  // ---------------------------------------------------------------------

  /** What the page reads of a listed student: `student.fee?.paidAmount` and `student.fee?.totalFee`. */
  datatype FeeView = FeeView(paidAmount: Option<int>, totalFee: Option<int>)

  function ViewOf(s: Student): FeeView {
    FeeView(Some(s.fee.paidAmount), Some(s.fee.totalFee))
  }

  function Views(students: seq<Student>): (r: seq<FeeView>)
    ensures |r| == |students|
    ensures forall i :: 0 <= i < |r| ==> r[i] == ViewOf(students[i])
  {
    if students == [] then [] else Views(students[..|students| - 1]) + [ViewOf(students[|students| - 1])]
  }

  /** `paidAmount || 0`. */
  function Paid(r: FeeView): int {
    r.paidAmount.GetOr(0)
  }

  /** `Math.max(0, totalFee - paidAmount)`, each missing value read as 0. */
  function Pending(r: FeeView): int {
    var due := r.totalFee.GetOr(0) - Paid(r);
    if due > 0 then due else 0
  }

  function CollectedSum(rows: seq<FeeView>): int {
    if rows == [] then 0 else CollectedSum(rows[..|rows| - 1]) + Paid(rows[|rows| - 1])
  }

  /** The pending total counts only what is still due: it is never negative. */
  function PendingSum(rows: seq<FeeView>): (s: int)
    ensures s >= 0
  {
    if rows == [] then 0 else PendingSum(rows[..|rows| - 1]) + Pending(rows[|rows| - 1])
  }

  /** The `forEach` that accumulates both totals. */
  method Totals(rows: seq<FeeView>) returns (totalPaid: int, totalPending: int)
    ensures totalPaid == CollectedSum(rows)
    ensures totalPending == PendingSum(rows)
    ensures totalPending >= 0
  {
    totalPaid, totalPending := 0, 0;
    for i := 0 to |rows|
      invariant totalPaid == CollectedSum(rows[..i])
      invariant totalPending == PendingSum(rows[..i])
    {
      assert rows[..i + 1][..i] == rows[..i];
      var paidAmount := rows[i].paidAmount.GetOr(0);
      var totalFee := rows[i].totalFee.GetOr(0);
      var pendingAmount := if totalFee - paidAmount > 0 then totalFee - paidAmount else 0;
      totalPaid := totalPaid + paidAmount;
      totalPending := totalPending + pendingAmount;
    }
    assert rows[..|rows|] == rows;
  }

  /** Nothing is pending exactly when every listed student has paid at least the total fee. */
  lemma {:induction false} PendingZeroIffSettled(rows: seq<FeeView>)
    ensures PendingSum(rows) == 0 <==> forall i :: 0 <= i < |rows| ==> Pending(rows[i]) == 0
  {
    if rows != [] {
      var init, last := rows[..|rows| - 1], rows[|rows| - 1];
      PendingZeroIffSettled(init);
      assert PendingSum(rows) == 0 <==> PendingSum(init) == 0 && Pending(last) == 0;
      if PendingSum(rows) == 0 {
        forall i | 0 <= i < |rows| ensures Pending(rows[i]) == 0 {
          if i < |init| {
            assert rows[i] == init[i];
          } else {
            assert rows[i] == last;
          }
        }
      } else if PendingSum(init) != 0 {
        var i :| 0 <= i < |init| && Pending(init[i]) != 0;
        assert rows[i] == init[i];
      }
    }
  }

  /** The positive balances of the students, as the defaulter query sums them. */
  function OwedSum(students: seq<Student>): int {
    if students == [] then 0
    else
      var b := students[|students| - 1].fee.balance;
      OwedSum(students[..|students| - 1]) + (if b > 0 then b else 0)
  }

  /**
   * The pending figure ignores concessions: for records whose balance has
   * the concession taken off it, pending is at least what is owed, and the
   * two agree when no student has a concession.
   */
  lemma {:induction false} PendingCoversBalances(students: seq<Student>)
    requires forall i :: 0 <= i < |students| ==>
               students[i].fee.concession >= 0 &&
               students[i].fee.balance == students[i].fee.totalFee - students[i].fee.concession - students[i].fee.paidAmount
    ensures OwedSum(students) <= PendingSum(Views(students))
    ensures (forall i :: 0 <= i < |students| ==> students[i].fee.concession == 0) ==>
              OwedSum(students) == PendingSum(Views(students))
  {
    if students != [] {
      var init := students[..|students| - 1];
      assert Views(students)[..|students| - 1] == Views(init);
      PendingCoversBalances(init);
    }
  }

  /** The student list is fetched with no parameters: the first 25 matches, while the count is of all of them. */
  lemma StudentListDefaults(total: nat)
    ensures AdvancedResults.PageOf(map[]) == 1 && AdvancedResults.LimitOf(map[]) == 25
    ensures AdvancedResults.StartIndex(AdvancedResults.PageOf(map[]), AdvancedResults.LimitOf(map[])) == 0
    ensures AdvancedResults.Links(1, 25, total).count == total
  {
    AdvancedResults.PageDefaults(map[]);
  }

  // ---------------------------------------------------------------------
  // Monthly collection
  // ---------------------------------------------------------------------

  /** A calendar month: the year and the 0-based month (`getMonth`). */
  datatype MonthKey = MonthKey(year: int, month: int)

  const MonthNames: seq<string> :=
    ["Jan", "Feb", "Mar", "Apr", "May", "Jun", "Jul", "Aug", "Sep", "Oct", "Nov", "Dec"]

  /** Months counted from year 0. */
  function Ordinal(k: MonthKey): int {
    k.year * 12 + k.month
  }

  /** `new Date(year, month - i, 1)`: the month `i` months back, the month overflow carried into the year. */
  function MonthsBack(now: MonthKey, i: int): (k: MonthKey)
    ensures 0 <= k.month < 12
    ensures Ordinal(k) == Ordinal(now) - i
  {
    MonthKey(now.year + (now.month - i) / 12,
             (now.month - i) % 12)
  }

  /** Up to a year back, a month before January borrows from the year. */
  lemma YearBorrow(now: MonthKey, i: int)
    requires 0 <= now.month < 12 && 0 <= i < 12
    ensures MonthsBack(now, i) ==
              if i <= now.month then MonthKey(now.year, now.month - i)
              else MonthKey(now.year - 1, now.month - i + 12)
  {
  }

  /** The six months shown, oldest first: five months back up to the current one. */
  function Window(now: MonthKey): (w: seq<MonthKey>)
    ensures |w| == 6
    ensures forall j :: 0 <= j < 6 ==> w[j] == MonthsBack(now, 5 - j)
  {
    seq(6, j => MonthsBack(now, 5 - j))
  }

  /** The window ends at the current month, runs through consecutive months, and repeats none. */
  lemma WindowShape(now: MonthKey)
    requires 0 <= now.month < 12
    ensures Window(now)[5] == now
    ensures forall j :: 0 <= j < 5 ==> Ordinal(Window(now)[j + 1]) == Ordinal(Window(now)[j]) + 1
    ensures forall i, j :: 0 <= i < j < 6 ==> Window(now)[i] != Window(now)[j]
  {
    var w := Window(now);
    assert w[5] == MonthsBack(now, 0);
    forall i, j | 0 <= i < j < 6 ensures w[i] != w[j] {
      assert Ordinal(w[i]) < Ordinal(w[j]);
    }
  }

  /** What the page reads of a payment: the month of `paymentDate` if any, and `totalAmount`. */
  datatype PaymentView = PaymentView(date: Option<MonthKey>, totalAmount: Option<int>)

  /** `payment.totalAmount || 0`. */
  function Amount(p: PaymentView): int {
    p.totalAmount.GetOr(0)
  }

  /** The amounts of the payments dated in month `k`. */
  function MonthTotal(payments: seq<PaymentView>, k: MonthKey): int {
    if payments == [] then 0
    else
      var p := payments[|payments| - 1];
      MonthTotal(payments[..|payments| - 1], k) + (if p.date == Some(k) then Amount(p) else 0)
  }

  /** The amounts of the payments dated in one of the months of `w`. */
  function WithinTotal(payments: seq<PaymentView>, w: seq<MonthKey>): int {
    if payments == [] then 0
    else
      var p := payments[|payments| - 1];
      WithinTotal(payments[..|payments| - 1], w) +
      (if p.date.Some? && p.date.value in w then Amount(p) else 0)
  }

  function AllTotal(payments: seq<PaymentView>): int {
    if payments == [] then 0 else AllTotal(payments[..|payments| - 1]) + Amount(payments[|payments| - 1])
  }

  datatype Bucket = Bucket(month: string, fees: int)

  /** The chart's series: each month of the window with its label and the payments dated in it. */
  function Series(now: MonthKey, payments: seq<PaymentView>): (s: seq<Bucket>)
    ensures |s| == 6
  {
    var w := Window(now);
    seq(6, j requires 0 <= j < 6 => Bucket(MonthNames[w[j].month], MonthTotal(payments, w[j])))
  }

  function BucketSum(s: seq<Bucket>): int {
    if s == [] then 0 else BucketSum(s[..|s| - 1]) + s[|s| - 1].fees
  }

  /**
   * The two loops of the page: one creates a zero bucket per month of the
   * window (keyed by year and month, in that order), the other adds each
   * dated payment to the bucket of its own month when there is one.
   */
  method MonthlyCollection(now: MonthKey, payments: seq<PaymentView>) returns (series: seq<Bucket>)
    ensures series == Series(now, payments)
  {
    var keys, data := EmptyBuckets(now);
    data := AddPayments(keys, data, payments);
    series := seq(6, n requires 0 <= n < 6 => data[keys[n]]);
  }

  /** The first loop: a zero bucket for each month of the window, oldest first. */
  method EmptyBuckets(now: MonthKey) returns (keys: seq<MonthKey>, data: map<MonthKey, Bucket>)
    ensures keys == Window(now)
    ensures forall k :: k in data <==> k in keys
    ensures forall k :: k in data ==> data[k] == Bucket(MonthNames[k.month], 0)
  {
    keys := [];
    data := map[];
    var i := 5;
    while i >= 0
      invariant -1 <= i <= 5
      invariant keys == Window(now)[..5 - i]
      invariant forall k :: k in data <==> k in keys
      invariant forall k :: k in data ==> data[k] == Bucket(MonthNames[k.month], 0)
    {
      var date := MonthsBack(now, i);
      keys := keys + [date];
      data := data[date := Bucket(MonthNames[date.month], 0)];
      i := i - 1;
    }
  }

  /** The second loop: each dated payment goes to the bucket of its own month, if the window has one. */
  method AddPayments(keys: seq<MonthKey>, start: map<MonthKey, Bucket>, payments: seq<PaymentView>)
    returns (data: map<MonthKey, Bucket>)
    requires forall k :: k in start <==> k in keys
    requires forall k :: k in start ==> start[k].fees == 0
    ensures forall k :: k in data <==> k in keys
    ensures forall k :: k in data ==> data[k] == start[k].(fees := MonthTotal(payments, k))
  {
    data := start;
    for j := 0 to |payments|
      invariant forall k :: k in data <==> k in keys
      invariant forall k :: k in data ==> data[k] == start[k].(fees := MonthTotal(payments[..j], k))
    {
      assert payments[..j + 1][..j] == payments[..j];
      var p := payments[j];
      if p.date.Some? {
        var key := p.date.value;
        if key in data {
          data := data[key := data[key].(fees := data[key].fees + p.totalAmount.GetOr(0))];
        }
      }
    }
    assert payments[..|payments|] == payments;
  }

  /** Adding month `k` to a window it is not in adds exactly that month's payments. */
  lemma {:induction false} WithinTotalExtend(payments: seq<PaymentView>, w: seq<MonthKey>, k: MonthKey)
    requires k !in w
    ensures WithinTotal(payments, w + [k]) == WithinTotal(payments, w) + MonthTotal(payments, k)
  {
    if payments != [] {
      WithinTotalExtend(payments[..|payments| - 1], w, k);
    }
  }

  function MonthTotals(payments: seq<PaymentView>, w: seq<MonthKey>): int {
    if w == [] then 0 else MonthTotals(payments, w[..|w| - 1]) + MonthTotal(payments, w[|w| - 1])
  }

  /** Over months that do not repeat, the buckets split the payments dated in them: none counted twice. */
  lemma {:induction false} BucketsPartition(payments: seq<PaymentView>, w: seq<MonthKey>)
    requires forall i, j :: 0 <= i < j < |w| ==> w[i] != w[j]
    ensures MonthTotals(payments, w) == WithinTotal(payments, w)
  {
    if w == [] {
      WithinEmpty(payments);
    } else {
      var init, k := w[..|w| - 1], w[|w| - 1];
      assert w == init + [k];
      BucketsPartition(payments, init);
      WithinTotalExtend(payments, init, k);
    }
  }

  lemma {:induction false} WithinEmpty(payments: seq<PaymentView>)
    ensures WithinTotal(payments, []) == 0
  {
    if payments != [] {
      WithinEmpty(payments[..|payments| - 1]);
    }
  }

  /** With no negative amounts, the months shown hold at most what was paid in all. */
  lemma {:induction false} WithinAtMostAll(payments: seq<PaymentView>, w: seq<MonthKey>)
    requires forall i :: 0 <= i < |payments| ==> Amount(payments[i]) >= 0
    ensures 0 <= WithinTotal(payments, w) <= AllTotal(payments)
  {
    if payments != [] {
      WithinAtMostAll(payments[..|payments| - 1], w);
    }
  }

  lemma {:induction false} BucketSumOfSeries(now: MonthKey, payments: seq<PaymentView>, n: nat)
    requires n <= 6
    ensures BucketSum(Series(now, payments)[..n]) == MonthTotals(payments, Window(now)[..n])
  {
    if n > 0 {
      var s, w := Series(now, payments), Window(now);
      assert s[..n][..n - 1] == s[..n - 1];
      assert w[..n][..n - 1] == w[..n - 1];
      BucketSumOfSeries(now, payments, n - 1);
    }
  }

  /**
   * The chart shows every payment dated in the window once, in its own
   * month; payments outside it are dropped, so the buckets never add up to
   * more than the payments when no amount is negative.
   */
  lemma BucketsAtMostPayments(now: MonthKey, payments: seq<PaymentView>)
    requires 0 <= now.month < 12
    requires forall i :: 0 <= i < |payments| ==> Amount(payments[i]) >= 0
    ensures BucketSum(Series(now, payments)) == WithinTotal(payments, Window(now))
    ensures BucketSum(Series(now, payments)) <= AllTotal(payments)
  {
    WindowShape(now);
    BucketSumOfSeries(now, payments, 6);
    assert Series(now, payments)[..6] == Series(now, payments);
    assert Window(now)[..6] == Window(now);
    BucketsPartition(payments, Window(now));
    WithinAtMostAll(payments, Window(now));
  }

  /** A payment lands in the bucket of its month, and in no other. */
  lemma PaymentInItsMonth(now: MonthKey, p: PaymentView, j: nat)
    requires 0 <= now.month < 12 && j < 6
    ensures Series(now, [p])[j].fees == if p.date == Some(Window(now)[j]) then Amount(p) else 0
  {
    var k := Window(now)[j];
    assert Series(now, [p])[j].fees == MonthTotal([p], k);
    assert [p][..0] == [];
    assert MonthTotal([], k) == 0;
  }

  // ---------------------------------------------------------------------
  // Recent payments
  // ---------------------------------------------------------------------

  /** `slice(0, 5)`: the first five payments fetched, or all of them when fewer. */
  function Recent<T>(all: seq<T>): (r: seq<T>)
    ensures |r| == if |all| < 5 then |all| else 5
    ensures r == all[..|r|]
  {
    if |all| < 5 then all else all[..5]
  }

  /** Taking the recent payments again changes nothing, and later payments never displace earlier ones. */
  lemma RecentStable<T>(a: seq<T>, b: seq<T>)
    ensures Recent(Recent(a)) == Recent(a)
    ensures |a| >= 5 ==> Recent(a + b) == Recent(a)
  {
    if |a| >= 5 {
      assert (a + b)[..5] == a[..5];
    }
  }

  /** The query the page sends for payments. */
  const PaymentsQuery: map<string, AdvancedResults.Param> :=
    map["_sort" := AdvancedResults.Text("paymentDate:desc"), "_limit" := AdvancedResults.Text("50")]

  /** `_sort` and `_limit` are reserved words of the query layer: neither becomes a filter. */
  lemma PaymentsQueryNotFiltered()
    ensures "_sort" !in AdvancedResults.FilterOf("Fee", PaymentsQuery)
    ensures "_limit" !in AdvancedResults.FilterOf("Fee", PaymentsQuery)
  {
    assert AdvancedResults.ReservedKeys[4] == "_sort" && AdvancedResults.ReservedKeys[5] == "_limit";
    AdvancedResults.ReservedNeverFiltered("Fee", PaymentsQuery, "_sort");
    AdvancedResults.ReservedNeverFiltered("Fee", PaymentsQuery, "_limit");
  }

  /** The payments come back newest created first and at most 25 of them, not 50 by payment date. */
  lemma PaymentsQueryDefaults()
    ensures AdvancedResults.LimitOf(PaymentsQuery) == 25 && AdvancedResults.PageOf(PaymentsQuery) == 1
    ensures AdvancedResults.SortOf("Fee", PaymentsQuery) == Some(AdvancedResults.SortBy("-createdAt"))
  {
    assert PaymentsQuery.Keys == {"_sort", "_limit"};
    assert "limit" !in PaymentsQuery && "page" !in PaymentsQuery;
    assert "sort" !in PaymentsQuery && "sortByFees" !in PaymentsQuery;
    AdvancedResults.PageDefaults(PaymentsQuery);
    AdvancedResults.DefaultSort("Fee", PaymentsQuery);
  }

  // ---------------------------------------------------------------------
  // Promotion confirmation
  // ---------------------------------------------------------------------

  const ConfirmWord := "PROMOTEALL"
  const ConfirmPrompt := "Please type PROMOTEALL to confirm this action."
  const PromoteFailed := "Failed to promote students. Please try again."

  /** The notice shown after a promotion attempt. */
  datatype PromoteNotice = Promoted(count: nat) | Refused(message: string)

  /** The confirmation dialog and the state the promotion handler touches. */
  class PromoteDialog {
    var open: bool
    var confirmText: string
    var notice: Option<PromoteNotice>

    /** The confirm button is enabled only when the text reads exactly the confirmation word. */
    predicate ConfirmEnabled()
      reads this
    {
      confirmText == ConfirmWord
    }

    constructor ()
      ensures !open && confirmText == "" && notice == None
    {
      open := false;
      confirmText := "";
      notice := None;
    }

    method Open()
      modifies this
      ensures open && confirmText == old(confirmText) && notice == old(notice)
    {
      open := true;
    }

    /** The text field stores what is typed, upper-cased. */
    method Typed(text: string)
      modifies this
      ensures confirmText == ToUpper(text)
      ensures open == old(open) && notice == old(notice)
    {
      confirmText := ToUpper(text);
    }

    /**
     * `handlePromoteAll`: without the exact word nothing is sent and a
     * prompt is shown; otherwise the request is made (`response` is its
     * reply: the promoted count, or `None` when it fails), and on success
     * the dialog closes and the text is cleared.
     */
    method PromoteAll(response: Option<nat>) returns (invoked: bool)
      modifies this
      ensures invoked <==> old(confirmText) == ConfirmWord
      ensures !invoked ==> notice == Some(Refused(ConfirmPrompt)) && open == old(open) && confirmText == old(confirmText)
      ensures invoked && response.Some? ==> notice == Some(Promoted(response.value)) && !open && confirmText == ""
      ensures invoked && response.None? ==> notice == Some(Refused(PromoteFailed)) && open == old(open) && confirmText == old(confirmText)
    {
      if confirmText != ConfirmWord {
        notice := Some(Refused(ConfirmPrompt));
        return false;
      }
      invoked := true;
      if response.Some? {
        notice := Some(Promoted(response.value));
        open := false;
        confirmText := "";
      } else {
        notice := Some(Refused(PromoteFailed));
      }
    }

    /** Closing the dialog clears the text. */
    method Close()
      modifies this
      ensures !open && confirmText == "" && notice == old(notice)
    {
      open := false;
      confirmText := "";
    }
  }

  /** A typed text confirms exactly when it spells the word in any mix of cases. */
  lemma ConfirmedTexts(text: string)
    ensures ToUpper(text) == ConfirmWord <==>
              |text| == |ConfirmWord| &&
              forall i :: 0 <= i < |text| ==> text[i] == ConfirmWord[i] || text[i] as int == ConfirmWord[i] as int + 32
  {
    var word := ConfirmWord;
    if |text| == |word| {
      forall i | 0 <= i < |text|
        ensures UpperChar(text[i]) == word[i] <==> text[i] == word[i] || text[i] as int == word[i] as int + 32
      {
        assert 'A' <= word[i] <= 'Z';
      }
      if forall i :: 0 <= i < |text| ==> UpperChar(text[i]) == word[i] {
        assert ToUpper(text) == word;
      }
    }
  }
}
