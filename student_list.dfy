/**
 * The student list page (frontend/src/components/students/StudentList.js):
 * the request it sends to the students endpoint, the handlers that change
 * the page and the filters, and the fee-status chip of each row.
 *
 * A request parameter travels as text, so a number is sent as its decimal
 * rendering.
 */
module StudentList {
  import opened Wrappers
  import opened Text
  import opened StudentModel
  import opened AdvancedResults
  import FeeModel
  import FeeLedger

  // ---------------------------------------------------------------------
  // The request
  // ---------------------------------------------------------------------

  /**
   * The parameters `fetchStudents` sends: the 1-based page and the page
   * size always; the search text, the class, the fee status and the fee
   * sort only when set.
   */
  function RequestParams(page: nat, rowsPerPage: int, search: string, classFilter: string,
                         feeStatus: string, sortByFees: string): map<string, Param>
  {
    var base := map["page" := Text(NatToString(page + 1)), "limit" := Text(IntToString(rowsPerPage))];
    var withSearch := if search != "" then base["q" := Text(search)] else base;
    var withClass := if classFilter != "" && classFilter != "all" then withSearch["class" := Text(classFilter)]
                     else withSearch;
    var withStatus := if feeStatus == "pending" || feeStatus == "completed"
                      then withClass["feeStatus" := Text(feeStatus)] else withClass;
    if sortByFees != "none" then withStatus["sortByFees" := Text(sortByFees)] else withStatus
  }

  /** Which parameters are sent, and with what value. */
  lemma ParamsPresent(page: nat, rowsPerPage: int, search: string, classFilter: string,
                      feeStatus: string, sortByFees: string)
    ensures var p := RequestParams(page, rowsPerPage, search, classFilter, feeStatus, sortByFees);
            p.Keys <= {"page", "limit", "q", "class", "feeStatus", "sortByFees"} &&
            p["page"] == Text(NatToString(page + 1)) &&
            p["limit"] == Text(IntToString(rowsPerPage)) &&
            ("q" in p <==> search != "") &&
            (search != "" ==> p["q"] == Text(search)) &&
            ("class" in p <==> classFilter != "" && classFilter != "all") &&
            ("class" in p ==> p["class"] == Text(classFilter)) &&
            ("feeStatus" in p <==> feeStatus == "pending" || feeStatus == "completed") &&
            ("feeStatus" in p ==> p["feeStatus"] == Text(feeStatus)) &&
            ("sortByFees" in p <==> sortByFees != "none") &&
            ("sortByFees" in p ==> p["sortByFees"] == Text(sortByFees))
  {
  }

  /** The query layer reads back the page one above the table's and the page size, and skips the earlier pages. */
  lemma ParamsPageRoundTrip(page: nat, rowsPerPage: int, search: string, classFilter: string,
                            feeStatus: string, sortByFees: string)
    requires rowsPerPage >= 1
    ensures var p := RequestParams(page, rowsPerPage, search, classFilter, feeStatus, sortByFees);
            PageOf(p) == page + 1 && LimitOf(p) == rowsPerPage &&
            StartIndex(PageOf(p), LimitOf(p)) == page * rowsPerPage
  {
    var p := RequestParams(page, rowsPerPage, search, classFilter, feeStatus, sortByFees);
    ParamsPresent(page, rowsPerPage, search, classFilter, feeStatus, sortByFees);
    PageOfDecimal(p, page + 1, rowsPerPage);
  }

  /** The fee-status choice becomes the balance condition: pending owes, completed does not, anything else adds none. */
  lemma ParamsFeeStatus(page: nat, rowsPerPage: int, search: string, classFilter: string,
                        feeStatus: string, sortByFees: string)
    ensures var p := RequestParams(page, rowsPerPage, search, classFilter, feeStatus, sortByFees);
            (feeStatus == "pending" ==> FilterOf("Student", p)["fee.balance"] == GreaterThan(0)) &&
            (feeStatus == "completed" ==> FilterOf("Student", p)["fee.balance"] == AtMost(0)) &&
            (feeStatus != "pending" && feeStatus != "completed" ==> FilterOf("Student", p) == Rewritten(Stripped(p)))
  {
    var p := RequestParams(page, rowsPerPage, search, classFilter, feeStatus, sortByFees);
    ParamsPresent(page, rowsPerPage, search, classFilter, feeStatus, sortByFees);
    if "feeStatus" in p {
      FeeStatusSelectsDefaulters(p, map[]);
    }
  }

  /** A search text becomes the four-field text search; an empty one searches nothing. */
  lemma ParamsSearch(page: nat, rowsPerPage: int, search: string, classFilter: string,
                     feeStatus: string, sortByFees: string)
    ensures var p := RequestParams(page, rowsPerPage, search, classFilter, feeStatus, sortByFees);
            (search != "" ==>
               AnyOf("Student", p) ==
               Some([("firstName", search), ("lastName", search), ("rollNumber", search), ("phoneNumber", search)])) &&
            (search == "" ==> AnyOf("Student", p) == Some([]))
  {
    var p := RequestParams(page, rowsPerPage, search, classFilter, feeStatus, sortByFees);
    ParamsPresent(page, rowsPerPage, search, classFilter, feeStatus, sortByFees);
    if search != "" {
      SearchFieldsCovered(p, search);
    }
  }

  /** "desc" and "asc" sort by balance; "none" leaves the newest first. */
  lemma ParamsSort(page: nat, rowsPerPage: int, search: string, classFilter: string,
                   feeStatus: string, sortByFees: string)
    ensures var p := RequestParams(page, rowsPerPage, search, classFilter, feeStatus, sortByFees);
            (sortByFees == "desc" ==> SortOf("Student", p) == Some(SortBy("-fee.balance"))) &&
            (sortByFees == "asc" ==> SortOf("Student", p) == Some(SortBy("fee.balance"))) &&
            (sortByFees == "none" ==> SortOf("Student", p) == Some(SortBy("-createdAt")))
  {
    var p := RequestParams(page, rowsPerPage, search, classFilter, feeStatus, sortByFees);
    ParamsPresent(page, rowsPerPage, search, classFilter, feeStatus, sortByFees);
    if sortByFees == "none" {
      DefaultSort("Student", p);
    }
  }

  // ---------------------------------------------------------------------
  // The page state and its handlers
  // ---------------------------------------------------------------------

  /** The table page (0-based), the page size, and the four filters. */
  class ListState {
    var page: nat
    var rowsPerPage: int
    var searchTerm: string
    var classFilter: string
    var feeStatusFilter: string
    var sortByFees: string
    var filterDialogOpen: bool

    constructor ()
      ensures page == 0 && rowsPerPage == 10 && searchTerm == "" && classFilter == "all"
      ensures feeStatusFilter == "all" && sortByFees == "none" && !filterDialogOpen
    {
      page := 0;
      rowsPerPage := 10;
      searchTerm := "";
      classFilter := "all";
      feeStatusFilter := "all";
      sortByFees := "none";
      filterDialogOpen := false;
    }

    /** `fetchStudents`: the parameters object, filled in one condition at a time. */
    method FetchParams() returns (params: map<string, Param>)
      ensures params == RequestParams(page, rowsPerPage, searchTerm, classFilter, feeStatusFilter, sortByFees)
    {
      params := map["page" := Text(NatToString(page + 1)), "limit" := Text(IntToString(rowsPerPage))];
      if searchTerm != "" {
        params := params["q" := Text(searchTerm)];
      }
      if classFilter != "" && classFilter != "all" {
        params := params["class" := Text(classFilter)];
      }
      if feeStatusFilter != "all" {
        if feeStatusFilter == "pending" {
          params := params["feeStatus" := Text("pending")];
        } else if feeStatusFilter == "completed" {
          params := params["feeStatus" := Text("completed")];
        }
      }
      if sortByFees != "none" {
        params := params["sortByFees" := Text(sortByFees)];
      }
    }

    method ChangePage(newPage: nat)
      modifies this
      ensures page == newPage
      ensures rowsPerPage == old(rowsPerPage) && searchTerm == old(searchTerm) && classFilter == old(classFilter)
      ensures feeStatusFilter == old(feeStatusFilter) && sortByFees == old(sortByFees)
      ensures filterDialogOpen == old(filterDialogOpen)
    {
      page := newPage;
    }

    /** A new page size starts again from the first page. */
    method ChangeRowsPerPage(rows: int)
      modifies this
      ensures rowsPerPage == rows && page == 0
      ensures searchTerm == old(searchTerm) && classFilter == old(classFilter)
      ensures feeStatusFilter == old(feeStatusFilter) && sortByFees == old(sortByFees)
      ensures filterDialogOpen == old(filterDialogOpen)
    {
      rowsPerPage := rows;
      page := 0;
    }

    /** A new search text starts again from the first page. */
    method SearchChanged(text: string)
      modifies this
      ensures searchTerm == text && page == 0
      ensures rowsPerPage == old(rowsPerPage) && classFilter == old(classFilter)
      ensures feeStatusFilter == old(feeStatusFilter) && sortByFees == old(sortByFees)
      ensures filterDialogOpen == old(filterDialogOpen)
    {
      searchTerm := text;
      page := 0;
    }

    /** A new class filter starts again from the first page. */
    method ClassFilterChanged(cls: string)
      modifies this
      ensures classFilter == cls && page == 0
      ensures rowsPerPage == old(rowsPerPage) && searchTerm == old(searchTerm)
      ensures feeStatusFilter == old(feeStatusFilter) && sortByFees == old(sortByFees)
      ensures filterDialogOpen == old(filterDialogOpen)
    {
      classFilter := cls;
      page := 0;
    }

    /** The fee-status select of the filter dialog takes effect at once, on the current page. */
    method FeeStatusChanged(status: string)
      modifies this
      ensures feeStatusFilter == status
      ensures page == old(page) && rowsPerPage == old(rowsPerPage) && searchTerm == old(searchTerm)
      ensures classFilter == old(classFilter) && sortByFees == old(sortByFees)
      ensures filterDialogOpen == old(filterDialogOpen)
    {
      feeStatusFilter := status;
    }

    /** The fee-sort select of the filter dialog takes effect at once, on the current page. */
    method SortChanged(sort: string)
      modifies this
      ensures sortByFees == sort
      ensures page == old(page) && rowsPerPage == old(rowsPerPage) && searchTerm == old(searchTerm)
      ensures classFilter == old(classFilter) && feeStatusFilter == old(feeStatusFilter)
      ensures filterDialogOpen == old(filterDialogOpen)
    {
      sortByFees := sort;
    }

    method OpenFilters()
      modifies this
      ensures filterDialogOpen
      ensures page == old(page) && rowsPerPage == old(rowsPerPage) && searchTerm == old(searchTerm)
      ensures classFilter == old(classFilter) && feeStatusFilter == old(feeStatusFilter) && sortByFees == old(sortByFees)
    {
      filterDialogOpen := true;
    }

    /** Apply goes back to the first page and closes the dialog. */
    method ApplyFilters()
      modifies this
      ensures page == 0 && !filterDialogOpen
      ensures rowsPerPage == old(rowsPerPage) && searchTerm == old(searchTerm)
      ensures classFilter == old(classFilter) && feeStatusFilter == old(feeStatusFilter) && sortByFees == old(sortByFees)
    {
      page := 0;
      filterDialogOpen := false;
    }

    /** Clear resets the fee filters and the page; the search text and the class filter stay. */
    method ClearFilters()
      modifies this
      ensures feeStatusFilter == "all" && sortByFees == "none" && page == 0
      ensures rowsPerPage == old(rowsPerPage) && searchTerm == old(searchTerm) && classFilter == old(classFilter)
      ensures filterDialogOpen == old(filterDialogOpen)
    {
      feeStatusFilter := "all";
      sortByFees := "none";
      page := 0;
    }
  }

  /** After clearing, the request carries no fee filter and no fee sort. */
  lemma ClearedRequest(page: nat, rowsPerPage: int, search: string, classFilter: string)
    ensures var p := RequestParams(page, rowsPerPage, search, classFilter, "all", "none");
            "feeStatus" !in p && "sortByFees" !in p
  {
    ParamsPresent(page, rowsPerPage, search, classFilter, "all", "none");
  }

  // ---------------------------------------------------------------------
  // The fee-status chip
  // ---------------------------------------------------------------------

  datatype Chip = PaidChip | PendingChip | AdvanceChip

  /** `balance === 0` is Paid, `balance > 0` Pending, anything else (a missing balance too) Advance. */
  function BalanceChip(balance: Option<int>): (c: Chip)
    ensures c == PaidChip <==> balance == Some(0)
    ensures c == PendingChip <==> balance.Some? && balance.value > 0
    ensures c == AdvanceChip <==> balance.None? || balance.value < 0
  {
    if balance == Some(0) then PaidChip
    else if balance.Some? && balance.value > 0 then PendingChip
    else AdvanceChip
  }

  /** The balance column: `Math.abs(balance || 0)`. */
  function BalanceShown(balance: Option<int>): (shown: nat)
    ensures balance.None? ==> shown == 0
  {
    var b := balance.GetOr(0);
    if b < 0 then -b else b
  }

  /** Chip and amount together recover a recorded balance: the chip gives the sign, the column the size. */
  lemma ChipAndAmountRecoverBalance(b: int)
    ensures b == match BalanceChip(Some(b))
                 case PaidChip => 0
                 case PendingChip => BalanceShown(Some(b)) as int
                 case AdvanceChip => -(BalanceShown(Some(b)) as int)
  {
  }

  /** A student shows the Pending chip exactly when the defaulter query lists them. */
  lemma PendingChipIsDefaulter(students: map<FeeModel.StudentId, Student>, id: FeeModel.StudentId)
    requires id in students
    ensures BalanceChip(Some(students[id].fee.balance)) == PendingChip <==> id in FeeLedger.Defaulters(students)
  {
  }
}
