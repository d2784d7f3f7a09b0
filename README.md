# Alfitra Fees — a verified model of the fee ledger

Alfitra Fees is a school fee-management application. It has an Express/Mongoose back end and a React front end. This project models in Dafny the part of it that keeps the books:

- **the student fee record.** The `fee` sub-document of a student, with its defaults and the pre-save hook that derives `totalFee` and `balance`.
- **payments.** The schema, the receipt-numbering pre-save hook, and the post-save hook that re-aggregates the student's `paidAmount`.
- **the fee and student controllers.** The model has one store, `FeeLedger.FeeStore`. It holds a map of students and a sequence of payments. Each request handler is a method on the store. The handlers cover:
  - create, edit and delete payment;
  - date-range query and summary;
  - create, get, update and delete student;
  - defaulters;
  - year-end promotion;
  - class fees.
- **the query middleware.** This middleware builds every list query. It strips reserved keys and rewrites operator words. It maps `feeStatus` to a balance predicate, picks a sort by precedence, and computes the pagination links.
- **front-end logic with no rendering:**
  - the formatting helpers;
  - the student form's validators, fee handlers and three-step wizard;
  - the dashboard's totals, monthly buckets and promotion confirmation gate;
  - the student list's request parameters, filter state and balance chip.

Modules follow the source files. The modules and what they cover:

| module | covers |
|---|---|
| `Wrappers` | `Option`/`Result` |
| `Text` | decimal rendering and `parseInt`, whitespace trimming, digit stripping, upper-casing |
| `StudentModel` | `backend/models/Student.js` |
| `FeeModel` | `backend/models/Fee.js` |
| `FeeLedger` | `backend/controllers/fees.js` and `backend/controllers/students.js` |
| `AdvancedResults` | `backend/middleware/advancedResults.js` |
| `FormatUtils` | `frontend/src/utils/formatUtils.js` |
| `StudentForm` | `frontend/src/components/students/StudentForm.js` |
| `Dashboard` | `frontend/src/components/dashboard/Dashboard.js` |
| `StudentList` | `frontend/src/components/students/StudentList.js` |

**Modelling conventions:**
- **Amounts** are whole rupees (`int`).
- **Dates** are integers supplied by the caller. The clock, the current year and month, and the caller's identity are all parameters.
- **The receipt counter** is the store's `receiptCounter` field.
- **Balance formulas.** The application has three different balance formulas, and the model keeps them apart:
  - the student hook: `totalFee − concession − paidAmount`;
  - the payment hooks: `totalFee − paidAmount`;
  - the form's live edits: a `totalFee` that includes arrears.

  Lemmas state where these formulas agree:
  - `FeeModel.BalanceFormulasAgree`;
  - `StudentForm.LiveExceedsSubmitByArrears`;
  - `Dashboard.PendingCoversBalances`.

**Three behaviours of the code worth knowing before reading the model:**
- Editing and deleting a payment write to `student.fees.*` (`backend/controllers/fees.js:140-143` and `:185-187`), a field the student schema does not have, so neither re-aggregates the student's `paidAmount` (see Findings).
- The payment hooks compute `balance = totalFee − paidAmount` (`backend/models/Fee.js:112-116`), while the student hook subtracts the concession as well (`backend/models/Student.js:195-199`).
- The only search key the query layer reads is `q` (`backend/middleware/advancedResults.js:38`); `search` is among the deleted keys (`:11`) and is never read.

## Model

| member | source | states |
|---|---|---|
| Text.NatToString | backend/models/Fee.js:92 | the rendering of a receipt sequence number is a non-empty string of decimal digits with no leading zero |
| Text.DecimalRoundTrip | backend/models/Fee.js:91-92 | reading the decimal rendering of n back gives n |
| Text.NatToStringInjective | backend/models/Fee.js:10-13 | distinct sequence numbers give distinct receipt strings, so counter values never collide on the unique index |
| Text.ParseIntOfNatToString | backend/middleware/advancedResults.js:71-72 | `parseInt` of a rendered natural number returns that number |
| Text.TrimStartRemovesLeadingSpace | backend/models/Student.js:8 | trimming the start removes exactly the leading whitespace and keeps a suffix |
| Text.TrimEndRemovesTrailingSpace | backend/models/Student.js:8 | trimming the end removes exactly the trailing whitespace and keeps a prefix |
| Text.TrimIdempotent | backend/models/Student.js:8 | trimming an already trimmed string changes nothing |
| Text.DigitsAppend | frontend/src/utils/formatUtils.js:95 | stripping non-digits distributes over concatenation |
| Text.ToUpper | frontend/src/components/dashboard/Dashboard.js:513 | upper-casing keeps the length and maps each character through the ASCII case shift |
| StudentModel.ParseStatus | backend/models/Student.js:177-181 | an absent status defaults to active |
| StudentModel.ParseStatusExact | backend/models/Student.js:179 | a status string is accepted as a given status iff it is exactly that status's name |
| StudentModel.WithTotals | backend/models/Student.js:195-199 | totalFee becomes the sum of the four category fees, with arrears excluded; balance + concession + paidAmount equals that sum; no other field changes |
| StudentModel.WithTotalsFixpoint | backend/models/Student.js:193-201 | the hook changes a record iff its totals are inconsistent, its result is always consistent, and running it twice equals running it once |
| StudentModel.WithTotalsIgnoresArrears | backend/models/Student.js:195-199 | changing arrears changes neither the derived totalFee nor the derived balance |
| StudentModel.DefaultsThenTotals | backend/models/Student.js:138-149 | a saved fee record counts every missing charge as 0, replaces any sent totalFee and balance by the derived ones, and keeps arrears as sent or 0 |
| StudentModel.NoFeeInputOwesNothing | backend/models/Student.js:138-149 | a student sent with no charges, concession or payment is saved with totalFee and balance 0 |
| StudentModel.StudentDocument.PreSave | backend/models/Student.js:193-201 | the hook replaces the fee record by its derived totals and leaves it consistent |
| StudentModel.BuildStudent | backend/models/Student.js:5-181 | a new student passes validation iff the required names, roll number, phone and class are present and the status is in the enum; the fee record gets its defaults and the roll number is trimmed |
| FeeModel.ParseCategoryExact | backend/models/Fee.js:48-52 | an item category is accepted iff it is exactly one of the six enum names |
| FeeModel.ParsePaymentMode | backend/models/Fee.js:22-26 | an absent payment mode defaults to Cash |
| FeeModel.ParsePaymentModeExact | backend/models/Fee.js:24 | a payment mode is accepted iff it is exactly one of Cash, Cheque, Bank Transfer, UPI or Other |
| FeeModel.ValidatePayer | backend/models/Fee.js:31-46 | a payer is accepted iff the trimmed name is non-empty and the relation is one of Father, Mother, Guardian or Other |
| FeeModel.ValidateItems | backend/models/Fee.js:47-62 | an item list is accepted iff every item has an enum category and an amount of at least 1; items are kept in order |
| FeeModel.ValidatedItemsWellFormed | backend/models/Fee.js:47-62 | an accepted item list satisfies the stored-item invariant |
| FeeModel.ValidatedTotal | backend/controllers/fees.js:65 | the total of the accepted items equals the sum of the requested amounts |
| FeeModel.ItemsTotalAtLeastCount | backend/models/Fee.js:60 | a well-formed item list totals at least its length, so a payment with items is never zero |
| FeeModel.PaidSumAppend | backend/models/Fee.js:105-106 | a student's paid sum distributes over concatenation of payment lists |
| FeeModel.PaidSumRemove | backend/controllers/fees.js:174-183 | removing a payment lowers each student's paid sum by exactly that payment's contribution |
| FeeModel.PaidSumReplace | backend/controllers/fees.js:125-138 | replacing a payment changes the paid sum by the new contribution minus the old one |
| FeeModel.PaidSumAppendOther | backend/models/Fee.js:105 | a payment for another student does not change this student's paid sum |
| FeeModel.PaidSumNone | backend/models/Fee.js:105-106 | a student with no payments has paid sum 0 |
| FeeModel.WithPaid | backend/models/Fee.js:112-116 | the post-save write sets paidAmount and makes balance = totalFee − paidAmount, changing nothing else |
| FeeModel.WithPaidIdempotent | backend/models/Fee.js:101-117 | writing the same paid amount twice equals writing it once |
| FeeModel.BalanceFormulasAgree | backend/models/Fee.js:114 | the payment hook's balance equals the student hook's balance iff the concession is 0 |
| FeeModel.Stamped | backend/models/Fee.js:87-98 | the pre-save hook sets the receipt to the rendered sequence number and replaces a zero total by the item sum; nothing else changes |
| FeeModel.FeeDocument.PreSave | backend/models/Fee.js:87-98 | only a new document is stamped; re-saving keeps the existing receipt number |
| FeeModel.FreshReceipt | backend/models/Fee.js:91-92 | a receipt issued at or below the counter differs from the counter's next value |
| FeeLedger.SynthesisedItem | backend/controllers/fees.js:54-62 | with no items and a non-zero amount, exactly one item is synthesised, with the category picked by feeType and the amount given; it validates iff the amount is at least 1 |
| FeeLedger.ExplicitItemsWin | backend/controllers/fees.js:54 | explicit items are used as sent |
| FeeLedger.AcademicYear | backend/controllers/fees.js:73 | the academic year is the sent year when non-empty, else the current calendar year |
| FeeLedger.NewPaymentFacts | backend/controllers/fees.js:65-75 | a created payment has the student, creator, next receipt, validated items, item-sum total, balance-after = old balance − total, academic year, date and mode the request determines |
| FeeLedger.Authorize | backend/controllers/fees.js:110-117 | an edit or delete is allowed iff the caller created the payment or is an admin; otherwise 401; a payment with no creator throws (500) |
| FeeLedger.FindFee | backend/controllers/fees.js:101 | the lookup returns the first payment with the id, or none when no payment has it |
| FeeLedger.PatchedTotal | backend/controllers/fees.js:119-127 | an edit recomputes totalAmount from the items only when items are sent and otherwise takes a sent total unchecked; the id never changes; a patch setting neither items, total nor student keeps the owner and the total; a patch without a receipt keeps the receipt |
| FeeLedger.EditLeavesPaidStale | backend/controllers/fees.js:140-143 | after an edit that changes a payment's total, the student's stored paidAmount no longer equals the paid sum |
| FeeLedger.MoveLeavesOldOwnerStale | backend/controllers/fees.js:125-132 | moving a non-zero payment to another student and re-aggregating only the new owner leaves the old owner's paidAmount counting a payment it no longer has |
| FeeLedger.ReplaceKeepsOtherSums | backend/controllers/fees.js:125 | replacing a payment changes no paid sum except its old and new owner's, and none at all when owner and total are kept |
| FeeLedger.DeleteLeavesPaidStale | backend/controllers/fees.js:185-187 | after deleting a non-zero payment, the student's stored paidAmount no longer equals the paid sum |
| FeeLedger.Resynced | backend/models/Fee.js:112-116 | re-aggregation sets paidAmount, makes balance = totalFee − paidAmount, and keeps totalFee, concession, arrears and the category fees |
| FeeLedger.ResyncedTwice | backend/controllers/fees.js:78-89 | re-aggregating twice, as create does, gives the same record as once |
| FeeLedger.PromoteAllEffect | backend/controllers/students.js:152-171 | promotion touches only students with balance > 0: it adds the balance to arrears and zeroes balance, paid, total, concession and the category fees; arrears never decrease and arrears + balance is preserved |
| FeeLedger.PromoteAllTwice | backend/controllers/students.js:152-175 | after a promotion nobody is a defaulter, and a second promotion changes nothing |
| FeeLedger.SumsStep | backend/controllers/fees.js:256-264 | the summary's sums over students split off any one student |
| FeeLedger.FeesInRange | backend/controllers/fees.js:223-227 | the range query keeps exactly the payments dated between the bounds, both inclusive |
| FeeLedger.ReceiptsUnique | backend/models/Fee.js:10-13 | in a valid store no two payments share a receipt number or an id |
| FeeLedger.FeesValidAppend | backend/models/Fee.js:10-13 | appending a payment under the next id, for an issued student, whose receipt number no stored payment holds keeps receipts and ids unique |
| FeeLedger.FeesValidReplace | backend/models/Fee.js:10-13 | replacing a payment by one with the same id, an issued student and a receipt number no other payment holds keeps receipts and ids unique |
| FeeLedger.NextReceiptFree | backend/models/Fee.js:87-98 | while every stored receipt number came from the counter, the counter's next value is held by no payment |
| FeeLedger.ReceiptsIssuedAppend | backend/models/Fee.js:87-98 | storing a payment under the counter's next value keeps every receipt number one the counter issued |
| FeeLedger.ReceiptsIssuedKept | backend/controllers/fees.js:125-128 | an edit that keeps the receipt number, and any delete, keep every receipt number one the counter issued |
| FeeLedger.StudentsValidInsert | backend/models/Student.js:72-77 | inserting a student with a fresh roll number keeps roll numbers unique |
| FeeLedger.StudentsValidPromote | backend/controllers/students.js:152-175 | promotion keeps the student invariant |
| FeeLedger.Created | backend/controllers/students.js:35-51 | creating a student fails validation when a required field is missing, fails on a duplicate roll number iff one exists, and otherwise yields a student whose roll number is free |
| FeeLedger.CreatedStudent | backend/models/Student.js:138-149 | a created student has the defaulted fee record with totals derived by the save hook |
| FeeLedger.EmptyPatchKeepsStudent | backend/controllers/students.js:65-68 | an empty update body passes the validators and stores the student unchanged |
| FeeLedger.StudentPatchIdempotent | backend/controllers/students.js:65-68 | sending the same update twice stores the same student as sending it once |
| FeeLedger.StudentPatchedTrimmed | backend/models/Student.js:72-76 | an updated name or roll number is stored trimmed, and a roll number not sent is kept |
| FeeLedger.FeeStore.CreateStudent | backend/controllers/students.js:35-51 | a rejected student leaves the store unchanged; an accepted one is added under a fresh id with its derived fee record |
| FeeLedger.FeeStore.Insert | backend/controllers/students.js:43 | a student is stored under an id not used before, and no other student changes |
| FeeLedger.FeeStore.GetStudent | backend/controllers/students.js:17-30 | an unknown id gives 404; a known one returns the stored student |
| FeeLedger.FeeStore.UpdateStudent | backend/controllers/students.js:56-71 | an unknown id gives 404 with no change; a patch failing the validators of the fields it sets gives 400, and a roll number another student holds a duplicate key, both with no change; otherwise only that student changes, to the patch with its text fields trimmed and a sent fee record stored as sent, no save hook run |
| FeeLedger.FeeStore.DeleteStudent | backend/controllers/students.js:76-88 | an unknown id gives 404 with no change; otherwise exactly that student is removed |
| FeeLedger.FeeStore.UpdateClassFees | backend/controllers/students.js:138-146 | the body is echoed and the store is untouched |
| FeeLedger.FeeStore.GetFeeDefaulters | backend/controllers/students.js:106-114 | returns exactly the students with balance > 0 and their count |
| FeeLedger.FeeStore.PromoteAllStudents | backend/controllers/students.js:151-182 | the students become the promotion of the old map, and the count equals the number of defaulters before the call |
| FeeLedger.FeeStore.SyncPaidAmount | backend/models/Fee.js:101-117 | the post-save hook puts the student's paid sum in paidAmount and only that student changes |
| FeeLedger.FeeStore.InsertFee | backend/models/Fee.js:87-117 | saving advances the counter even when the insert then fails; the unique index refuses a receipt number already stored with a duplicate key and no other change; otherwise the payment is appended under the next id and its student re-aggregated; while every receipt came from the counter the insert always succeeds and keeps that so |
| FeeLedger.FeeStore.CreateFee | backend/controllers/fees.js:39-95 | an unknown student gives 404 before any write; a request with neither items nor an amount gives 500; an invalid item, mode or payer writes nothing; a duplicate receipt leaves only the counter advanced and cannot happen while every receipt came from the counter; success appends the new payment and re-aggregates the student, whose paidAmount grows by exactly the payment's total |
| FeeLedger.FeeStore.InsertAndResync | backend/controllers/fees.js:75-89 | a refused insert changes nothing but the counter; after a stored one the second re-aggregation leaves the student's paidAmount grown by the payment's total |
| FeeLedger.EditRefusal | backend/controllers/fees.js:109-127 | an edit is refused by the owner check first (401, or 500 without a creator), then by the validators of the fields sent (400), then by the unique receipt index iff another payment holds the resulting receipt number |
| FeeLedger.FeeStore.CommitPatch | backend/controllers/fees.js:125-128 | the update replaces exactly the edited payment by the patched one, owner, receipt and creator included, and keeps the store invariant |
| FeeLedger.FeeStore.UpdateFee | backend/controllers/fees.js:100-148 | as written: 404 for an unknown id and every refusal of `EditRefusal` change nothing; otherwise the patch is committed, the students are never updated, and a patch with items answers 500 |
| FeeLedger.FeeStore.UpdateFeeReconciled | backend/controllers/fees.js:100-148 | corrected edit: refusals as in `UpdateFee`; a patch that moves money (items, total or owner) re-aggregates the old and the new owner; one that does not leaves the students unchanged; every student whose paidAmount matched its payments before still does |
| FeeLedger.Reaggregated | backend/models/Fee.js:105-116 | re-aggregating a set of owners gives each of them paidAmount equal to its paid sum and changes no other student |
| FeeLedger.ReaggregateTwo | backend/controllers/fees.js:131-143 | re-aggregating the old owner and then the new one equals re-aggregating both, also when they are the same student |
| FeeLedger.EditKeepsSync | backend/controllers/fees.js:125-143 | after an edit, re-aggregating both owners when money moves, and nobody otherwise, keeps every in-sync student in sync |
| FeeLedger.FeeStore.ResyncOwners | backend/controllers/fees.js:131-143 | the old and the new owner are re-aggregated, each if it exists, and no other student changes |
| FeeLedger.FeeStore.DeleteFee | backend/controllers/fees.js:153-191 | as written: 404 and 401 change nothing; otherwise the payment is removed, the students are untouched and the handler fails (500) |
| FeeLedger.FeeStore.DeleteFeeReconciled | backend/controllers/fees.js:153-191 | corrected delete: the owning student is re-aggregated and its paidAmount drops by exactly the removed total |
| FeeLedger.FeeStore.GetFeesByDateRange | backend/controllers/fees.js:214-238 | a missing bound gives 400; otherwise exactly the payments dated within both bounds, inclusive |
| FeeLedger.FeeStore.GetFeeSummary | backend/controllers/fees.js:243-280 | collected = sum of payment totals, count = number of payments, pending = sum of signed balances, expected = sum of totalFee; all 0 on an empty store |
| AdvancedResults.WordPrefix | backend/middleware/advancedResults.js:20 | the leading word of a string is its longest prefix of word characters |
| AdvancedResults.RestoreRewrite | backend/middleware/advancedResults.js:17-20 | removing the `$` prefixes undoes the operator rewrite, for every string |
| AdvancedResults.RewriteInjective | backend/middleware/advancedResults.js:17-20 | the operator rewrite never merges two different queries |
| AdvancedResults.RewriteSplit | backend/middleware/advancedResults.js:20 | the rewrite acts word by word: it distributes over a split at any non-word character |
| AdvancedResults.RewriteWord | backend/middleware/advancedResults.js:20 | a whole word gets a `$` prefix iff it is gt, gte, lt, lte or in |
| AdvancedResults.RewriteEntries | backend/middleware/advancedResults.js:17-23 | rewriting a nested operator object rewrites every key and value and loses no entry |
| AdvancedResults.Rewritten | backend/middleware/advancedResults.js:17-23 | every query key survives the rewrite with its condition, under its rewritten name |
| AdvancedResults.CommasToSpaces | backend/middleware/advancedResults.js:50-53 | a select or sort list has each comma replaced by a space, and nothing else changes |
| AdvancedResults.Links | backend/middleware/advancedResults.js:99-120 | count is the total; next exists iff page·limit < total and points to page+1; prev exists iff (page−1)·limit > 0 and points to page−1 |
| AdvancedResults.StripReserved | backend/middleware/advancedResults.js:11-14 | the reserved keys are deleted and every other key keeps its value |
| AdvancedResults.FilterOfCases | backend/middleware/advancedResults.js:29-35 | a feeStatus condition overrides any fee.balance key; otherwise the filter is the rewritten stripped query |
| AdvancedResults.BuildFilter | backend/middleware/advancedResults.js:14-35 | deleting the reserved keys, rewriting operators and adding the fee-status condition yields `FilterOf`, about which the lemmas below state what is and is not filtered |
| AdvancedResults.Paginate | backend/middleware/advancedResults.js:99-113 | the pagination object built field by field equals `Links`: next iff page·limit < total, prev iff (page−1)·limit > 0 |
| AdvancedResults.Run | backend/middleware/advancedResults.js:11-120 | a non-text select, sort or q fails the request; otherwise the plan has the filter, search, projection, sort, skip (page−1)·limit and limit, and the response has the links |
| AdvancedResults.ReservedNeverFiltered | backend/middleware/advancedResults.js:11-14 | no reserved key becomes an equality filter |
| AdvancedResults.OtherKeysKept | backend/middleware/advancedResults.js:14-23 | every other key becomes a filter on its rewritten name with its rewritten value |
| AdvancedResults.SearchKeyIgnored | backend/middleware/advancedResults.js:11 | the `search` key changes nothing in the filter |
| AdvancedResults.SearchKeyIgnored2 | backend/middleware/advancedResults.js:11 | the `search` key changes neither search, sort, projection nor pagination |
| AdvancedResults.FeeStatusSelectsDefaulters | backend/middleware/advancedResults.js:29-35 | feeStatus=pending adds a balance > 0 condition, which selects exactly the defaulters; completed adds balance ≤ 0, which selects exactly the others; any other value adds nothing |
| AdvancedResults.FeeStatusPartitions | backend/middleware/advancedResults.js:29-35 | the pending and completed selections are disjoint and together cover every student |
| AdvancedResults.FeeStatusOnlyForStudents | backend/middleware/advancedResults.js:29-45 | for any other model, neither feeStatus nor q has an effect |
| AdvancedResults.SearchFieldsCovered | backend/middleware/advancedResults.js:38-45 | a non-empty q searches firstName, lastName, rollNumber and phoneNumber |
| AdvancedResults.SortPrecedence | backend/middleware/advancedResults.js:56-68 | for students a truthy sortByFees wins over sort; desc and asc sort by balance, and any other value applies no sort |
| AdvancedResults.DefaultSort | backend/middleware/advancedResults.js:66-67 | with neither key the sort is -createdAt |
| AdvancedResults.CommasToSpacesSplit | backend/middleware/advancedResults.js:51 | a comma-separated field list becomes a space-separated one |
| AdvancedResults.PageDefaults | backend/middleware/advancedResults.js:71-72 | page and limit are never 0; they default to 1 and 25, and page=0 reads as 1 |
| AdvancedResults.PageOfDecimal | backend/middleware/advancedResults.js:71-72 | positive page and limit sent as decimals are read back exactly |
| AdvancedResults.EveryIndexOnOnePage | backend/middleware/advancedResults.js:73-80 | with a positive limit, each result index lies in the skip/limit window of exactly one page |
| AdvancedResults.LinksMeaning | backend/middleware/advancedResults.js:99-113 | prev exists iff page > 1; next exists iff the last result lies on a later page |
| FormatUtils.TruncateText | frontend/src/utils/formatUtils.js:63-67 | falsy text gives ''; text within the limit (50 when none is given) is unchanged; longer text keeps its first limit characters plus '...', length limit+3 |
| FormatUtils.TruncateKeepsPrefix | frontend/src/utils/formatUtils.js:63-67 | the result is the text itself or a prefix of it followed by '...', and with the default limit at most 53 characters |
| FormatUtils.FormatPhoneNumber | frontend/src/utils/formatUtils.js:92-104 | falsy gives ''; exactly ten digits give "+91 " + first five + " " + last five; anything else is returned unchanged |
| FormatUtils.FormattedPhoneDigits | frontend/src/utils/formatUtils.js:95-99 | a formatted number's digits are 91 followed by the original digits |
| FormatUtils.FormatPhoneIdempotent | frontend/src/utils/formatUtils.js:92-104 | formatting an already formatted number changes nothing |
| FormatUtils.FormatStudentName | frontend/src/utils/formatUtils.js:122-136 | a missing student gives ''; otherwise the trimmed first name, middle initial with '.', and last name |
| FormatUtils.StudentNameShape | frontend/src/utils/formatUtils.js:125-135 | with all three parts present the name reads "First M. Last" |
| FormatUtils.StudentNameWithoutMiddle | frontend/src/utils/formatUtils.js:125-135 | without a middle name it reads "First Last", or "First" alone |
| FormatUtils.Present | frontend/src/utils/formatUtils.js:146-154 | the kept parts are exactly the non-empty ones, in order |
| FormatUtils.PresentEmpty | frontend/src/utils/formatUtils.js:146-156 | nothing is kept iff every part is missing or empty |
| FormatUtils.FormatAddress | frontend/src/utils/formatUtils.js:143-157 | a missing address gives 'N/A'; otherwise the present parts joined by ", ", or 'N/A' |
| FormatUtils.FormatAddressMeaning | frontend/src/utils/formatUtils.js:143-157 | the result is 'N/A' iff every part is empty (or the lone part is literally N/A) |
| FormatUtils.AcademicYearSpansNewYear | frontend/src/utils/formatUtils.js:163-172 | July to December and the following January to June share one label |
| FormatUtils.AcademicYearLabelInjective | frontend/src/utils/formatUtils.js:171 | different start years give different labels |
| FormatUtils.PadWithZeros | frontend/src/utils/formatUtils.js:180-184 | the result ends with the input, has length max(len, size), is prefixed only by zeros, and never truncates |
| FormatUtils.PaddedNumberValue | frontend/src/utils/formatUtils.js:180-184 | a zero-padded number parses back to the number |
| StudentForm.PincodeIsSixDigitNumber | frontend/src/components/students/StudentForm.js:69 | a pincode is valid iff it is six digits whose value lies in 100000..999999 |
| StudentForm.PhoneValidFormats | frontend/src/components/students/StudentForm.js:56-62 | every phone the form accepts is shown formatted by the display helper |
| StudentForm.RequiredErrors | frontend/src/components/students/StudentForm.js:536-546 | exactly the missing required fields get an error, each with its "… is required" message |
| StudentForm.RequiredErrorsEmpty | frontend/src/components/students/StudentForm.js:536-546 | no error iff no listed field is missing |
| StudentForm.PersonalFieldsPresent | frontend/src/components/students/StudentForm.js:531-535 | step 0's required list is the nine personal fields |
| StudentForm.AcademicFieldsPresent | frontend/src/components/students/StudentForm.js:559-566 | step 1's required list is the five academic fields |
| StudentForm.Step0ErrorsEmpty | frontend/src/components/students/StudentForm.js:531-553 | step 0 has no errors iff its fields are present and the phone and pincode formats hold |
| StudentForm.Step1ErrorsEmpty | frontend/src/components/students/StudentForm.js:559-566 | step 1 has no errors iff its five fields are present |
| StudentForm.StepValidIffNoErrors | frontend/src/components/students/StudentForm.js:524-584 | each step is valid iff its error map is empty; step 2 requires only a non-zero tuition fee |
| StudentForm.StepErrorsNameFields | frontend/src/components/students/StudentForm.js:536-546 | a missing required field always appears among the step's errors |
| StudentForm.CheckRequired | frontend/src/components/students/StudentForm.js:536-546 | the checking loop yields exactly the missing fields' messages and reports valid iff no listed field is missing |
| StudentForm.FieldInput | frontend/src/components/students/StudentForm.js:604 | unparseable input reads as 0 |
| StudentForm.FieldInputOfNumeral | frontend/src/components/students/StudentForm.js:604 | a typed whole number reads as itself |
| StudentForm.FeeChanged | frontend/src/components/students/StudentForm.js:603-623 | only the edited fee changes; totalFee becomes the four fees plus arrears and balance = totalFee − concession − paidAmount |
| StudentForm.ConcessionChanged | frontend/src/components/students/StudentForm.js:626-646 | a concession above the fees plus arrears is refused; otherwise only concession and balance change, never totalFee |
| StudentForm.PaidChanged | frontend/src/components/students/StudentForm.js:1532-1555 | only paidAmount and balance change, and overpayment is flagged iff paid exceeds fees plus arrears minus concession |
| StudentForm.SubmitFee | frontend/src/components/students/StudentForm.js:290-300 | submit rewrites only totalFee and balance |
| StudentForm.SubmitAgreesWithPreSave | frontend/src/components/students/StudentForm.js:290-292 | the submitted totals are exactly the server save hook's totals |
| StudentForm.LiveExceedsSubmitByArrears | frontend/src/components/students/StudentForm.js:607-616 | after a live edit, totalFee and balance exceed the submitted ones by exactly the arrears |
| StudentForm.FeeChangedIdempotent | frontend/src/components/students/StudentForm.js:603-623 | entering the same value twice equals entering it once |
| StudentForm.SchemaConcessionAccepted | frontend/src/components/students/StudentForm.js:106-116 | a concession the schema allows is never refused by the handler when arrears are non-negative |
| StudentForm.ConcessionAgainstArrearsRefusedOnSubmit | frontend/src/components/students/StudentForm.js:106-116 | a concession covered only by arrears passes the handler but fails the schema |
| StudentForm.SchemaBoundsSubmittedBalance | frontend/src/components/students/StudentForm.js:106-116 | for a schema-valid record, the submitted balance plus paid lies between 0 and totalFee |
| StudentForm.ClassChanged | frontend/src/components/students/StudentForm.js:155-193 | a class in the table replaces tuition and admission and recomputes the totals; otherwise only the class changes |
| StudentForm.FallbackClassPassesFeeStep | frontend/src/components/students/StudentForm.js:407-420 | any class of the built-in table leaves step 2 valid and sets admission to 5000 |
| StudentForm.ClassThenFeeConsistent | frontend/src/components/students/StudentForm.js:168-178 | after a class change and a fee edit, the totals follow the live formula |
| StudentForm.SubmittedData | frontend/src/components/students/StudentForm.js:290-300 | only the fee record changes, its totals are consistent, and totalFee excludes arrears |
| StudentForm.SchemaCoversSteps | frontend/src/components/students/StudentForm.js:44-118 | a schema-valid form passes the step 0 and step 1 checks |
| StudentForm.SchemaAllowsZeroTuition | frontend/src/components/students/StudentForm.js:573-579 | the schema accepts zero tuition, which the step 2 check refuses |
| StudentForm.SentOnlyAtFinalStep | frontend/src/components/students/StudentForm.js:278-283 | data is sent only at step 2 with a valid schema, and it is the submitted data |
| StudentForm.SchemaErrors | frontend/src/components/students/StudentForm.js:44-118 | every recorded error is the schema's own message for that field |
| StudentForm.SchemaErrorsComplete | frontend/src/components/students/StudentForm.js:44-118 | a field is among the errors iff the schema fails it |
| StudentForm.SchemaErrorsEmptyIffValid | frontend/src/components/students/StudentForm.js:44-118 | the schema records no error iff the whole form is schema-valid |
| StudentForm.StepErrorsFlaggedBySchema | frontend/src/components/students/StudentForm.js:524-569 | every field the step 0 or step 1 check flags is also failed by the schema |
| StudentForm.Wizard.constructor | frontend/src/components/students/StudentForm.js:137 | the wizard starts at step 0 with the initial values and no errors |
| StudentForm.Wizard.Load | frontend/src/components/students/StudentForm.js:383 | loading a student replaces the values and re-validates them against the schema; the step and the banner are kept |
| StudentForm.Wizard.HandleNext | frontend/src/components/students/StudentForm.js:518-597 | the errors become the step's errors; the step advances iff the step is valid and below 2, so it stays in 0..2 |
| StudentForm.Wizard.BackClicked | frontend/src/components/students/StudentForm.js:514-516 | back moves one step down and never below 0 |
| StudentForm.Wizard.FeeFieldChanged | frontend/src/components/students/StudentForm.js:603-623 | the values take the fee handler's record and the errors become the schema errors of the new values |
| StudentForm.Wizard.ConcessionFieldChanged | frontend/src/components/students/StudentForm.js:626-646 | a refused concession records its error and keeps the values; an accepted one updates the record and the errors become the schema errors of the new values |
| StudentForm.Wizard.PaidFieldChanged | frontend/src/components/students/StudentForm.js:1532-1555 | the values take the new paid amount, the errors become the schema errors of the new values, and an overpayment banner appears iff flagged |
| StudentForm.Wizard.ClassSelected | frontend/src/components/students/StudentForm.js:155-193 | the values take the class handler's result and the errors become the schema errors of the new values |
| StudentForm.Wizard.Submit | frontend/src/components/students/StudentForm.js:268-301 | the errors become the schema errors; a form with any is rejected and keeps its banner; a valid one is sent only at step 2, with the submitted totals, and off step 2 a banner explains why |
| StudentForm.Wizard.SaveClicked | frontend/src/components/students/StudentForm.js:1870-1880 | at step 2 the save button submits, re-validating the schema; elsewhere it shows its notice and keeps the errors |
| StudentForm.Wizard.FormSubmitted | frontend/src/components/students/StudentForm.js:1805-1826 | a form submit event from the submit button at step 2 submits, re-validating the schema; otherwise it names the current step and keeps the errors |
| Dashboard.Views | frontend/src/components/dashboard/Dashboard.js:112 | each listed student is read with its paid amount and total fee |
| Dashboard.PendingSum | frontend/src/components/dashboard/Dashboard.js:115-118 | the pending total is never negative |
| Dashboard.Totals | frontend/src/components/dashboard/Dashboard.js:109-119 | the loop's totals are Σ paidAmount (missing as 0) and Σ max(0, totalFee − paidAmount) |
| Dashboard.PendingZeroIffSettled | frontend/src/components/dashboard/Dashboard.js:115-118 | the pending total is 0 iff no student owes anything |
| Dashboard.PendingCoversBalances | frontend/src/components/dashboard/Dashboard.js:115-118 | the dashboard's pending is at least the positive stored balances, and equal when no one has a concession |
| Dashboard.StudentListDefaults | frontend/src/components/dashboard/Dashboard.js:103 | an unparameterised student list is page 1 of 25 and its count is the full total |
| Dashboard.MonthsBack | frontend/src/components/dashboard/Dashboard.js:159-165 | going back i months gives a valid month exactly i months earlier |
| Dashboard.YearBorrow | frontend/src/components/dashboard/Dashboard.js:159-165 | going back past January borrows a year |
| Dashboard.Window | frontend/src/components/dashboard/Dashboard.js:159-165 | the window has six months: five back through the current one |
| Dashboard.WindowShape | frontend/src/components/dashboard/Dashboard.js:159-178 | the window ends at the current month, is consecutive, oldest first, and has no repeats |
| Dashboard.Series | frontend/src/components/dashboard/Dashboard.js:178 | the chart has six buckets |
| Dashboard.MonthlyCollection | frontend/src/components/dashboard/Dashboard.js:155-178 | the bucketing loops produce `Series`: six buckets, oldest first, each holding the total of its own month's payments |
| Dashboard.EmptyBuckets | frontend/src/components/dashboard/Dashboard.js:159-165 | the buckets start at zero, one per window month, labelled by month name |
| Dashboard.AddPayments | frontend/src/components/dashboard/Dashboard.js:168-176 | each bucket ends with the total of the payments dated in its month |
| Dashboard.BucketsAtMostPayments | frontend/src/components/dashboard/Dashboard.js:168-178 | the buckets sum to the payments inside the window, which is at most the total of all payments |
| Dashboard.PaymentInItsMonth | frontend/src/components/dashboard/Dashboard.js:168-176 | a payment counts in exactly its own month's bucket, or in none |
| Dashboard.Recent | frontend/src/components/dashboard/Dashboard.js:152 | the recent list is the first five fetched, or all when fewer |
| Dashboard.RecentStable | frontend/src/components/dashboard/Dashboard.js:152 | taking the recent list twice changes nothing, and later payments never enter it |
| Dashboard.PaymentsQueryNotFiltered | frontend/src/components/dashboard/Dashboard.js:147-150 | the `_sort` and `_limit` the dashboard sends are stripped, not used as filters |
| Dashboard.PaymentsQueryDefaults | frontend/src/components/dashboard/Dashboard.js:147-150 | the payments query falls back to page 1, limit 25 and sort -createdAt |
| Dashboard.PromoteDialog.constructor | frontend/src/components/dashboard/Dashboard.js:90-93 | the dialog starts closed with empty text |
| Dashboard.PromoteDialog.Open | frontend/src/components/dashboard/Dashboard.js:467 | opening keeps the typed text |
| Dashboard.PromoteDialog.Typed | frontend/src/components/dashboard/Dashboard.js:513 | typed text is stored upper-cased |
| Dashboard.PromoteDialog.PromoteAll | frontend/src/components/dashboard/Dashboard.js:192-219 | promotion is invoked iff the text is exactly PROMOTEALL; success reports the count, closes and clears the text |
| Dashboard.PromoteDialog.Close | frontend/src/components/dashboard/Dashboard.js:221-224 | closing clears the text |
| Dashboard.ConfirmedTexts | frontend/src/components/dashboard/Dashboard.js:193-199 | the accepted inputs are exactly PROMOTEALL with any letters in lower case |
| StudentList.ParamsPresent | frontend/src/components/students/StudentList.js:190-215 | page and limit are always sent; q only for a non-empty search; class only when not 'all'; feeStatus only for pending or completed; sortByFees only when not 'none' |
| StudentList.ParamsPageRoundTrip | frontend/src/components/students/StudentList.js:192-195 | the query layer reads page as the UI page + 1 and limit as rows per page, so it skips page·rows |
| StudentList.ParamsFeeStatus | frontend/src/components/students/StudentList.js:205-209 | the pending and completed filters reach the query layer as balance > 0 and balance ≤ 0 |
| StudentList.ParamsSearch | frontend/src/components/students/StudentList.js:197-199 | a non-empty search reaches the query layer as a search over the four fields |
| StudentList.ParamsSort | frontend/src/components/students/StudentList.js:211-215 | desc and asc reach the query layer as balance sorts; none leaves -createdAt |
| StudentList.ListState.constructor | frontend/src/components/students/StudentList.js:177-187 | the list starts on page 0 with 10 rows, no search and no filters |
| StudentList.ListState.FetchParams | frontend/src/components/students/StudentList.js:190-215 | the conditional assignments build `RequestParams`, whose keys and values the lemmas below relate to the query layer |
| StudentList.ListState.ChangePage | frontend/src/components/students/StudentList.js:254-256 | only the page changes |
| StudentList.ListState.ChangeRowsPerPage | frontend/src/components/students/StudentList.js:258-261 | rows per page change and the page resets to 0 |
| StudentList.ListState.SearchChanged | frontend/src/components/students/StudentList.js:263-266 | the search changes and the page resets to 0 |
| StudentList.ListState.ClassFilterChanged | frontend/src/components/students/StudentList.js:268-271 | the class filter changes and the page resets to 0 |
| StudentList.ListState.FeeStatusChanged | frontend/src/components/students/StudentList.js:609 | the fee-status filter changes and the page is kept |
| StudentList.ListState.SortChanged | frontend/src/components/students/StudentList.js:623 | the sort changes and the page is kept |
| StudentList.ListState.OpenFilters | frontend/src/components/students/StudentList.js:383 | only the filter dialog opens |
| StudentList.ListState.ApplyFilters | frontend/src/components/students/StudentList.js:299-302 | the page resets to 0 and the dialog closes |
| StudentList.ListState.ClearFilters | frontend/src/components/students/StudentList.js:304-308 | fee status becomes 'all', sort 'none' and page 0; search and class are kept |
| StudentList.ClearedRequest | frontend/src/components/students/StudentList.js:304-308 | after clearing, neither feeStatus nor sortByFees is sent |
| StudentList.BalanceChip | frontend/src/components/students/StudentList.js:491-497 | the chip is Paid iff the balance is 0, Pending iff it is positive, and Advance otherwise, including a missing balance |
| StudentList.BalanceShown | frontend/src/components/students/StudentList.js:499-500 | a missing balance shows as 0 |
| StudentList.ChipAndAmountRecoverBalance | frontend/src/components/students/StudentList.js:491-500 | for a present balance, the chip and the shown amount together determine the balance |
| StudentList.PendingChipIsDefaulter | frontend/src/components/students/StudentList.js:491-497 | a student shows Pending iff the server counts them as a defaulter |

## Left out

- I/O and the database engine are not modelled: HTTP, Express routing, Mongo queries and aggregations, `populate`, and the `$regex` engine. A search condition is kept as the list of (field, pattern) pairs it would try.
- The receipt `Counter` model is not part of this model; it is the store's `receiptCounter` field, advanced atomically.
- Concurrency is not modelled: there is no transaction between a payment write and its student write, and concurrent payments can race on re-aggregation.
- The clock, the calendar and time zones are inputs: "now", the current year and the (year, month) of a date are parameters. `toLocaleString` and `Intl` formatting are not modelled.
- StudentForm.FieldInput: `parseFloat` is modelled as whole-number parsing, so fractional amounts are not modelled.
- AdvancedResults.Run: the query is a flat map of text or one-level nested text values; JSON escaping and array parameters are not modelled; a negative page gives a negative skip, which Mongo would refuse.
- AdvancedResults.RewriteSplit: the rewrite is stated on whole words of the serialised text; the word boundary is ASCII letters, digits and `_`, as in JavaScript's `\b`.
- StudentModel.BuildStudent: only the fields the ledger and the list read are modelled (names, roll number, phone, class, status, fee). The other required personal fields, the email pattern and the image upload are left out.
- StudentModel.StudentDocument.PreSave: the `fee` sub-record always exists in the model, so the branch where it is absent is not modelled.
- FeeLedger.FeeStore.UpdateStudent: only the fields the ledger and the list read can be patched (names, roll number, phone, class, status, fee record); the other personal fields and their validators are not modelled, nor is a body that sets a field to null.
- FeeLedger.FeeStore.DeleteFee: `fee.remove()` is assumed to succeed.
- FeeLedger.FeeStore.UpdateFee: an edit body's `paymentDetails`, `createdAt` and `_id` are not modelled, `createdBy` can be replaced but not cleared to null, and a sent `paidBy` replaces the whole payer after being checked as a whole. A sent student id is not checked against the students, as in the code; the model counts it as an issued id so that no student created later receives it.
- FeeLedger.FeeStore.InsertFee: the counter and the unique index are checked one request at a time; two concurrent creations are not modelled.
- StudentForm.Wizard.Load: Formik validates asynchronously after each change; the model applies the schema's errors at once. The same holds for FeeFieldChanged, ConcessionFieldChanged, PaidFieldChanged, ClassSelected, Submit, SaveClicked and FormSubmitted.
- StudentForm.SchemaErrors: the email pattern is not part of the modelled schema, and a cleared date is reported with the schema's "required" message where Yup may report its type-check message instead.
- Text.ToUpper: only ASCII letters are mapped; JavaScript's `toUpperCase` also maps other letters, some to two characters (the confirmation word is ASCII, so the gate is unaffected).
- FormatUtils.TruncateText: lengths count characters, where JavaScript counts UTF-16 code units; the same holds for FormatUtils.FormatStudentName.
- FeeLedger.CreateFeeRequest: `amount` arrives as a number; a JSON string amount such as `"0"`, which JavaScript would treat as truthy, is not modelled.
- `getFee`, `getFees`, `getFeesByStudent`, `getStudents`, `getStudentsByClass` and `getClassFees` are plain reads with no logic beyond the query layer, which is modelled as `AdvancedResults.Run`.
- The payment dialog sends lowercase payment modes, which the payment enum refuses (`FeeModel.ParsePaymentModeExact`); the dialog itself is not modelled.
- The form's email pattern, photo compression, async loading flags and the page reload after save are not modelled.
- Dashboard.PendingSum: its own contract states only non-negativity; the per-student meaning is stated by `Dashboard.Totals`, `Dashboard.PendingZeroIffSettled` and `Dashboard.PendingCoversBalances`.
- Dashboard.PromoteDialog.PromoteAll: the server response is a parameter (`None` for a failed request).
- The step 2 tuition check cannot be reached from the interface: a valid form is at step 2 only after passing steps 0 and 1, and the Save button submits without calling the step check (`StudentForm.SchemaAllowsZeroTuition`).

## Findings

| source | as written | input that shows it | evidently intended | confidence | as-written member | corrected member |
|---|---|---|---|---|---|---|
| backend/controllers/fees.js:140-143 | editing a payment's items reads and writes `student.fees.*`, but the schema field is `fee`; the read throws after the payment is already updated, so the student's `paidAmount` keeps counting the old total | a student with one payment of 500, synced; edit its items to total 300 | re-aggregate `fee.paidAmount` and `fee.balance` as create does | not executed | FeeLedger.FeeStore.UpdateFee, FeeLedger.EditLeavesPaidStale | FeeLedger.FeeStore.UpdateFeeReconciled |
| backend/controllers/fees.js:185-187 | deleting a payment removes it and then reads `student.fees.totalFee`, which throws, so the student keeps counting the removed payment and the request answers 500 | a student with one payment of 500, synced; delete it | re-aggregate `fee.paidAmount` and `fee.balance` over the remaining payments | not executed | FeeLedger.FeeStore.DeleteFee, FeeLedger.DeleteLeavesPaidStale | FeeLedger.FeeStore.DeleteFeeReconciled |
| backend/controllers/fees.js:125-132 | an edit body may move a payment to another student; the handler would re-aggregate only the student the payment now names, so the old owner's `paidAmount` keeps counting a payment it no longer has | a student A with one payment of 500, synced; edit that payment with body `{student: B}` and items | re-aggregate both the old and the new owner | not executed | FeeLedger.MoveLeavesOldOwnerStale | FeeLedger.FeeStore.UpdateFeeReconciled |
