# SACCO admin record-keeping, modelled in Dafny

This project models the record-keeping logic of a savings and credit
co-operative (SACCO) administration front end. The front end is a set of
React pages over hard-coded registers. The model keeps their logic and
drops the rendering:

- Member onboarding: validating the registration form (Uganda phone number, national ID, email shape, required fields and uploads), approving or rejecting an application, the status counters and the search.
- The loan board, where loans are approved or rejected, and the loans overview with its portfolio counters over the constant loan list.
- The fines ledger: paying, waiving and issuing fines, the totals, the status/category/member filter and the member picker.
- The income/expense ledger: a guarded add with length-derived ids, delete by id, the filter and the profit summary.
- The investments portfolio: a guarded add, the filter and the totals.
- Staff management: the add-staff form's change handler, appending staff, the header figures and the performance-bar colour.
- Team chat: setting up the threads and sending a message.
- The read-only registers: transactions, deposits, members and mobile money. For each, the filters, counters and totals.
- Settings: the role/permission tables, the user filter and the tab dispatch.
- The route guard of the application shell and the root redirect.

Each page is one module. Shared modules:

- `Domain` holds the string unions of the shared types, each as a datatype with its name and a parser that reads the name back.
- `Text` holds ASCII case folding, substring search, trimming, decimal strings and splitting.
- `Seqs` holds in-order filtering, subsequences and sums.

Three kinds of code are modelled in three ways:

- Handlers that replace a page's state become methods of a class whose fields are that state. Each such method is specified by a pure function over the old state.
- Filters and reduces become functions. Their contracts say which rows they keep and what the sums partition into.
- The chat threads are built by a loop, which becomes a `while` loop with invariants.

Amounts are whole shillings (`int`); the investment return rate is a `real`.
Clock readings, generated ids and the results of `Number()`/`parseFloat`
are parameters.

## Model

| member | source | states |
|---|---|---|
| Domain.ParseRole | src/types/index.ts:27 | a recognised text is the stored name of the role it yields |
| Domain.RoleRoundTrip | src/types/index.ts:27 | reading back the stored name of any of admin/staff/member gives that role |
| Domain.ParseLoanStatus | src/types/index.ts:61 | a recognised text is the stored name of the status it yields |
| Domain.LoanStatusRoundTrip | src/types/index.ts:61 | reading back the stored name of each of the six declared loan statuses gives that status |
| Domain.RejectedIsNotALoanStatus | src/types/index.ts:61 | 'rejected' is not the name of any declared loan status |
| Domain.FindFirst | src/pages/admin/FinesPage.tsx:123 | `Array.prototype.find`: none exactly when no element passes; otherwise the element found passes and every element before it fails |
| Domain.FindUser | src/pages/admin/FinesPage.tsx:123 | `find` by id: none exactly when no user has the id; otherwise the user found is the first one with it |
| Routing.RoleHome | src/App.tsx:63 | the home is /admin exactly for administrators, /member otherwise |
| Routing.Guard | src/App.tsx:41-67 | the spinner whenever loading; /login without a user; rendering exactly when not loading, signed in and the required role is absent, empty or equal to the user's; any other redirect goes to the user's home |
| Routing.Guarded | src/App.tsx:75-110 | one protected route per path, in order, each requiring the area's role |
| Routing.ProtectedRoutesRequireAdminOrMember | src/App.tsx:75-110 | every protected route of the table requires admin or member, never staff |
| Routing.StaffNeverRendered | src/App.tsx:62-102 | a staff user is redirected to /member by every protected route, and /member redirects them again to itself |
| Routing.RootRedirect | src/App.tsx:112-121 | the root sends a signed-out visitor to /login and a signed-in user to their role's home |
| Routing.RootRedirectLandsOnRenderedHome | src/App.tsx:62-121 | admins and members sent from / land on a route whose guard renders for them; staff land on one that does not |
| Settings.Keys | src/pages/admin/SettingsPage.tsx:51 | the keys of one permission group, in declaration order |
| Settings.AllKeys | src/pages/admin/SettingsPage.tsx:51 | every entry is some group's key, and every key of every group is an entry |
| Settings.AllKeysConcat | src/pages/admin/SettingsPage.tsx:51 | flattening keeps group order: the keys of two group lists joined are the keys of the first followed by those of the second |
| Settings.AllKeysSingle | src/pages/admin/SettingsPage.tsx:51 | one group flattens to its own keys in declaration order |
| Settings.CatalogueKeysHaveNoDot | src/pages/admin/SettingsPage.tsx:40-48 | no permission key holds a dot |
| Settings.AdminEntriesHaveNoDot | src/pages/admin/SettingsPage.tsx:51 | every entry of the Admin list is a bare key without a dot |
| Settings.AdminNeverChecked | src/pages/admin/SettingsPage.tsx:51 | the Admin list (`roles['Admin']`) holds only bare keys, so the `group.key` check of line 219 never ticks a box for Admin |
| Settings.LoanPermissionsSplit | src/pages/admin/SettingsPage.tsx:52-53 | looked up as `roles[role]` and checked as at line 219, Manager may approve but not disburse loans; Loan Officer may create but not approve them |
| Settings.FilterUsers | src/pages/admin/SettingsPage.tsx:144-147 | in order, exactly the users whose name or email contains the term, ignoring case, each kept as many times as it occurs in the input |
| Settings.EmptyTermListsEveryone | src/pages/admin/SettingsPage.tsx:144-147 | an empty term lists every user |
| Settings.RenderContent | src/pages/admin/SettingsPage.tsx:77-88 | a panel exactly for the seven tab ids; any other id shows nothing |
| Settings.TabsHaveDistinctPanels | src/pages/admin/SettingsPage.tsx:77-98 | different tabs of the bar show different panels |
| OnboardingValidation.UgandaPhoneMatchesPattern | src/pages/admin/OnboardingPage.tsx:325-327 | the phone check accepts exactly `+256` followed by nine digits |
| OnboardingValidation.NationalIdMatchesPattern | src/pages/admin/OnboardingPage.tsx:329-332 | the ID check accepts exactly `CM`, eight digits and four capital letters |
| OnboardingValidation.SampleNationalIdAccepted | src/pages/admin/OnboardingPage.tsx:38 | the sample ID CM90123456ABCD has the shape the ID pattern of lines 329-332 accepts |
| OnboardingValidation.IndexOf | src/pages/admin/OnboardingPage.tsx:334 | the first position of a character, or none when it does not occur |
| OnboardingValidation.NoSpaceOrAtSlice | src/pages/admin/OnboardingPage.tsx:334 | every piece of a run without white space or `@` is such a run |
| OnboardingValidation.EmailShapeInLanguage | src/pages/admin/OnboardingPage.tsx:334 | every address the direct check accepts matches `[^\s@]+@[^\s@]+\.[^\s@]+` |
| OnboardingValidation.EmailLanguageHasShape | src/pages/admin/OnboardingPage.tsx:334 | every address the pattern matches passes the direct check |
| OnboardingValidation.EmailMatchesPattern | src/pages/admin/OnboardingPage.tsx:334-336 | the email check accepts exactly the addresses the pattern matches |
| OnboardingValidation.ChecksPassIffFormAccepted | src/pages/admin/OnboardingPage.tsx:318-348 | the character checks accept exactly the forms the patterns and required-field rules accept |
| OnboardingValidation.CheckRequired | src/pages/admin/OnboardingPage.tsx:318-322 | first name, last name, date of birth, phone and ID are flagged exactly when empty |
| OnboardingValidation.CheckFormats | src/pages/admin/OnboardingPage.tsx:325-340 | a non-empty phone, ID or email is flagged exactly when it fails its pattern; a given income exactly when it is not a number; empty fields keep their required-field flag |
| OnboardingValidation.CheckUploads | src/pages/admin/OnboardingPage.tsx:343-345 | each of the three documents is flagged exactly when missing |
| OnboardingValidation.ErrorsMeaning | src/pages/admin/OnboardingPage.tsx:347-348 | an error record flagging exactly the failing checks is empty exactly when every check passes |
| OnboardingValidation.ValidateForm | src/pages/admin/OnboardingPage.tsx:314-349 | the errors flag exactly the failing fields, and the form is accepted exactly when there are none |
| Onboarding.ApproveById | src/pages/admin/OnboardingPage.tsx:249-259 | same length; other applications unchanged; the matching one approved by admin-1, reviewed at the given time, with user id `user-<id>`, its personal data kept |
| Onboarding.RejectById | src/pages/admin/OnboardingPage.tsx:277-285 | same length; other applications unchanged; the matching one rejected and reviewed, with no approver or user id added |
| Onboarding.FindById | src/pages/admin/OnboardingPage.tsx:267 | `find` by id: none exactly when no application has the id; otherwise the first application with it |
| Onboarding.ApprovePreservesUserIdInvariant | src/types/index.ts:138-160 | approving keeps the rule that only approved applications have a user id |
| Onboarding.RejectPendingPreservesUserIdInvariant | src/types/index.ts:138-160 | rejecting an application that is not approved keeps that rule |
| Onboarding.RejectingApprovedBreaksInvariant | src/pages/admin/OnboardingPage.tsx:277-285 | rejecting an approved application that has a user id leaves a rejected application with a user id |
| Onboarding.ComputeStats | src/pages/admin/OnboardingPage.tsx:239-244 | the total is the list's length; pending, approved and rejected are the lengths of the three status filters and add up to the total |
| Onboarding.ApproveMovesOneFromPending | src/pages/admin/OnboardingPage.tsx:239-259 | approving the one pending application with an id moves one count from pending to approved |
| Onboarding.FilterApplications | src/pages/admin/OnboardingPage.tsx:215-236 | in order, exactly the applications matching the status filter and, for a non-empty query, the name/ID/email (case-insensitive) or phone search, each kept as many times as it occurs in the input |
| Onboarding.NoFilterListsEverything | src/pages/admin/OnboardingPage.tsx:215-236 | with no filter and no query every application is listed |
| Onboarding.NewApplication | src/pages/admin/OnboardingPage.tsx:360-384 | the new application is `new-<millis>`, pending, unreviewed, with no user id; every personal field is the form's, the income is the converted value, the employer and employment status are the form's, and the documents are the uploads |
| Onboarding.AcceptedFormGivesWellFormedApplication | src/pages/admin/OnboardingPage.tsx:355-387 | an application made from an accepted form has a valid phone and ID, and prepending it keeps the user-id rule |
| Onboarding.OnboardingPage.constructor | src/pages/admin/OnboardingPage.tsx:174-212 | the page starts with the loaded applications, an empty form and no errors |
| Onboarding.OnboardingPage.Approve | src/pages/admin/OnboardingPage.tsx:247-272 | the applications become ApproveById of the old list; an open details view closes and shows the updated record |
| Onboarding.OnboardingPage.Reject | src/pages/admin/OnboardingPage.tsx:275-298 | the applications become RejectById of the old list and the details view closes |
| Onboarding.OnboardingPage.Submit | src/pages/admin/OnboardingPage.tsx:352-387 | when the browser rejects the email input nothing changes; otherwise the errors flag the failing fields, a rejected form leaves the list unchanged and an accepted one prepends exactly one pending application |
| Fines.PayById | src/pages/admin/FinesPage.tsx:146 | same length; other fines unchanged; the matching fine becomes paid on the given date, its other fields kept |
| Fines.WaiveById | src/pages/admin/FinesPage.tsx:153 | same length; other fines unchanged; the matching fine becomes waived, its payment date and other fields kept |
| Fines.ReviewedFineOffersNoAction | src/pages/admin/FinesPage.tsx:332-337 | a fine just paid or waived no longer offers Pay or Waive |
| Fines.ComputeStats | src/pages/admin/FinesPage.tsx:135-142 | the total issued sums every amount; pending, paid and waived sum the amounts of their status filters and add up to the total issued |
| Fines.ReviewKeepsTotalIssued | src/pages/admin/FinesPage.tsx:135-156 | paying or waiving never changes the total issued |
| Fines.IssueAddsToPending | src/pages/admin/FinesPage.tsx:135-168 | issuing adds the amount to the total issued and the pending total and leaves the paid total |
| Fines.FilterFines | src/pages/admin/FinesPage.tsx:111-132 | in order, exactly the fines passing the status filter, the category filter and, for a non-empty search, the member search, each kept as many times as it occurs in the input |
| Fines.UnknownMemberNeverFound | src/pages/admin/FinesPage.tsx:120-129 | with a non-empty search, a fine whose member matches no user is never listed |
| Fines.MemberSearchResults | src/pages/admin/FinesPage.tsx:174-180 | nothing for an empty query; otherwise, in order, exactly the users whose full name or member number contains it, ignoring case, each kept as many times as it occurs in the input |
| Fines.IssuedFine | src/pages/admin/FinesPage.tsx:160-167 | the new fine is `fine-<millis>`, pending, unpaid, issued now, with the form's member, category, description and amount |
| Fines.FinesPage.constructor | src/pages/admin/FinesPage.tsx:76-107 | the page starts with the loaded fines, no selection and an empty form |
| Fines.FinesPage.RecordPayment | src/pages/admin/FinesPage.tsx:144-149 | no selection changes nothing; otherwise the fines become PayById of the old list and the modal closes |
| Fines.FinesPage.Waive | src/pages/admin/FinesPage.tsx:151-156 | no selection changes nothing; otherwise the fines become WaiveById of the old list and the modal closes |
| Fines.FinesPage.Issue | src/pages/admin/FinesPage.tsx:158-172 | with an empty amount text nothing changes, because the amount input is `required` (lines 352 and 396-404); otherwise the new fine is put in front of the old list and the form is reset |
| LoanBoard.StatusTextLeavesUnion | src/pages/admin/LoansPageBackup2.tsx:245 | of the statuses declared at line 36, each reads back as itself; the rejected status written by reject is exactly the one that reads back as no declared status |
| LoanBoard.CanApprove | src/pages/admin/LoansPageBackup2.tsx:426-430 | the approve button shows exactly when the stored status reads "pending" |
| LoanBoard.CanRecordPayment | src/pages/admin/LoansPageBackup2.tsx:431-435 | the payment button shows exactly when the stored status reads "active" |
| LoanBoard.ApproveById | src/pages/admin/LoansPageBackup2.tsx:234-238 | same length; other loans unchanged; the matching loan approved with the approval date set, its other fields kept |
| LoanBoard.RejectById | src/pages/admin/LoansPageBackup2.tsx:243-247 | same length; other loans unchanged; the matching loan holds 'rejected', its other fields kept |
| LoanBoard.ApprovedLoanOffersNoAction | src/pages/admin/LoansPageBackup2.tsx:426-435 | an approved loan offers neither approval nor payment |
| LoanBoard.FilterLoans | src/pages/admin/LoansPageBackup2.tsx:222-231 | in order, exactly the loans matching the name/number search, the type filter and the status filter, each kept as many times as it occurs in the input |
| LoanBoard.NoFilterShowsEverything | src/pages/admin/LoansPageBackup2.tsx:222-231 | with an empty search and both filters on 'all' every loan is shown |
| LoanBoard.RejectedShownOnlyUnderAll | src/pages/admin/LoansPageBackup2.tsx:228 | a rejected loan is shown only while the status filter is 'all' |
| LoanBoard.ComputeCounters | src/pages/admin/LoansPageBackup2.tsx:251-256 | active, pending and defaulted counts are the numbers of loans in those statuses; the outstanding total sums active loans only |
| LoanBoard.ApproveMovesOneFromPending | src/pages/admin/LoansPageBackup2.tsx:233-256 | approving the one pending loan with an id lowers the pending count by one and leaves the other counters |
| LoanBoard.RejectDropsFromEveryCounter | src/pages/admin/LoansPageBackup2.tsx:242-256 | rejecting it lowers the pending count by one, leaves the others, and the loan is then counted under no status |
| LoanBoard.LoanBoardPage.constructor | src/pages/admin/LoansPageBackup2.tsx:175-183 | the board starts with the loaded loans, no selection and every modal closed |
| LoanBoard.LoanBoardPage.OpenApproval | src/pages/admin/LoansPageBackup2.tsx:426-430 | on a pending loan, selects it and opens the approval modal |
| LoanBoard.LoanBoardPage.OpenPayment | src/pages/admin/LoansPageBackup2.tsx:431-435 | on an active loan, selects it and opens the payment modal |
| LoanBoard.LoanBoardPage.Approve | src/pages/admin/LoansPageBackup2.tsx:233-240 | the loans become ApproveById of the old list and the approval modal closes |
| LoanBoard.LoanBoardPage.Reject | src/pages/admin/LoansPageBackup2.tsx:242-249 | the loans become RejectById of the old list and the approval modal closes |
| LoansOverview.FilterLoans | src/pages/admin/LoansPage.tsx:142-151 | in order, exactly the loans matching the name/number search, the type filter and the status filter, each kept as many times as it occurs in the input |
| LoansOverview.NoFilterShowsEverything | src/pages/admin/LoansPage.tsx:142-151 | with an empty search and both filters on 'all' every loan is shown |
| LoansOverview.CountStatusIsFilterLength | src/pages/admin/LoansPage.tsx:153-158 | counting loans one by one gives the length of the status filter |
| LoansOverview.ActiveBalanceIsSumWhere | src/pages/admin/LoansPage.tsx:154-156 | the reduce that adds only active balances equals the sum over active loans |
| LoansOverview.ComputeCounters | src/pages/admin/LoansPage.tsx:153-158 | active, pending and defaulted counts over the whole list; the outstanding total sums active loans only |
| LoansOverview.OutstandingIgnoresInactive | src/pages/admin/LoansPage.tsx:154-156 | lists with the same active loans have the same outstanding total |
| LoansOverview.MockCounters | src/pages/admin/LoansPage.tsx:22-158 | on the page's loans: 2 active, 9,000,000 outstanding, 1 pending, 1 defaulted |
| IncomeExpense.NewId | src/pages/admin/IncomeExpensePage.tsx:85 | the id of an added entry starts with `txn-` |
| IncomeExpense.NewIdInjective | src/pages/admin/IncomeExpensePage.tsx:85 | ledgers of different lengths hand out different ids |
| IncomeExpense.WithId | src/pages/admin/IncomeExpensePage.tsx:86 | the added entry carries the new id, and stripping the id gives back exactly the form |
| IncomeExpense.DraftRoundTrip | src/pages/admin/IncomeExpensePage.tsx:86 | giving an entry's form part its id back restores the entry |
| IncomeExpense.DeleteById | src/pages/admin/IncomeExpensePage.tsx:100 | an in-order subsequence with no entry of that id and every entry of another id, each as many times as before |
| IncomeExpense.NextIdCollidesAfterDelete | src/pages/admin/IncomeExpensePage.tsx:85-100 | after deleting any entry but the newest, the next id equals the newest entry's id |
| IncomeExpense.FilterEntries | src/pages/admin/IncomeExpensePage.tsx:104-108 | in order, exactly the entries matching the type and category filters, each kept as many times as it occurs in the input |
| IncomeExpense.NoFilterShowsEverything | src/pages/admin/IncomeExpensePage.tsx:104-108 | with both filters on 'all' every entry is shown |
| IncomeExpense.ComputeSummary | src/pages/admin/IncomeExpensePage.tsx:110-123 | income and expenses sum the entries of their type and together make the sum of all amounts; net profit is income minus expenses |
| IncomeExpense.SummaryIgnoresStatus | src/pages/admin/IncomeExpensePage.tsx:110-123 | ledgers differing only in entry status have the same summary |
| IncomeExpense.AddMovesNetProfit | src/pages/admin/IncomeExpensePage.tsx:86-123 | adding an entry moves the net profit up by its amount for income and down for an expense |
| IncomeExpense.IncomeExpensePage.constructor | src/pages/admin/IncomeExpensePage.tsx:20-77 | the page starts with the loaded entries and a fresh form |
| IncomeExpense.IncomeExpensePage.AddEntry | src/pages/admin/IncomeExpensePage.tsx:79-96 | a draft without description, category or positive amount changes nothing; otherwise one entry with id `txn-(n+1)` is prepended and the form reset |
| IncomeExpense.IncomeExpensePage.Delete | src/pages/admin/IncomeExpensePage.tsx:98-102 | with confirmation the entries become DeleteById of the old list; otherwise nothing changes |
| Investments.CheckDraft | src/pages/admin/InvestmentsPage.tsx:278-289 | the first failing check decides: missing name, then amount ≤ 0, then return rate ≤ 0; added exactly when all pass |
| Investments.NewIdNeverLoadedId | src/pages/admin/InvestmentsPage.tsx:291 | an added id `inv-(n+1)` never equals a loaded id of the form `inv<k>` (such as `inv1` at line 23) |
| Investments.WithId | src/pages/admin/InvestmentsPage.tsx:292-295 | the added investment carries the new id, and stripping the id gives back exactly the form |
| Investments.DraftRoundTrip | src/pages/admin/InvestmentsPage.tsx:292-295 | giving an investment's form part its id back restores the investment |
| Investments.FilterInvestments | src/pages/admin/InvestmentsPage.tsx:112-117 | in order, exactly the investments whose name contains the search, ignoring case, and whose type and status match, each kept as many times as it occurs in the input |
| Investments.NoFilterShowsEverything | src/pages/admin/InvestmentsPage.tsx:112-117 | an empty search with both filters on 'all' shows every investment |
| Investments.ComputeStats | src/pages/admin/InvestmentsPage.tsx:119-121 | the total sums every amount; the active total sums the amounts of active investments, as the conditional accumulator would |
| Investments.ActiveWithinTotal | src/pages/admin/InvestmentsPage.tsx:120-121 | with no negative amounts the active total lies between zero and the total |
| Investments.AddRaisesTotals | src/pages/admin/InvestmentsPage.tsx:120-121 | adding raises the total by the amount, and the active total too exactly when the investment is active |
| Investments.InvestmentsPage.constructor | src/pages/admin/InvestmentsPage.tsx:87-109 | the page starts with the loaded investments and a fresh form |
| Investments.InvestmentsPage.Add | src/pages/admin/InvestmentsPage.tsx:277-308 | a failing check changes nothing; otherwise one investment with id `inv-(n+1)` is prepended and the form reset |
| StaffManagement.WriteThenRead | src/pages/admin/StaffPage.tsx:96-101 | a text field written reads back as the value; the numbers and bank details stay |
| StaffManagement.WriteLeavesOthers | src/pages/admin/StaffPage.tsx:96-101 | writing one text field leaves every other text field |
| StaffManagement.BankFieldHasDot | src/pages/admin/StaffPage.tsx:86-87 | a name containing `bank.` splits at dots into at least two pieces |
| StaffManagement.BankFieldOfDottedName | src/pages/admin/StaffPage.tsx:86-87 | `bank.` followed by a dot-free name designates exactly that name |
| StaffManagement.NoDotNoBankField | src/pages/admin/StaffPage.tsx:86 | a name without a dot never designates a bank field |
| StaffManagement.TextFieldIsNotBank | src/pages/admin/StaffPage.tsx:86 | no name of a text field of the form is taken as a `bank.` name |
| StaffManagement.HandleChange | src/pages/admin/StaffPage.tsx:84-103 | a `bank.` name changes only that bank sub-field; salary and performance score store the number; any text field of the form stores the value as typed (the same as WriteText), leaving the bank details alone |
| StaffManagement.NumericFieldsStoreNumbers | src/pages/admin/StaffPage.tsx:98-99 | salary and performance score store the number and nothing else changes |
| StaffManagement.AddStaff | src/pages/admin/StaffPage.tsx:345-351 | the old list is kept as a prefix and the new member, with id `stf(n+1)`, comes last |
| StaffManagement.EmptyFormNotSubmittable | src/pages/admin/StaffPage.tsx:67-82 | the form as first shown has empty required inputs, so the browser never submits it |
| StaffManagement.RoundedMean | src/pages/admin/StaffPage.tsx:383 | the result is within half a unit of the mean, halves rounded up |
| StaffManagement.HeaderOf | src/pages/admin/StaffPage.tsx:376-391 | the total is the list's length; the average is the mean score rounded to the nearest integer, halves up; the department count is the number of distinct department values, at most the total |
| StaffManagement.DepartmentsAreDistinctValues | src/pages/admin/StaffPage.tsx:391 | the departments collected member by member are exactly the set of the members' department values |
| StaffManagement.DepartmentsBounded | src/pages/admin/StaffPage.tsx:391 | there are no more distinct departments than staff |
| StaffManagement.MockHeader | src/pages/admin/StaffPage.tsx:376-391 | on the initial staff of lines 8-60: 3 staff, mean score 92, 3 departments |
| StaffManagement.PerformanceColour | src/pages/admin/StaffPage.tsx:447-450 | green exactly above 90, blue exactly in (80, 90], yellow exactly at 80 or below |
| StaffManagement.ColourMonotone | src/pages/admin/StaffPage.tsx:447-450 | a higher score never gets a lower colour |
| StaffManagement.StaffPage.constructor | src/pages/admin/StaffPage.tsx:337-339 | the page starts with the initial staff, nothing viewed, the modal closed and the empty form of lines 67-82 |
| StaffManagement.StaffPage.ShownHeader | src/pages/admin/StaffPage.tsx:376-391 | the header is always 3 / 92 / 3, whatever the list holds |
| StaffManagement.StaffPage.Change | src/pages/admin/StaffPage.tsx:84-103 | the form becomes HandleChange of the old form; nothing else changes |
| StaffManagement.StaffPage.Submit | src/pages/admin/StaffPage.tsx:105-109 | a form with an empty `required` input (lines 126-209), or whose email the browser rejects, is not submitted and nothing changes; otherwise the list becomes AddStaff of the old list and the form (lines 345-351), and the modal closes |
| Communications.TeamColleagues | src/pages/admin/CommunicationsPage.tsx:31-35 | the colleagues are users 2 and 3, never the signed-in user |
| Communications.InitialThreads | src/pages/admin/CommunicationsPage.tsx:38-44 | an empty thread for every user after the first, and nothing else |
| Communications.BlankTextNeverSent | src/pages/admin/CommunicationsPage.tsx:55 | text made only of white space is never sent |
| Communications.VisibleTextSent | src/pages/admin/CommunicationsPage.tsx:55 | text with a visible character is sent whenever a thread is open |
| Communications.OutgoingMessage | src/pages/admin/CommunicationsPage.tsx:56-62 | the message is from the signed-in user, holds the text as typed and is marked sent |
| Communications.AppendMessage | src/pages/admin/CommunicationsPage.tsx:64-67 | the message goes at the end of its thread (a missing thread starts empty); every other thread is unchanged |
| Communications.AppendGrowsThreadByOne | src/pages/admin/CommunicationsPage.tsx:64-67 | the thread grows by exactly one message, the sent one, after the old messages |
| Communications.CommunicationsPage.constructor | src/pages/admin/CommunicationsPage.tsx:25-44 | an empty thread per colleague, nothing typed, no thread open |
| Communications.CommunicationsPage.Type | src/pages/admin/CommunicationsPage.tsx:196 | typing replaces the input |
| Communications.CommunicationsPage.Open | src/pages/admin/CommunicationsPage.tsx:108 | clicking a colleague opens their thread |
| Communications.CommunicationsPage.Back | src/pages/admin/CommunicationsPage.tsx:135 | going back closes the open thread |
| Communications.CommunicationsPage.Send | src/pages/admin/CommunicationsPage.tsx:54-68 | without visible text or an open thread nothing changes; otherwise the message is appended to the open thread and the input cleared |
| Transactions.FilterTxns | src/pages/admin/TransactionsPage.tsx:174-186 | in order, exactly the transactions matching the search and the type, status and channel filters, each kept as many times as it occurs in the input |
| Transactions.NoFilterShowsEverything | src/pages/admin/TransactionsPage.tsx:174-186 | an empty search with every filter on 'all' shows the whole register |
| Transactions.ComputeCounters | src/pages/admin/TransactionsPage.tsx:188-193 | completed and pending are the lengths of their status filters and never exceed the total; the volume sums completed transactions only |
| Transactions.VolumeIgnoresUncompleted | src/pages/admin/TransactionsPage.tsx:191-193 | registers with the same completed transactions have the same volume |
| Transactions.Sign | src/pages/admin/TransactionsPage.tsx:346-352 | '+' exactly for deposits and check-offs, '-' otherwise |
| Transactions.SignedAmount | src/pages/admin/TransactionsPage.tsx:346-352 | the amount with the sign the row shows |
| Deposits.FilterDeposits | src/pages/admin/DepositsPage.tsx:118-128 | in order, exactly the deposits matching the search and the account-type and status filters, each kept as many times as it occurs in the input |
| Deposits.NoFilterShowsEverything | src/pages/admin/DepositsPage.tsx:118-128 | an empty search with both filters on 'all' shows every deposit |
| Deposits.CompletedTotalIsSumOfFilter | src/pages/admin/DepositsPage.tsx:130-132 | adding completed amounts one by one gives the sum over completed deposits |
| Deposits.CountPendingIsFilterLength | src/pages/admin/DepositsPage.tsx:133 | counting pending deposits one by one gives the length of the pending filter |
| Deposits.CountOnDateIsFilterLength | src/pages/admin/DepositsPage.tsx:134 | counting deposits of a day one by one gives the length of that day's filter |
| Deposits.ComputeTotals | src/pages/admin/DepositsPage.tsx:130-134 | the completed total, the pending count and the count of deposits dated 2024-01-15 |
| Deposits.CompletedWithinAll | src/pages/admin/DepositsPage.tsx:130-132 | with no negative amounts the completed total lies between zero and the sum of all deposits |
| Deposits.MockTotals | src/pages/admin/DepositsPage.tsx:19-134 | on the register: 1,800,000 completed, 1 pending, 2 on the day |
| Members.FilterMembers | src/pages/admin/MembersPage.tsx:109-119 | in order, exactly the members whose first name, last name, number or email contains the term, ignoring case, and whose status matches, each kept as many times as it occurs in the input |
| Members.NoFilterShowsEverything | src/pages/admin/MembersPage.tsx:109-119 | an empty search with the filter on 'all' shows every member |
| Members.Toggled | src/pages/admin/MembersPage.tsx:226 | the menu closes exactly when that row's menu was open, and otherwise opens on that row |
| Members.ToggleTwice | src/pages/admin/MembersPage.tsx:226 | pressing the same button twice leaves no menu open, unless that row's menu was open to begin with |
| Members.ToggleOther | src/pages/admin/MembersPage.tsx:226 | pressing another row's button moves the menu to that row |
| Members.MembersPage.constructor | src/pages/admin/MembersPage.tsx:86 | no menu is open at first |
| Members.MembersPage.ToggleMenu | src/pages/admin/MembersPage.tsx:226 | the open menu becomes Toggled of the old one |
| Members.CountStatusIsFilterLength | src/pages/admin/MembersPage.tsx:268-276 | counting members one by one gives the length of the status filter |
| Members.ComputeCounts | src/pages/admin/MembersPage.tsx:268-280 | per-status counts are the lengths of the status filters, and active + inactive + suspended equals the total |
| Members.MockCounts | src/pages/admin/MembersPage.tsx:268-280 | on the register of lines 20-81: 3 active, 1 inactive, 1 suspended, 5 in all |
| MobileMoney.FindWallet | src/pages/admin/MobileMoneyPage.tsx:133 | a wallet is found exactly when one has the id and a phone number containing the query; the one found is the first such wallet |
| MobileMoney.FilterTransactions | src/pages/admin/MobileMoneyPage.tsx:126-135 | everything for an empty search; otherwise, in order, exactly the transactions whose reference or type contains the lower-cased query or whose wallet's phone contains it, each kept as many times as it occurs in the input |
| MobileMoney.EmptySearchIsNoFilter | src/pages/admin/MobileMoneyPage.tsx:127-134 | the empty-search shortcut agrees with applying the filter itself |
| MobileMoney.UnknownWalletOnlyByText | src/pages/admin/MobileMoneyPage.tsx:130-133 | a transaction of an unknown wallet is found only through its reference or type |
| MobileMoney.PhoneFindsWalletTxns | src/pages/admin/MobileMoneyPage.tsx:133 | a wallet whose phone contains the lower-cased query brings in every transaction of that wallet |
| MobileMoney.MockTxnsHaveWallets | src/pages/admin/MobileMoneyPage.tsx:48-110 | every loaded transaction belongs to a loaded wallet |

## Left out

- Simulated latency: the `setTimeout` loaders are not modelled; each page starts from the list they deliver. The chat's delayed auto-reply is not modelled either.
- Session plumbing: the `localStorage` session and the mock login are not modelled; the guard takes the loading flag and the user as inputs.
- Number formatting with `Intl.NumberFormat` and date formatting with `date-fns` are not modelled; dates are opaque strings.
- Clock and randomness: `new Date()` and `Date.now()` readings are parameters. The randomly generated fine list is not modelled, so the fines page starts from any given list.
- JavaScript number coercion: `Number()`, `isNaN` and `parseFloat` are not modelled. Their results are parameters, as a whole-shilling `int` or an is-NaN flag. Because of that, a NaN amount or rate passing the `<= 0` guards of the investment form is not modelled.
- The investments' annual-returns figure (floating-point products) and the deposits' average are not modelled.
- StaffManagement.RoundedMean: integer arithmetic is used for `Math.round(sum / n)`; floating-point rounding of the quotient is not modelled.
- File uploads are reduced to an optional object URL per document; `URL.createObjectURL` and the file-input handlers are not modelled.
- The onboarding form's input handlers (including clearing a field's error on edit) are not modelled; the form is a value.
- Case folding covers ASCII letters only; `toLowerCase` on other characters is taken as the identity.
- The exact error message texts are kept as a datatype of messages with their texts, not as string literals in the error record.
- The `alert` and `confirm` dialogs are not modelled; the confirmation of a delete is a parameter.
- StaffManagement.StaffPage.Submit: the browser's `type="email"` syntax check is not modelled; its verdict is the parameter `emailAccepted`. src/components/ui/Input.tsx is not part of this model; the model takes it to pass `required` and `type` on to its input element. A salary input the user has cleared is taken as still showing a number.
- Onboarding.OnboardingPage.Submit: the browser's `type="email"` check on the email input (line 819) is the parameter `emailAccepted`. When it rejects the input, `handleSubmit` never runs. The model does not compute that check from the email text, so the fact that it accepts an empty email is not stated.
- StaffManagement.HandleChange: a `bank.` name whose sub-field is neither `name` nor `accountNumber`, or a plain name that is not a field of the form, adds a new property in JavaScript. The model leaves the form unchanged in both cases.
- The loan board's own mock list and the loan products are not modelled; the board starts from any given list.
- The loan board has no payment handler; only opening the payment modal is modelled. There is no amortisation, disbursement or repayment code, and the model adds none.
- The `mobileMoneyProvider` rule of the transaction type is stated as the predicate Domain.ProviderDocumented. No code in the application builds such records, so no operation is proved to keep it.
- The mobile-money page's loading flag and search box are not modelled as state; the search is a function of the search text and the loaded lists.
- Presentation-only components, the dashboards, the reports page and the member-area pages are not modelled.
