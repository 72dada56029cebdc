/**
  The member-onboarding page (src/pages/admin/OnboardingPage.tsx): the list of
  applications, the review step that approves or rejects one of them, the
  registration form's submission, the status/search filter and the status
  counters.
*/
module Onboarding {
  import opened Domain
  import opened Text
  import opened Seqs
  import opened OnboardingValidation

  // ---------------------------------------------------------------------------
  // Applications

  datatype PersonalInfo = PersonalInfo(
    firstName: string, lastName: string, dateOfBirth: string, gender: string,
    phoneNumber: string, email: string, address: string, idNumber: string)

  /** `monthlyIncome` in whole shillings. */
  datatype FinancialInfo = FinancialInfo(
    monthlyIncome: int, employerName: Option<string>, employmentStatus: string)

  /** One application. `userId`, `reviewedAt` and `approvedBy` are the optional
      fields of the record; the documents are the three optional scan URLs. */
  datatype Application = Application(
    id: string, userId: Option<string>, personal: PersonalInfo, financial: FinancialInfo,
    documents: Uploads, status: OnboardingStatus, submittedAt: string,
    reviewedAt: Option<string>, approvedBy: Option<string>)

  /** The review actions are offered only on a pending application. */
  predicate Reviewable(app: Application) {
    app.status == OnboardingStatus.Pending
  }

  /** The documented invariant of the record: a user id exists only for an
      approved application. */
  ghost predicate UserIdOnlyWhenApproved(apps: seq<Application>) {
    forall i :: 0 <= i < |apps| ==> apps[i].userId.Some? ==> apps[i].status == OnboardingStatus.Approved
  }

  // ---------------------------------------------------------------------------
  // Review

  /** The approved form of an application, reviewed at `now`. */
  function ApprovedAt(app: Application, now: string): Application {
    app.(status := OnboardingStatus.Approved, reviewedAt := Some(now), approvedBy := Some("admin-1"),
         userId := Some("user-" + app.id))
  }

  /** The rejected form of an application, reviewed at `now`. */
  function RejectedAt(app: Application, now: string): Application {
    app.(status := Rejected, reviewedAt := Some(now))
  }

  /** The list after approving the application with the given id. */
  function ApproveById(apps: seq<Application>, id: string, now: string): (r: seq<Application>)
    ensures |r| == |apps|
    ensures forall i :: 0 <= i < |apps| && apps[i].id != id ==> r[i] == apps[i]
    ensures forall i :: 0 <= i < |apps| && apps[i].id == id ==>
      r[i].id == id && r[i].status == OnboardingStatus.Approved && r[i].reviewedAt == Some(now)
      && r[i].approvedBy == Some("admin-1") && r[i].userId == Some("user-" + id)
      && r[i].personal == apps[i].personal && r[i].financial == apps[i].financial
      && r[i].documents == apps[i].documents && r[i].submittedAt == apps[i].submittedAt
  {
    seq(|apps|, i requires 0 <= i < |apps| => if apps[i].id == id then ApprovedAt(apps[i], now) else apps[i])
  }

  /** The list after rejecting the application with the given id. */
  function RejectById(apps: seq<Application>, id: string, now: string): (r: seq<Application>)
    ensures |r| == |apps|
    ensures forall i :: 0 <= i < |apps| && apps[i].id != id ==> r[i] == apps[i]
    ensures forall i :: 0 <= i < |apps| && apps[i].id == id ==>
      r[i].id == id && r[i].status == Rejected && r[i].reviewedAt == Some(now)
      && r[i].approvedBy == apps[i].approvedBy && r[i].userId == apps[i].userId
      && r[i].personal == apps[i].personal && r[i].financial == apps[i].financial
      && r[i].documents == apps[i].documents && r[i].submittedAt == apps[i].submittedAt
  {
    seq(|apps|, i requires 0 <= i < |apps| => if apps[i].id == id then RejectedAt(apps[i], now) else apps[i])
  }

  function HasId(id: string): Application -> bool { (a: Application) => a.id == id }

  /** `applications.find(app => app.id === id)`: the first application with the id, if any. */
  function FindById(apps: seq<Application>, id: string): (r: Option<Application>)
    ensures r.None? <==> forall i :: 0 <= i < |apps| ==> apps[i].id != id
    ensures r.Some? ==> exists i :: 0 <= i < |apps| && apps[i] == r.value && r.value.id == id
                                    && forall j :: 0 <= j < i ==> apps[j].id != id
  {
    FindFirst(apps, HasId(id))
  }

  /** Approving keeps the invariant: the only record given a user id is approved. */
  lemma ApprovePreservesUserIdInvariant(apps: seq<Application>, id: string, now: string)
    requires UserIdOnlyWhenApproved(apps)
    ensures UserIdOnlyWhenApproved(ApproveById(apps, id, now))
  {
    var r := ApproveById(apps, id, now);
    forall i | 0 <= i < |r| && r[i].userId.Some? ensures r[i].status == OnboardingStatus.Approved {
      if apps[i].id != id {
        assert r[i] == apps[i];
      }
    }
  }

  /** Rejecting keeps the invariant as long as every record with that id is
      pending, which is when the page offers the action. Rejection keeps an
      existing user id, so rejecting an approved record would break it. */
  lemma RejectPendingPreservesUserIdInvariant(apps: seq<Application>, id: string, now: string)
    requires UserIdOnlyWhenApproved(apps)
    requires forall i :: 0 <= i < |apps| && apps[i].id == id ==> Reviewable(apps[i])
    ensures UserIdOnlyWhenApproved(RejectById(apps, id, now))
  {
    var r := RejectById(apps, id, now);
    forall i | 0 <= i < |r| && r[i].userId.Some? ensures r[i].status == OnboardingStatus.Approved {
      if apps[i].id == id {
        assert false;
      }
    }
  }

  /** Rejecting an approved record that already has a user id leaves a rejected
      record with that user id. */
  lemma RejectingApprovedBreaksInvariant(apps: seq<Application>, k: int, now: string)
    requires 0 <= k < |apps| && apps[k].status == OnboardingStatus.Approved && apps[k].userId.Some?
    ensures !UserIdOnlyWhenApproved(RejectById(apps, apps[k].id, now))
  {
    var r := RejectById(apps, apps[k].id, now);
    assert r[k].userId.Some? && r[k].status == Rejected;
  }

  // ---------------------------------------------------------------------------
  // Counters

  datatype Stats = Stats(total: nat, pending: nat, approved: nat, rejected: nat)

  function IsPending(): Application -> bool { (a: Application) => a.status == OnboardingStatus.Pending }
  function IsApproved(): Application -> bool { (a: Application) => a.status == OnboardingStatus.Approved }
  function IsRejected(): Application -> bool { (a: Application) => a.status == Rejected }

  /** The four cards: the list's length and the number of applications in each
      status; the three status counts add up to the total. */
  function ComputeStats(apps: seq<Application>): (s: Stats)
    ensures s.total == |apps|
    ensures s.pending == |Filter(apps, IsPending())|
    ensures s.approved == |Filter(apps, IsApproved())|
    ensures s.rejected == |Filter(apps, IsRejected())|
    ensures s.pending + s.approved + s.rejected == s.total
  {
    CountPartition3(apps, IsPending(), IsApproved(), IsRejected());
    Stats(|apps|, |Filter(apps, IsPending())|, |Filter(apps, IsApproved())|, |Filter(apps, IsRejected())|)
  }

  /** Approving the one pending application with a given id moves one
      application from the pending count to the approved count. */
  lemma ApproveMovesOneFromPending(apps: seq<Application>, k: int, now: string)
    requires 0 <= k < |apps| && Reviewable(apps[k])
    requires forall i :: 0 <= i < |apps| && i != k ==> apps[i].id != apps[k].id
    ensures ComputeStats(ApproveById(apps, apps[k].id, now)).pending == ComputeStats(apps).pending - 1
    ensures ComputeStats(ApproveById(apps, apps[k].id, now)).approved == ComputeStats(apps).approved + 1
    ensures ComputeStats(ApproveById(apps, apps[k].id, now)).rejected == ComputeStats(apps).rejected
  {
    var x := ApprovedAt(apps[k], now);
    assert ApproveById(apps, apps[k].id, now) == apps[k := x];
    FilterCountUpdate(apps, k, x, IsPending());
    FilterCountUpdate(apps, k, x, IsApproved());
    FilterCountUpdate(apps, k, x, IsRejected());
  }

  // ---------------------------------------------------------------------------
  // Filter

  /** The search: first name, last name, ID number or email contains the query
      ignoring case, or the phone number, taken as typed, contains the lower-cased
      query. */
  predicate SearchHit(app: Application, query: string) {
    ContainsFolded(app.personal.firstName, query)
    || ContainsFolded(app.personal.lastName, query)
    || ContainsFolded(app.personal.idNumber, query)
    || Includes(app.personal.phoneNumber, Lower(query))
    || ContainsFolded(app.personal.email, query)
  }

  function StatusQuery(status: Choice<OnboardingStatus>): Application -> bool {
    (a: Application) => Admits(status, a.status)
  }

  function SearchQuery(query: string): Application -> bool {
    (a: Application) => SearchHit(a, query)
  }

  /** The filter the page applies: the status filter and, for a non-empty query,
      the search; the result lists, in their original order, exactly the
      applications that pass both. */
  function FilterApplications(apps: seq<Application>, status: Choice<OnboardingStatus>, query: string)
    : (r: seq<Application>)
    ensures IsSubsequence(r, apps)
    ensures forall i :: 0 <= i < |apps| ==>
      (apps[i] in r <==> Admits(status, apps[i].status) && (query == [] || SearchHit(apps[i], query)))
    ensures forall a ::
      multiset(r)[a] == (if Admits(status, a.status) && (query == [] || SearchHit(a, query)) then multiset(apps)[a] else 0)
  {
    var byStatus := if status.All? then apps else Filter(apps, StatusQuery(status));
    var r := if query != [] then Filter(byStatus, SearchQuery(query)) else byStatus;
    assert IsSubsequence(byStatus, apps) by {
      if status.All? { SubsequenceReflexive(apps); }
    }
    assert IsSubsequence(r, byStatus) by {
      if query == [] { SubsequenceReflexive(byStatus); }
    }
    SubsequenceTransitive(r, byStatus, apps);
    forall a
      ensures multiset(r)[a] ==
        if Admits(status, a.status) && (query == [] || SearchHit(a, query)) then multiset(apps)[a] else 0
    {
      assert multiset(byStatus)[a] == if Admits(status, a.status) then multiset(apps)[a] else 0 by {
        if !status.All? { FilterCount(apps, StatusQuery(status), a); }
      }
      if query != [] { FilterCount(byStatus, SearchQuery(query), a); }
    }
    forall i | 0 <= i < |apps|
      ensures apps[i] in r <==> Admits(status, apps[i].status) && (query == [] || SearchHit(apps[i], query))
    {
      assert apps[i] in multiset(apps);
    }
    r
  }

  /** With no status filter and an empty query every application is listed. */
  lemma NoFilterListsEverything(apps: seq<Application>)
    ensures FilterApplications(apps, All, []) == apps
  {
  }

  // ---------------------------------------------------------------------------
  // Registration

  /** The application a successful submission creates: identified by
      `new-<milliseconds>`, pending, with no review data and no user id, and
      carrying the form's fields and the uploaded scans. `income` is the value of
      `Number(monthlyIncome) || 0`. */
  function NewApplication(form: RegistrationForm, files: Uploads, income: int, millis: nat, now: string)
    : (a: Application)
    ensures a.id == "new-" + DecimalString(millis)
    ensures a.status == OnboardingStatus.Pending && a.submittedAt == now
    ensures a.userId.None? && a.reviewedAt.None? && a.approvedBy.None?
    ensures a.personal.firstName == form.firstName && a.personal.lastName == form.lastName
    ensures a.personal.dateOfBirth == form.dateOfBirth && a.personal.gender == form.gender
    ensures a.personal.phoneNumber == form.phoneNumber && a.personal.idNumber == form.idNumber
    ensures a.personal.email == form.email && a.personal.address == form.address
    ensures a.financial.monthlyIncome == income && a.financial.employmentStatus == form.employmentStatus
    ensures a.financial.employerName == Some(form.employerName)
    ensures a.documents == files
  {
    Application(
      "new-" + DecimalString(millis), None,
      PersonalInfo(form.firstName, form.lastName, form.dateOfBirth, form.gender,
                   form.phoneNumber, form.email, form.address, form.idNumber),
      FinancialInfo(income, Some(form.employerName), form.employmentStatus),
      files, OnboardingStatus.Pending, now, None, None)
  }

  /** An application created from an accepted form has a phone number and an ID
      in the required formats, all three scans, and keeps the user-id invariant
      of the list it is put in front of. */
  lemma AcceptedFormGivesWellFormedApplication(
    form: RegistrationForm, files: Uploads, incomeIsNaN: bool, income: int, millis: nat, now: string,
    apps: seq<Application>)
    requires ChecksPass(form, files, incomeIsNaN)
    requires UserIdOnlyWhenApproved(apps)
    ensures var a := NewApplication(form, files, income, millis, now);
      InPhoneLanguage(a.personal.phoneNumber) && InNationalIdLanguage(a.personal.idNumber)
      && (a.personal.email == [] || InEmailLanguage(a.personal.email))
      && a.documents.nationalIdFront.Some? && a.documents.nationalIdBack.Some?
      && a.documents.passportPhoto.Some?
      && UserIdOnlyWhenApproved([a] + apps)
  {
    ChecksPassIffFormAccepted(form, files, incomeIsNaN);
    var a := NewApplication(form, files, income, millis, now);
    forall i | 0 <= i < |[a] + apps| && ([a] + apps)[i].userId.Some?
      ensures ([a] + apps)[i].status == OnboardingStatus.Approved
    {
      assert ([a] + apps)[i] == apps[i - 1];
    }
  }

  // ---------------------------------------------------------------------------
  // The page's state

  datatype Tab = Applications | Register

  /** The record the details view holds after an approval: the first record
      with the id in the updated list when the view was open and one is found,
      otherwise the one it held. */
  function SelectedAfterApproval(wasOpen: bool, updated: seq<Application>, id: string,
                                 held: Option<Application>): Option<Application>
  {
    if wasOpen && FindById(updated, id).Some? then FindById(updated, id) else held
  }

  class OnboardingPage {
    var applications: seq<Application>
    var activeTab: Tab
    var form: RegistrationForm
    var files: Uploads
    var formErrors: map<Field, Message>
    var showDetailsModal: bool
    var selected: Option<Application>

    /** The page once the loader has delivered `loaded`. */
    constructor(loaded: seq<Application>)
      ensures applications == loaded && activeTab == Applications
      ensures form == EmptyForm && files == NoUploads && formErrors == map[]
      ensures !showDetailsModal && selected.None?
    {
      applications := loaded;
      activeTab := Applications;
      form := EmptyForm;
      files := NoUploads;
      formErrors := map[];
      showDetailsModal := false;
      selected := None;
    }

    /** Approves the application with the clicked one's id. An open details view
        is closed and shows the updated record when one is found. */
    method Approve(application: Application, now: string)
      modifies this
      ensures applications == ApproveById(old(applications), application.id, now)
      ensures !showDetailsModal
      ensures selected == SelectedAfterApproval(old(showDetailsModal), applications, application.id, old(selected))
      ensures activeTab == old(activeTab) && form == old(form) && files == old(files)
      ensures formErrors == old(formErrors)
    {
      var updated := ApproveById(applications, application.id, now);
      selected := SelectedAfterApproval(showDetailsModal, updated, application.id, selected);
      applications := updated;
      showDetailsModal := false;
    }

    /** Rejects the application with the clicked one's id and closes the details view. */
    method Reject(application: Application, now: string)
      modifies this
      ensures applications == RejectById(old(applications), application.id, now)
      ensures !showDetailsModal && selected == old(selected)
      ensures activeTab == old(activeTab) && form == old(form) && files == old(files)
      ensures formErrors == old(formErrors)
    {
      applications := RejectById(applications, application.id, now);
      showDetailsModal := false;
    }

    /** Validates the form and records its errors; on failure nothing else
        changes, on success one pending application is put in front of the list,
        the form and the uploads are reset and the applications tab is shown. */
    method Submit(emailAccepted: bool, incomeIsNaN: bool, income: int, millis: nat, now: string)
      modifies this
      ensures !emailAccepted ==>
        applications == old(applications) && form == old(form) && files == old(files)
        && activeTab == old(activeTab) && formErrors == old(formErrors)
      ensures emailAccepted ==> Flags(old(form), old(files), incomeIsNaN, formErrors)
      ensures emailAccepted && !ChecksPass(old(form), old(files), incomeIsNaN) ==>
        applications == old(applications) && form == old(form) && files == old(files)
        && activeTab == old(activeTab)
      ensures emailAccepted && ChecksPass(old(form), old(files), incomeIsNaN) ==>
        applications == [NewApplication(old(form), old(files), income, millis, now)] + old(applications)
        && form == EmptyForm && files == NoUploads && activeTab == Applications
      ensures showDetailsModal == old(showDetailsModal) && selected == old(selected)
    {
      if !emailAccepted {
        return;
      }
      var errors, ok := ValidateForm(form, files, incomeIsNaN);
      formErrors := errors;
      if !ok {
        return;
      }
      applications := [NewApplication(form, files, income, millis, now)] + applications;
      form := EmptyForm;
      files := NoUploads;
      activeTab := Applications;
    }
  }
}
