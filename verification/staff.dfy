/**
  Staff management (src/pages/admin/StaffPage.tsx): the add-staff form and its
  change handler, appending a staff member, the header figures and the colour
  of the performance bar.
*/
module StaffManagement {
  import opened Domain
  import opened Text

  datatype Bank = Bank(name: string, accountNumber: string)

  /** The add-staff form: a staff member without an id. The department and
      status hold the text the inputs deliver; salary and performance score
      hold numbers. */
  datatype StaffForm = StaffForm(
    employeeId: string, name: string, email: string, phone: string, role: string,
    department: string, status: string, hireDate: string, salary: int, performanceScore: int,
    profileImage: string, address: string, nssfNumber: string, bank: Bank)

  datatype Staff = Staff(id: string, info: StaffForm)

  /** The form as first shown, dated `today`. */
  function EmptyForm(today: string): StaffForm {
    StaffForm([], [], [], [], [], "Operations", "Active", today, 0, 0,
              "https://randomuser.me/api/portraits/lego/1.jpg", [], [], Bank.Bank([], []))
  }

  // ---------------------------------------------------------------------------
  // The change handler

  /** The text field called `field`, if the form has one by that name. */
  function ReadText(form: StaffForm, field: string): Option<string> {
    if field == "employeeId" then Some(form.employeeId)
    else if field == "name" then Some(form.name)
    else if field == "email" then Some(form.email)
    else if field == "phone" then Some(form.phone)
    else if field == "role" then Some(form.role)
    else if field == "department" then Some(form.department)
    else if field == "status" then Some(form.status)
    else if field == "hireDate" then Some(form.hireDate)
    else if field == "profileImage" then Some(form.profileImage)
    else if field == "address" then Some(form.address)
    else if field == "nssfNumber" then Some(form.nssfNumber)
    else None
  }

  /** Stores `value` in the text field called `field`; any other name leaves
      the form alone. */
  function WriteText(form: StaffForm, field: string, value: string): StaffForm {
    form.(
      employeeId := if field == "employeeId" then value else form.employeeId,
      name := if field == "name" then value else form.name,
      email := if field == "email" then value else form.email,
      phone := if field == "phone" then value else form.phone,
      role := if field == "role" then value else form.role,
      department := if field == "department" then value else form.department,
      status := if field == "status" then value else form.status,
      hireDate := if field == "hireDate" then value else form.hireDate,
      profileImage := if field == "profileImage" then value else form.profileImage,
      address := if field == "address" then value else form.address,
      nssfNumber := if field == "nssfNumber" then value else form.nssfNumber)
  }

  /** Writing a text field and reading it back gives the value written; the
      numbers and the bank details stay. */
  lemma WriteThenRead(form: StaffForm, field: string, value: string)
    requires ReadText(form, field).Some?
    ensures ReadText(WriteText(form, field, value), field) == Some(value)
    ensures WriteText(form, field, value).salary == form.salary
    ensures WriteText(form, field, value).performanceScore == form.performanceScore
    ensures WriteText(form, field, value).bank == form.bank
  {
  }

  /** Writing a text field leaves every other text field as it was. */
  lemma WriteLeavesOthers(form: StaffForm, field: string, value: string, other: string)
    requires other != field
    ensures ReadText(WriteText(form, field, value), other) == ReadText(form, other)
  {
  }

  /** A name containing "bank." holds a dot, so splitting it at dots gives at
      least two pieces. */
  lemma BankFieldHasDot(field: string)
    requires Includes(field, "bank.")
    ensures |Split(field, '.')| >= 2
  {
    var i :| OccursAt(field, "bank.", i);
    assert field[i + 4] == field[i..i + 5][4];
    OccurrencesPositive(field, '.', i + 4);
  }

  /** The sub-field of `bank` a name containing "bank." designates: the piece
      after its first dot. */
  function BankField(field: string): string
    requires Includes(field, "bank.")
  {
    BankFieldHasDot(field);
    Split(field, '.')[1]
  }

  /** "bank." followed by a dot-free name designates exactly that name. */
  lemma BankFieldOfDottedName(sub: string)
    requires '.' !in sub
    ensures Includes("bank." + sub, "bank.")
    ensures BankField("bank." + sub) == sub
  {
    assert OccursAt("bank." + sub, "bank.", 0);
    assert "bank." + sub == "bank" + ['.'] + sub;
    SplitOnce("bank", sub, '.');
  }

  /** A name without a dot never designates a bank field. */
  lemma NoDotNoBankField(field: string)
    requires '.' !in field
    ensures !Includes(field, "bank.")
  {
    assert "bank."[4] == '.';
    IncludedCharsOccur(field, "bank.");
  }

  /** The names of the text fields hold no dot, so none of them designates a
      bank field. */
  lemma TextFieldIsNotBank(form: StaffForm, field: string)
    ensures ReadText(form, field).Some? ==> !Includes(field, "bank.")
  {
    if ReadText(form, field).Some? {
      assert '.' !in field;
      NoDotNoBankField(field);
    }
  }

  /** The change handler: a name containing "bank." sets that field of the
      bank details; "salary" and "performanceScore" store the number read from
      the input; any other name stores the text as typed. */
  function HandleChange(form: StaffForm, field: string, value: string, number: int): (r: StaffForm)
    ensures Includes(field, "bank.") ==> r.(bank := form.bank) == form
    ensures Includes(field, "bank.") && BankField(field) == "name" ==> r.bank == form.bank.(name := value)
    ensures Includes(field, "bank.") && BankField(field) == "accountNumber" ==>
      r.bank == form.bank.(accountNumber := value)
    ensures Includes(field, "bank.") && BankField(field) != "name" && BankField(field) != "accountNumber" ==>
      r == form
    ensures !Includes(field, "bank.") ==> r.bank == form.bank
    ensures ReadText(form, field).Some? ==> r == WriteText(form, field, value)
  {
    TextFieldIsNotBank(form, field);
    if Includes(field, "bank.") then
      var sub := BankField(field);
      if sub == "name" then form.(bank := form.bank.(name := value))
      else if sub == "accountNumber" then form.(bank := form.bank.(accountNumber := value))
      else form
    else if field == "salary" then form.(salary := number)
    else if field == "performanceScore" then form.(performanceScore := number)
    else WriteText(form, field, value)
  }

  /** The numeric fields store the number and leave every text field and the
      bank details alone. */
  lemma NumericFieldsStoreNumbers(form: StaffForm, value: string, number: int)
    ensures HandleChange(form, "salary", value, number) == form.(salary := number)
    ensures HandleChange(form, "performanceScore", value, number) == form.(performanceScore := number)
  {
    NoDotNoBankField("salary");
    NoDotNoBankField("performanceScore");
  }

  // ---------------------------------------------------------------------------
  // Adding staff

  /** Every text input the add form marks `required` holds something. The
      salary input always shows a number, so it never blocks submission. */
  predicate RequiredFilled(f: StaffForm) {
    f.employeeId != [] && f.name != [] && f.email != [] && f.phone != [] && f.role != []
    && f.department != [] && f.hireDate != [] && f.address != [] && f.nssfNumber != []
    && f.bank.name != [] && f.bank.accountNumber != []
  }

  /** The browser submits the form only when every required input is filled
      and it accepts the email input's syntax. */
  predicate Submittable(f: StaffForm, emailAccepted: bool) {
    RequiredFilled(f) && emailAccepted
  }

  /** The form as first shown cannot be submitted: its required text inputs
      start empty; only department, status and hire date are preset. */
  lemma EmptyFormNotSubmittable(today: string, emailAccepted: bool)
    ensures !Submittable(EmptyForm(today), emailAccepted)
  {
  }

  /** The id of a member added to a list of `n`: "stf(n+1)". */
  function NewId(n: nat): string {
    "stf" + DecimalString(n + 1)
  }

  /** The list after adding `form`: the existing members unchanged, followed
      by the new one carrying the next id. */
  function AddStaff(staff: seq<Staff>, form: StaffForm): (r: seq<Staff>)
    ensures |r| == |staff| + 1
    ensures r[..|staff|] == staff
    ensures r[|staff|].id == NewId(|staff|) && r[|staff|].info == form
  {
    staff + [Staff.Staff(NewId(|staff|), form)]
  }

  // ---------------------------------------------------------------------------
  // Header figures and the performance bar

  /** `Math.round(sum / n)` for a positive count: the nearest integer, halves
      rounded up. */
  function RoundedMean(sum: int, n: int): (m: int)
    requires n > 0
    ensures 2 * (m * n - sum) <= n && -n < 2 * (m * n - sum)
  {
    (2 * sum + n) / (2 * n)
  }

  function ScoreSum(staff: seq<Staff>): int {
    if staff == [] then 0 else staff[0].info.performanceScore + ScoreSum(staff[1..])
  }

  /** `new Set(staff.map(s => s.department))`. */
  function Departments(staff: seq<Staff>): set<string> {
    if staff == [] then {} else {staff[0].info.department} + Departments(staff[1..])
  }

  datatype Header = Header(totalStaff: nat, averagePerformance: int, departments: nat)

  /** The departments collected one member at a time are exactly the
      departments of the list's members. */
  lemma {:induction false} DepartmentsAreDistinctValues(staff: seq<Staff>)
    ensures Departments(staff) == set s | s in staff :: s.info.department
  {
    if staff != [] {
      DepartmentsAreDistinctValues(staff[1..]);
      assert forall s :: s in staff <==> s == staff[0] || s in staff[1..];
    }
  }

  lemma {:induction false} DepartmentsBounded(staff: seq<Staff>)
    ensures |Departments(staff)| <= |staff|
  {
    if staff != [] {
      DepartmentsBounded(staff[1..]);
    }
  }

  /** The three header figures of a staff list: its size, the mean performance
      score rounded as `Math.round` does, and the number of distinct
      departments, which never exceeds the size. */
  function HeaderOf(staff: seq<Staff>): (h: Header)
    requires staff != []
    ensures h.totalStaff == |staff|
    ensures 2 * (h.averagePerformance * |staff| - ScoreSum(staff)) <= |staff|
            && -|staff| < 2 * (h.averagePerformance * |staff| - ScoreSum(staff))
    ensures h.departments == |set s | s in staff :: s.info.department| && h.departments <= |staff|
  {
    DepartmentsBounded(staff);
    DepartmentsAreDistinctValues(staff);
    Header(|staff|, RoundedMean(ScoreSum(staff), |staff|), |Departments(staff)|)
  }

  const MockStaff: seq<Staff> := [
    Staff.Staff("stf1", StaffForm("EMP-001", "Jane Manager", "jane.m@kawempesacco.com", "+256772111222",
      "General Manager", "Management", "Active", "2020-01-15", 4500000, 95,
      "https://randomuser.me/api/portraits/women/1.jpg", "Plot 1, Kampala Road", "1234567890",
      Bank.Bank("Stanbic Bank", "9030001234567"))),
    Staff.Staff("stf2", StaffForm("EMP-002", "Peter Loan", "peter.l@kawempesacco.com", "+256782222333",
      "Senior Loan Officer", "Loans", "Active", "2021-03-10", 2800000, 92,
      "https://randomuser.me/api/portraits/men/2.jpg", "Plot 2, Entebbe Road", "2345678901",
      Bank.Bank("Centenary Bank", "2019876543"))),
    Staff.Staff("stf3", StaffForm("EMP-003", "Grace Cashier", "grace.c@kawempesacco.com", "+256752333444",
      "Head Cashier", "Operations", "Active", "2021-07-22", 2200000, 88,
      "https://randomuser.me/api/portraits/women/3.jpg", "Plot 3, Jinja Road", "3456789012",
      Bank.Bank("DFCU Bank", "0101234567890")))
  ]

  /** The header reads the initial list: 3 staff, mean score 92, 3 departments. */
  lemma MockHeader()
    ensures HeaderOf(MockStaff) == Header(3, 92, 3)
  {
    assert ScoreSum(MockStaff) == 275;
    assert Departments(MockStaff) == {"Management", "Loans", "Operations"};
  }

  datatype BarColour = Green | Blue | Yellow

  /** The performance bar: green above 90, blue above 80, yellow otherwise. */
  function PerformanceColour(score: int): (c: BarColour)
    ensures c == Green <==> score > 90
    ensures c == Blue <==> 80 < score <= 90
    ensures c == Yellow <==> score <= 80
  {
    if score > 90 then Green else if score > 80 then Blue else Yellow
  }

  function ColourRank(c: BarColour): nat {
    match c
    case Yellow => 0
    case Blue => 1
    case Green => 2
  }

  /** A higher score never gets a lower colour. */
  lemma ColourMonotone(a: int, b: int)
    requires a <= b
    ensures ColourRank(PerformanceColour(a)) <= ColourRank(PerformanceColour(b))
  {
  }

  // ---------------------------------------------------------------------------
  // Page state

  /** The staff page: the list, the drawer's staff member, the add modal and
      the form it keeps between openings. */
  class StaffPage {
    var staffList: seq<Staff>
    var viewing: Option<Staff>
    var addOpen: bool
    var form: StaffForm

    /** The page as mounted on `today`: the list starts as the initial staff. */
    constructor(today: string)
      ensures staffList == MockStaff && viewing.None? && !addOpen && form == EmptyForm(today)
    {
      staffList := MockStaff;
      viewing := None;
      addOpen := false;
      form := EmptyForm(today);
    }

    /** The header figures on screen: they are computed from the initial
        staff, so adding staff never changes them. */
    function ShownHeader(): (h: Header)
      reads this
      ensures h == Header(3, 92, 3)
    {
      MockHeader();
      HeaderOf(MockStaff)
    }

    /** One edit of the form. */
    method Change(field: string, value: string, number: int)
      modifies this
      ensures form == HandleChange(old(form), field, value, number)
      ensures staffList == old(staffList) && viewing == old(viewing) && addOpen == old(addOpen)
    {
      form := HandleChange(form, field, value, number);
    }

    /** Pressing the submit button. The browser submits only a form whose
        required inputs are filled and whose email input it accepts
        (`emailAccepted`); otherwise nothing changes. A submitted form adds its
        member at the end and closes the modal; the form keeps its contents. */
    method Submit(emailAccepted: bool)
      modifies this
      ensures Submittable(old(form), emailAccepted) ==>
        staffList == AddStaff(old(staffList), old(form)) && !addOpen
      ensures !Submittable(old(form), emailAccepted) ==>
        staffList == old(staffList) && addOpen == old(addOpen)
      ensures form == old(form) && viewing == old(viewing)
    {
      if Submittable(form, emailAccepted) {
        staffList := AddStaff(staffList, form);
        addOpen := false;
      }
    }
  }
}
