/**
  The closed string unions of the shared domain types (src/types/index.ts) as
  datatypes, each with the text the application stores and a parser that reads
  that text back. A value outside a union is exactly a text the parser rejects.
*/
module Domain {

  datatype Option<T> = None | Some(value: T)

  /** A select-box filter: the 'all' wildcard or one value of the union. */
  datatype Choice<T> = All | Only(value: T)

  /** `filter === 'all' || x === filter`. */
  predicate Admits<T(==)>(c: Choice<T>, x: T) {
    c.All? || c.value == x
  }

  // ---------------------------------------------------------------------------
  // User role: 'admin' | 'staff' | 'member'

  datatype Role = Admin | Staff | Member

  function RoleName(r: Role): string {
    match r
    case Admin => "admin"
    case Staff => "staff"
    case Member => "member"
  }

  function ParseRole(s: string): (r: Option<Role>)
    ensures r.Some? ==> RoleName(r.value) == s
  {
    if s == "admin" then Some(Admin)
    else if s == "staff" then Some(Staff)
    else if s == "member" then Some(Member)
    else None
  }

  /** Reading back the stored text of any role gives that role. */
  lemma RoleRoundTrip(r: Role)
    ensures ParseRole(RoleName(r)) == Some(r)
  {
  }

  // ---------------------------------------------------------------------------
  // Member status: 'active' | 'inactive' | 'suspended'

  datatype MemberStatus = Active | Inactive | Suspended

  /** A user record; `memberNumber`, `employerName` and `profileImage` are optional. */
  datatype User = User(
    id: string, email: string, firstName: string, lastName: string, role: Role,
    memberNumber: Option<string>, phoneNumber: string, idNumber: string, address: string,
    employerName: Option<string>, joinDate: string, status: MemberStatus,
    profileImage: Option<string>)

  /** `Array.prototype.find`: the first element passing `p`, if any. */
  function FindFirst<T(==)>(s: seq<T>, p: T -> bool): (r: Option<T>)
    ensures r.None? <==> forall i :: 0 <= i < |s| ==> !p(s[i])
    ensures r.Some? ==> exists i :: 0 <= i < |s| && s[i] == r.value && p(s[i])
                                    && forall j :: 0 <= j < i ==> !p(s[j])
  {
    if s == [] then None
    else if p(s[0]) then Some(s[0])
    else
      var r := FindFirst(s[1..], p);
      assert forall i :: 1 <= i < |s| ==> s[i] == s[1..][i - 1];
      if r.Some? then
        var i :| 0 <= i < |s[1..]| && s[1..][i] == r.value && p(s[1..][i])
                 && forall j :: 0 <= j < i ==> !p(s[1..][j]);
        assert s[i + 1] == r.value && forall j :: 0 <= j < i + 1 ==> !p(s[j]);
        r
      else r
  }

  function HasUserId(id: string): User -> bool { (u: User) => u.id == id }

  /** `users.find(u => u.id === id)`: the first user with the id, if any. */
  function FindUser(users: seq<User>, id: string): (r: Option<User>)
    ensures r.None? <==> forall i :: 0 <= i < |users| ==> users[i].id != id
    ensures r.Some? ==> exists i :: 0 <= i < |users| && users[i] == r.value && r.value.id == id
                                    && forall j :: 0 <= j < i ==> users[j].id != id
  {
    FindFirst(users, HasUserId(id))
  }

  // ---------------------------------------------------------------------------
  // Loans

  datatype LoanType = Emergency | Development | Education | Business

  /** The declared loan status union; there is no 'rejected' member. */
  datatype LoanStatus = Pending | Approved | Disbursed | Active | Completed | Defaulted

  function LoanStatusName(s: LoanStatus): string {
    match s
    case Pending => "pending"
    case Approved => "approved"
    case Disbursed => "disbursed"
    case Active => "active"
    case Completed => "completed"
    case Defaulted => "defaulted"
  }

  function ParseLoanStatus(s: string): (r: Option<LoanStatus>)
    ensures r.Some? ==> LoanStatusName(r.value) == s
  {
    if s == "pending" then Some(LoanStatus.Pending)
    else if s == "approved" then Some(LoanStatus.Approved)
    else if s == "disbursed" then Some(Disbursed)
    else if s == "active" then Some(LoanStatus.Active)
    else if s == "completed" then Some(LoanStatus.Completed)
    else if s == "defaulted" then Some(Defaulted)
    else None
  }

  lemma LoanStatusRoundTrip(s: LoanStatus)
    ensures ParseLoanStatus(LoanStatusName(s)) == Some(s)
  {
  }

  /** The text 'rejected' is not the name of any declared loan status. */
  lemma RejectedIsNotALoanStatus()
    ensures ParseLoanStatus("rejected") == None
    ensures forall s: LoanStatus :: LoanStatusName(s) != "rejected"
  {
  }

  // ---------------------------------------------------------------------------
  // Fines

  datatype FineCategory = LatePayment | MeetingAbsence | PolicyViolation | Other

  datatype FineStatus = Pending | Paid | Waived

  // ---------------------------------------------------------------------------
  // Member onboarding: 'pending' | 'approved' | 'rejected'

  datatype OnboardingStatus = Pending | Approved | Rejected

  // ---------------------------------------------------------------------------
  // Transactions

  datatype TxType = Deposit | Withdrawal | LoanPayment | Fine | Checkoff | Transfer

  datatype TxStatus = Pending | Completed | Failed

  datatype Channel = Cash | Bank | MobileMoney | CheckoffChannel

  /** The mobile-money network of a transaction. */
  datatype Provider = Mtn | Airtel

  /** The documented rule on a transaction record: a provider is given only
      for the mobile-money channel. */
  predicate ProviderDocumented(channel: Channel, provider: Option<Provider>) {
    channel != MobileMoney ==> provider.None?
  }
}
