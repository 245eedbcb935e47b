/** The record shapes the client keeps in its local store and passes between components: user
    records, job postings, applications and the post-job form. A field the client may find
    missing is an `Option`; string fields of a user record that are always read as `x || ""`
    are plain strings, with a missing field read as "". */
module Records {
  import opened Wrappers

  /** A stored role code. The registration form stores the numbers 0, 1 and 2; records read
      from a contract carry the strings "0", "1" and "2"; an unregistered record has none.
      JavaScript's `===` tells the three apart, so the model keeps them apart too. */
  datatype RoleCode = NumCode(n: int) | StrCode(s: string) | NoCode

  datatype UserRecord = UserRecord(
    name: string,
    email: string,
    bio: string,
    skills: string,
    avatar: string,
    userType: RoleCode,
    isRegistered: bool,
    address: string,
    location: string,
    website: string,
    hourlyRate: string,
    reputation: Option<int>)

  /** What the registration form submits. */
  datatype Registration = Registration(
    name: string, email: string, bio: string, skills: string, avatar: string, userType: RoleCode)

  /** `{ isRegistered: false, address: account }`, the record of an account with nothing stored. */
  function Unregistered(account: string): (u: UserRecord)
    ensures !u.isRegistered && u.address == account && u.userType == NoCode
  {
    UserRecord("", "", "", "", "", NoCode, false, account, "", "", "", None)
  }

  /** A job's `skills` field: an array of tags (as the post-job form stores it), a comma
      separated string (as a contract may return it), or absent / of another type. */
  datatype Skills = SkillList(items: seq<string>) | SkillText(text: string) | NoSkills

  datatype Application = Application(
    id: int,
    jobId: int,
    freelancerId: string,
    freelancerName: string,
    proposal: string,
    appliedAt: int,
    status: string)

  datatype Job = Job(
    id: int,
    title: Option<string>,
    description: Option<string>,
    category: Option<string>,
    budget: Option<string>,
    deadline: Option<string>,
    skills: Skills,
    client: Option<string>,
    status: Option<string>,
    createdAt: Option<int>,
    applicants: Option<seq<Application>>)

  /** The post-job form's `formData`. */
  datatype JobForm = JobForm(
    title: string,
    description: string,
    category: string,
    budget: string,
    deadline: string,
    skills: seq<string>)

  /** JavaScript truthiness of a string that may be missing: present and non-empty. */
  predicate Truthy(s: Option<string>) {
    s.Some? && s.value != ""
  }

  /** `user?.isRegistered`. */
  predicate IsRegisteredUser(user: Option<UserRecord>) {
    user.Some? && user.value.isRegistered
  }

  /** `user.userType === k` for a string literal `k`: only a string code can match. */
  predicate CodeIs(code: RoleCode, k: string) {
    code == StrCode(k)
  }
}
