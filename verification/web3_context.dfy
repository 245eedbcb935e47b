/** The application-wide provider of the client. Its mock mode is always on, so the operations
    that would call a contract instead read and write the browser's local store: one user record
    per account under the key `user_<account>`, the job list under `jobs` and the application
    list under `applications`. The store is abstracted to typed fields (a missing `jobs` or
    `applications` entry reads as the empty list, as the code's `|| "[]"` does); the current
    time `Date.now()` is a parameter in milliseconds. */
module Web3Context {
  import opened Wrappers
  import opened Records

  /** `process.env.REACT_APP_MOCK_MODE === "true" || true`: mock mode whatever the
      environment says. */
  function MockMode(envFlag: Option<string>): (r: bool)
    ensures r
  {
    envFlag == Some("true") || true
  }

  const NotConnectedMessage: string := "Please connect your wallet first"

  /** The store key of an account's user record. */
  function UserKey(account: string): string {
    "user_" + account
  }

  /** Different accounts have different store keys, so one account's record never overwrites
      another's. */
  lemma UserKeyInjective(a: string, b: string)
    requires UserKey(a) == UserKey(b)
    ensures a == b
  {
    assert a == UserKey(a)[5..];
    assert b == UserKey(b)[5..];
  }

  /** `{ ...userData, isRegistered: true, address: account }`. */
  function NewUserRecord(data: Registration, account: string): (u: UserRecord)
    ensures u.isRegistered && u.address == account && u.userType == data.userType
    ensures u.name == data.name && u.email == data.email && u.bio == data.bio
    ensures u.skills == data.skills && u.avatar == data.avatar
  {
    UserRecord(data.name, data.email, data.bio, data.skills, data.avatar, data.userType,
               true, account, "", "", "", None)
  }

  /** The job `postJob` appends: the form's fields, `id: Date.now()`, the poster as `client`,
      status "0", the creation time in whole seconds and no applicants. */
  function NewJob(form: JobForm, account: string, nowMs: nat): (j: Job)
    ensures j.id == nowMs && j.client == Some(account) && j.status == Some("0")
    ensures j.applicants == Some([]) && j.budget == Some(form.budget)
    ensures j.createdAt == Some(nowMs / 1000) && j.skills == SkillList(form.skills)
  {
    Job(nowMs, Some(form.title), Some(form.description), Some(form.category), Some(form.budget),
        Some(form.deadline), SkillList(form.skills), Some(account), Some("0"), Some(nowMs / 1000),
        Some([]))
  }

  /** `user?.name || "Unknown"`. */
  function ApplicantName(user: Option<UserRecord>): (r: string)
    ensures r != ""
    ensures user.Some? && user.value.name != "" ==> r == user.value.name
  {
    if user.Some? && user.value.name != "" then user.value.name else "Unknown"
  }

  /** The application `applyForJob` appends: status "pending", the applicant as `freelancerId`. */
  function NewApplication(jobId: int, proposal: string, account: string, user: Option<UserRecord>,
                          nowMs: nat): (a: Application)
    ensures a.id == nowMs && a.jobId == jobId && a.freelancerId == account
    ensures a.proposal == proposal && a.status == "pending" && a.appliedAt == nowMs / 1000
  {
    Application(nowMs, jobId, account, ApplicantName(user), proposal, nowMs / 1000, "pending")
  }

  /** `{ ...job, applicants: [...(job.applicants || []), app] }`. */
  function AddApplicant(job: Job, app: Application): (r: Job)
    ensures r.applicants.Some? && r.applicants.value == job.applicants.GetOr([]) + [app]
    ensures r.(applicants := job.applicants) == job
  {
    job.(applicants := Some(job.applicants.GetOr([]) + [app]))
  }

  /** The `jobs.map(...)` of `applyForJob`: every job whose id equals `jobId` gains the
      application, every other job is kept as it is, in the same order. */
  function WithApplicant(jobs: seq<Job>, jobId: int, app: Application): (r: seq<Job>)
    ensures |r| == |jobs|
    ensures forall i :: 0 <= i < |jobs| ==>
      r[i] == if jobs[i].id == jobId then AddApplicant(jobs[i], app) else jobs[i]
  {
    if jobs == [] then []
    else [if jobs[0].id == jobId then AddApplicant(jobs[0], app) else jobs[0]]
         + WithApplicant(jobs[1..], jobId, app)
  }

  /** When no job carries the id, the job list is unchanged. */
  lemma WithApplicantNoMatch(jobs: seq<Job>, jobId: int, app: Application)
    requires forall i :: 0 <= i < |jobs| ==> jobs[i].id != jobId
    ensures WithApplicant(jobs, jobId, app) == jobs
  {
  }

  /** The update keeps every job's id (so it keeps the set of ids and their order) and adds
      exactly one applicant to each matching job. */
  lemma WithApplicantKeepsIds(jobs: seq<Job>, jobId: int, app: Application)
    ensures forall i :: 0 <= i < |jobs| ==> WithApplicant(jobs, jobId, app)[i].id == jobs[i].id
    ensures forall i :: 0 <= i < |jobs| && jobs[i].id == jobId ==>
      |WithApplicant(jobs, jobId, app)[i].applicants.value| == |jobs[i].applicants.GetOr([])| + 1
  {
  }

  /** What `loadUserData` sets the user to in mock mode: the stored record, or an
      unregistered record for the account. */
  function LoadedUser(users: map<string, UserRecord>, account: string): (u: UserRecord)
    ensures UserKey(account) in users ==> u == users[UserKey(account)]
    ensures UserKey(account) !in users ==> u == Unregistered(account)
  {
    if UserKey(account) in users then users[UserKey(account)] else Unregistered(account)
  }

  /** The persisted part of the provider's world. */
  datatype StoreState = StoreState(
    users: map<string, UserRecord>, jobs: seq<Job>, applications: seq<Application>)

  class Provider {
    var account: Option<string>
    var user: Option<UserRecord>
    /** Whether the (mock) contract object has been set. */
    var contractLoaded: bool
    /** The store's `user_<account>` entries, by key. */
    var users: map<string, UserRecord>
    /** The store's `jobs` entry. */
    var jobs: seq<Job>
    /** The store's `applications` entry. */
    var applications: seq<Application>

    /** A fresh provider over whatever the store already holds: no account, no user, no
        contract yet. */
    constructor(users0: map<string, UserRecord>, jobs0: seq<Job>, applications0: seq<Application>)
      ensures account == None && user == None && !contractLoaded
      ensures users == users0 && jobs == jobs0 && applications == applications0
    {
      account, user, contractLoaded := None, None, false;
      users, jobs, applications := users0, jobs0, applications0;
    }

    ghost function Stored(): StoreState
      reads this
    {
      StoreState(users, jobs, applications)
    }

    /** `isConnected: !!account`. */
    predicate Connected()
      reads this
    {
      Truthy(account)
    }

    /** `isRegistered: user?.isRegistered || false`. */
    predicate IsRegistered()
      reads this
    {
      IsRegisteredUser(user)
    }

    /** `loadUserData` in mock mode. */
    method LoadUserData(acct: string)
      modifies this
      ensures user == Some(LoadedUser(users, acct))
      ensures account == old(account) && contractLoaded == old(contractLoaded)
      ensures Stored() == old(Stored())
    {
      user := Some(LoadedUser(users, acct));
    }

    /** A wallet reports `acct`: the account is set, the mock contract installed and the
        user loaded (the mock branch of `loadContract`). */
    method ConnectAccount(acct: string)
      modifies this
      ensures account == Some(acct) && contractLoaded
      ensures user == Some(LoadedUser(users, acct))
      ensures Stored() == old(Stored())
    {
      account := Some(acct);
      contractLoaded := true;
      LoadUserData(acct);
    }

    /** `handleAccountsChanged`. `contractInScope` is the `contract` value the listener sees;
        the listener registered on mount sees the initial null one. */
    method HandleAccountsChanged(accounts: seq<string>, contractInScope: bool)
      modifies this
      ensures accounts == [] ==> account == None && user == None
      ensures accounts != [] ==> account == Some(accounts[0])
      ensures accounts != [] && contractInScope ==> user == Some(LoadedUser(users, accounts[0]))
      ensures accounts != [] && !contractInScope ==> user == old(user)
      ensures contractLoaded == old(contractLoaded) && Stored() == old(Stored())
    {
      if accounts == [] {
        account, user := None, None;
      } else {
        account := Some(accounts[0]);
        if contractInScope {
          LoadUserData(accounts[0]);
        }
      }
    }

    /** `disconnectWallet`: forgets the account and the user; the store keeps everything. */
    method DisconnectWallet()
      modifies this
      ensures account == None && user == None
      ensures contractLoaded == old(contractLoaded) && Stored() == old(Stored())
    {
      account, user := None, None;
    }

    /** `refreshUserData`: reloads the user of a connected account. */
    method RefreshUserData()
      modifies this
      ensures Connected() ==> user == Some(LoadedUser(users, account.value))
      ensures !Connected() ==> user == old(user)
      ensures account == old(account) && contractLoaded == old(contractLoaded)
      ensures Stored() == old(Stored())
    {
      if Connected() {
        LoadUserData(account.value);
      }
    }

    /** `registerUser` in mock mode: stores the record under the account's key, replacing any
        earlier one without asking whether the account was already registered, and makes it
        the current user. */
    method RegisterUser(data: Registration) returns (r: Result<()>)
      modifies this
      ensures account == old(account) && contractLoaded == old(contractLoaded)
      ensures !old(Connected()) ==> r == Failure(NotConnectedMessage) && user == old(user)
      ensures !old(Connected()) ==> Stored() == old(Stored())
      ensures old(Connected()) ==> r == Success(())
      ensures old(Connected()) ==>
        users == old(users)[UserKey(account.value) := NewUserRecord(data, account.value)]
      ensures old(Connected()) ==> user == Some(NewUserRecord(data, account.value))
      ensures jobs == old(jobs) && applications == old(applications)
    {
      if !Connected() {
        return Failure(NotConnectedMessage);
      }
      var newUser := NewUserRecord(data, account.value);
      users := users[UserKey(account.value) := newUser];
      user := Some(newUser);
      r := Success(());
    }

    /** `postJob` in mock mode: appends one job posted by the current account and returns its
        id. Earlier jobs stay as they were, in their order. */
    method PostJob(form: JobForm, nowMs: nat) returns (r: Result<int>)
      modifies this
      ensures account == old(account) && user == old(user)
      ensures !old(Connected()) ==> r == Failure(NotConnectedMessage) && jobs == old(jobs)
      ensures old(Connected()) ==> r == Success(nowMs)
      ensures old(Connected()) ==> jobs == old(jobs) + [NewJob(form, account.value, nowMs)]
      ensures users == old(users) && applications == old(applications)
      ensures contractLoaded == old(contractLoaded)
    {
      if !Connected() {
        return Failure(NotConnectedMessage);
      }
      var newJob := NewJob(form, account.value, nowMs);
      jobs := jobs + [newJob];
      r := Success(newJob.id);
    }

    /** `applyForJob` in mock mode: appends one pending application and adds it to the
        applicants of every job with that id. It checks neither the job's status, nor the
        user's role, nor earlier applications by the same account; an application to an id
        no job has is stored all the same. */
    method ApplyForJob(jobId: int, proposal: string, nowMs: nat) returns (r: Result<int>)
      modifies this
      ensures account == old(account) && user == old(user)
      ensures !old(Connected()) ==> r == Failure(NotConnectedMessage) && Stored() == old(Stored())
      ensures old(Connected()) ==> r == Success(nowMs)
      ensures old(Connected()) ==>
        applications == old(applications) + [NewApplication(jobId, proposal, account.value, user, nowMs)]
      ensures old(Connected()) ==>
        jobs == WithApplicant(old(jobs), jobId, NewApplication(jobId, proposal, account.value, user, nowMs))
      ensures users == old(users)
      ensures contractLoaded == old(contractLoaded)
    {
      if !Connected() {
        return Failure(NotConnectedMessage);
      }
      var app := NewApplication(jobId, proposal, account.value, user, nowMs);
      applications := applications + [app];
      jobs := WithApplicant(jobs, jobId, app);
      r := Success(app.id);
    }

    /** `getAllJobs` in mock mode: the stored job list. */
    method GetAllJobs() returns (r: seq<Job>)
      ensures r == jobs
    {
      r := jobs;
    }
  }

  /** Registering and then reconnecting the same account brings back the registered record. */
  method RegisterThenReconnect(p: Provider, data: Registration)
    requires p.Connected()
    modifies p
    ensures p.user == Some(NewUserRecord(data, old(p.account).value))
  {
    var acct := p.account.value;
    var r := p.RegisterUser(data);
    p.DisconnectWallet();
    assert p.user == None;
    p.ConnectAccount(acct);
  }

  /** Posting a job and applying to it leaves that job with exactly the one application. */
  method PostThenApply(p: Provider, form: JobForm, proposal: string, t0: nat, t1: nat)
    requires p.Connected()
    requires forall i :: 0 <= i < |p.jobs| ==> p.jobs[i].id != t0
    modifies p
    ensures |p.jobs| == |old(p.jobs)| + 1 && |p.applications| == |old(p.applications)| + 1
    ensures p.jobs[..|old(p.jobs)|] == old(p.jobs)
    ensures p.jobs[|old(p.jobs)|].applicants == Some([p.applications[|p.applications| - 1]])
  {
    var posted := p.PostJob(form, t0);
    ghost var afterPost := p.jobs;
    assert afterPost[|afterPost| - 1].id == posted.value;
    assert afterPost[|afterPost| - 1].applicants == Some([]);
    var applied := p.ApplyForJob(posted.value, proposal, t1);
    assert p.jobs[|afterPost| - 1] == AddApplicant(afterPost[|afterPost| - 1], p.applications[|p.applications| - 1]);
    assert forall i :: 0 <= i < |afterPost| - 1 ==> p.jobs[i] == afterPost[i];
    assert [] + [p.applications[|p.applications| - 1]] == [p.applications[|p.applications| - 1]];
  }
}
