/** The dashboard page. For a registered user it reads all jobs from the contract object and,
    for a client (or both), keeps the jobs the account posted, comparing addresses without
    regard to case. What the contract's `getAllJobs` returns is a parameter; the mock
    contract returns the empty list, not the provider's stored jobs. */
module DashboardPage {
  import opened Wrappers
  import opened Records
  import Js
  import Seqs
  import Web3Context

  /** `job.client.toLowerCase() === account.toLowerCase()` for a job that has a client. */
  predicate SameClient(job: Job, account: string) {
    job.client.Some? && Js.ToLower(job.client.value) == Js.ToLower(account)
  }

  /** Some job has no client, so reading its `client` throws. */
  predicate SomeClientMissing(jobs: seq<Job>) {
    exists i :: 0 <= i < |jobs| && jobs[i].client.None?
  }

  /** The client filter: the account's jobs in their order, or `None` when the filter throws,
      which it does on a job without a client, or on any job at all when there is no account. */
  function ClientJobs(allJobs: seq<Job>, account: Option<string>): (r: Option<seq<Job>>)
    ensures r.None? <==> SomeClientMissing(allJobs) || (account.None? && |allJobs| > 0)
    ensures r.Some? ==> account.None? || r.value == Seqs.Filter(allJobs, j => SameClient(j, account.value))
    decreases |allJobs|
  {
    if allJobs == [] then Some([])
    else
      var j := allJobs[0];
      var rest := ClientJobs(allJobs[1..], account);
      if j.client.None? then
        assert allJobs[0].client.None?;
        None
      else if account.None? then None
      else if rest.None? then
        assert SomeClientMissing(allJobs) by {
          var i :| 0 <= i < |allJobs[1..]| && allJobs[1..][i].client.None?;
          assert allJobs[i + 1].client.None?;
        }
        None
      else
        assert !SomeClientMissing(allJobs) by {
          forall i | 0 <= i < |allJobs| ensures allJobs[i].client.Some? {
            if i > 0 {
              assert allJobs[i] == allJobs[1..][i - 1];
            }
          }
        }
        Some((if SameClient(j, account.value) then [j] else []) + rest.value)
  }

  /** The kept jobs are some of all jobs, in their order, and exactly the account's ones. */
  lemma ClientJobsAreTheAccounts(allJobs: seq<Job>, account: string)
    requires ClientJobs(allJobs, Some(account)).Some?
    ensures Seqs.IsSubsequence(ClientJobs(allJobs, Some(account)).value, allJobs)
    ensures forall i :: 0 <= i < |allJobs| ==>
      (allJobs[i] in ClientJobs(allJobs, Some(account)).value <==> SameClient(allJobs[i], account))
  {
    Seqs.FilterIsSubsequence(allJobs, j => SameClient(j, account));
  }

  /** Addresses that differ only in the case of their letters name the same client. */
  lemma ClientMatchIgnoresCase(job: Job, account: string)
    requires job.client.Some?
    ensures SameClient(job, account) <==> SameClient(job, Js.ToLower(account))
  {
    Js.ToLowerIdempotent(account);
  }

  /** The statistics the page shows, in whole numbers (spent and earned totals are amounts of
      ether and are not modelled). Setting the client statistics replaces the whole record,
      so the application counts are then missing. */
  datatype PageStats = PageStats(
    totalJobs: nat, activeJobs: nat, completedJobs: nat,
    totalApplications: Option<nat>, acceptedApplications: Option<nat>)

  const InitialStats: PageStats := PageStats(0, 0, 0, Some(0), Some(0))

  /** The client statistics: here "active" means status "0" (posted) and "completed" status
      "3", both over the client's jobs only. */
  function ClientStats(userJobs: seq<Job>): (s: PageStats)
    ensures s.totalJobs == |userJobs|
    ensures s.activeJobs == Seqs.Count(userJobs, (j: Job) => j.status == Some("0"))
    ensures s.completedJobs == Seqs.Count(userJobs, (j: Job) => j.status == Some("3"))
    ensures s.activeJobs + s.completedJobs <= s.totalJobs
    ensures s.totalApplications.None? && s.acceptedApplications.None?
  {
    Seqs.CountDisjoint(userJobs, (j: Job) => j.status == Some("0"), (j: Job) => j.status == Some("3"));
    PageStats(|userJobs|, Seqs.Count(userJobs, (j: Job) => j.status == Some("0")),
              Seqs.Count(userJobs, (j: Job) => j.status == Some("3")), None, None)
  }

  /** The client branch runs for the string codes "0" and "2". */
  predicate ClientBranch(code: RoleCode) {
    CodeIs(code, "0") || CodeIs(code, "2")
  }

  /** The freelancer branch runs for the string codes "1" and "2". */
  predicate FreelancerBranch(code: RoleCode) {
    CodeIs(code, "1") || CodeIs(code, "2")
  }

  class DashboardPageState {
    var loading: bool
    var stats: PageStats
    var recentJobs: seq<Job>
    var recentApplications: seq<Application>

    constructor()
      ensures loading && stats == InitialStats && recentJobs == [] && recentApplications == []
    {
      loading, stats, recentJobs, recentApplications := true, InitialStats, [], [];
    }

    /** `loadDashboardData` for the registered user of `p`. Without a contract nothing is
        read. A client gets the first five of its jobs and their statistics; a throwing
        filter stops the load; a freelancer's recent applications are emptied. Loading ends
        false. */
    method LoadDashboardData(p: Web3Context.Provider, contractJobs: seq<Job>)
      requires IsRegisteredUser(p.user)
      modifies this
      ensures !loading
      ensures !p.contractLoaded || !ClientBranch(p.user.value.userType) ==>
        stats == old(stats) && recentJobs == old(recentJobs)
      ensures (p.contractLoaded && ClientBranch(p.user.value.userType)
               && ClientJobs(contractJobs, p.account).Some?) ==>
        recentJobs == Seqs.Take(ClientJobs(contractJobs, p.account).value, 5)
        && stats == ClientStats(ClientJobs(contractJobs, p.account).value)
      ensures (p.contractLoaded && ClientBranch(p.user.value.userType)
               && ClientJobs(contractJobs, p.account).None?) ==>
        stats == old(stats) && recentJobs == old(recentJobs) && recentApplications == old(recentApplications)
      ensures (p.contractLoaded && FreelancerBranch(p.user.value.userType)
               && !(ClientBranch(p.user.value.userType) && ClientJobs(contractJobs, p.account).None?)) ==>
        recentApplications == []
      ensures !p.contractLoaded || !FreelancerBranch(p.user.value.userType) ==>
        recentApplications == old(recentApplications)
    {
      loading := true;
      if p.contractLoaded {
        var code := p.user.value.userType;
        var threw := false;
        if CodeIs(code, "0") || CodeIs(code, "2") {
          var userJobs := ClientJobs(contractJobs, p.account);
          if userJobs.None? {
            threw := true;
          } else {
            recentJobs := Seqs.Take(userJobs.value, 5);
            stats := ClientStats(userJobs.value);
          }
        }
        if !threw && (CodeIs(code, "1") || CodeIs(code, "2")) {
          recentApplications := [];
        }
      }
      loading := false;
    }

    /** The effect on the provider's user, contract and account: data is loaded only for a
        registered user; otherwise the page keeps its spinner. */
    method OnContext(p: Web3Context.Provider, contractJobs: seq<Job>)
      modifies this
      ensures !IsRegisteredUser(p.user) ==>
        loading == old(loading) && stats == old(stats) && recentJobs == old(recentJobs)
      ensures IsRegisteredUser(p.user) ==> !loading
      ensures IsRegisteredUser(p.user) && (!p.contractLoaded || !ClientBranch(p.user.value.userType)) ==>
        stats == old(stats) && recentJobs == old(recentJobs)
      ensures (IsRegisteredUser(p.user) && p.contractLoaded && ClientBranch(p.user.value.userType)
               && ClientJobs(contractJobs, p.account).Some?) ==>
        recentJobs == Seqs.Take(ClientJobs(contractJobs, p.account).value, 5)
        && stats == ClientStats(ClientJobs(contractJobs, p.account).value)
      ensures (IsRegisteredUser(p.user) && p.contractLoaded && ClientBranch(p.user.value.userType)
               && ClientJobs(contractJobs, p.account).None?) ==>
        stats == old(stats) && recentJobs == old(recentJobs) && recentApplications == old(recentApplications)
      ensures (IsRegisteredUser(p.user) && p.contractLoaded && FreelancerBranch(p.user.value.userType)
               && !(ClientBranch(p.user.value.userType) && ClientJobs(contractJobs, p.account).None?)) ==>
        recentApplications == []
      ensures !IsRegisteredUser(p.user) || !p.contractLoaded || !FreelancerBranch(p.user.value.userType) ==>
        recentApplications == old(recentApplications)
    {
      if IsRegisteredUser(p.user) {
        LoadDashboardData(p, contractJobs);
      }
    }
  }

  /** A registered client on the mock contract (which returns no jobs) sees no recent jobs
      and zero statistics, whatever the provider has stored. */
  method MockClientDashboard(p: Web3Context.Provider) returns (page: DashboardPageState)
    requires IsRegisteredUser(p.user) && p.contractLoaded && CodeIs(p.user.value.userType, "0")
    ensures page.recentJobs == [] && page.stats.totalJobs == 0 && !page.loading
  {
    page := new DashboardPageState();
    page.LoadDashboardData(p, []);
  }

  /** A user whose record holds a numeric code, as the registration form stores it, runs
      neither branch: the page keeps its initial statistics. */
  method NumericCodeDashboard(p: Web3Context.Provider, contractJobs: seq<Job>) returns (page: DashboardPageState)
    requires IsRegisteredUser(p.user) && p.user.value.userType.NumCode?
    ensures page.stats == InitialStats && page.recentJobs == [] && !page.loading
  {
    page := new DashboardPageState();
    page.LoadDashboardData(p, contractJobs);
  }
}
