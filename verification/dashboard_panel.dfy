/** The dashboard panel component: statistics and recent jobs over the jobs a user posted
    (`getUserJobs`) and the jobs a user works on (`getFreelancerJobs`). The two contract
    reads are a parameter: `None` stands for a read that throws, which is what the mock
    contract does, since it has neither method. */
module DashboardPanel {
  import opened Wrappers
  import opened Records
  import Seqs
  import Web3Context

  predicate IsActive(job: Job) {
    job.status == Some("1") || job.status == Some("2")
  }

  predicate IsCompleted(job: Job) {
    job.status == Some("3")
  }

  predicate IsPosted(job: Job) {
    job.status == Some("0")
  }

  /** The whole-number statistics (the earned and spent totals are amounts of ether and are
      not modelled). */
  datatype Stats = Stats(totalJobs: nat, activeJobs: nat, completedJobs: nat, pendingApplications: nat)

  const InitialStats: Stats := Stats(0, 0, 0, 0)

  /** The statistics of `loadDashboardData` over the posted jobs followed by the worked-on
      jobs. Active and completed jobs never outnumber all jobs, each count adds up over the
      two lists, and pending applications count only the user's own posted jobs. */
  function ComputeStats(userJobs: seq<Job>, freelancerJobs: seq<Job>): (s: Stats)
    ensures s.totalJobs == |userJobs| + |freelancerJobs|
    ensures s.activeJobs + s.completedJobs <= s.totalJobs
    ensures s.activeJobs == Seqs.Count(userJobs, IsActive) + Seqs.Count(freelancerJobs, IsActive)
    ensures s.completedJobs == Seqs.Count(userJobs, IsCompleted) + Seqs.Count(freelancerJobs, IsCompleted)
    ensures s.pendingApplications == Seqs.Count(userJobs, IsPosted) && s.pendingApplications <= |userJobs|
  {
    var allJobs := userJobs + freelancerJobs;
    Seqs.CountDisjoint(allJobs, IsActive, IsCompleted);
    Seqs.CountConcat(userJobs, freelancerJobs, IsActive);
    Seqs.CountConcat(userJobs, freelancerJobs, IsCompleted);
    Stats(|allJobs|, Seqs.Count(allJobs, IsActive), Seqs.Count(allJobs, IsCompleted),
          Seqs.Count(userJobs, IsPosted))
  }

  /** Jobs a freelancer works on never add pending applications. */
  lemma PendingIgnoresFreelancerJobs(userJobs: seq<Job>, f1: seq<Job>, f2: seq<Job>)
    ensures ComputeStats(userJobs, f1).pendingApplications == ComputeStats(userJobs, f2).pendingApplications
  {
  }

  /** `allJobs.slice(-5).reverse()`: the last five jobs (or all, when fewer), newest first. */
  function RecentJobs(allJobs: seq<Job>): (r: seq<Job>)
    ensures |r| == if |allJobs| < 5 then |allJobs| else 5
    ensures forall i :: 0 <= i < |r| ==> r[i] == allJobs[|allJobs| - 1 - i]
  {
    Seqs.Reverse(Seqs.Last(allJobs, 5))
  }

  const GreyColor: string := "bg-gray-500/20 text-gray-300"

  /** `getStatusColor(status)`: a colour per code "0" to "4", grey for anything else. */
  function StatusColor(status: Option<string>): (r: string)
    ensures status.None? || status.value !in {"0", "1", "2", "3", "4"} ==> r == GreyColor
  {
    if status == Some("0") then "bg-blue-500/20 text-blue-300"
    else if status == Some("1") then "bg-yellow-500/20 text-yellow-300"
    else if status == Some("2") then "bg-orange-500/20 text-orange-300"
    else if status == Some("3") then "bg-green-500/20 text-green-300"
    else if status == Some("4") then "bg-red-500/20 text-red-300"
    else GreyColor
  }

  /** The five coloured codes have five different colours, none grey; "5" (disputed) falls to
      grey. */
  lemma StatusColorsDistinct(a: string, b: string)
    requires a in {"0", "1", "2", "3", "4"} && b in {"0", "1", "2", "3", "4"} && a != b
    ensures StatusColor(Some(a)) != StatusColor(Some(b))
    ensures StatusColor(Some(a)) != GreyColor
    ensures StatusColor(Some("5")) == GreyColor
  {
  }

  /** `user?.reputation || 0`. */
  function Reputation(user: Option<UserRecord>): (r: int)
    ensures user.None? || user.value.reputation.None? ==> r == 0
    ensures user.Some? && user.value.reputation.Some? ==> r == user.value.reputation.value
  {
    if user.Some? && user.value.reputation.Some? then user.value.reputation.value else 0
  }

  /** The "Job Master" badge. */
  predicate JobMaster(stats: Stats) {
    stats.completedJobs >= 5
  }

  /** The "Job Master" badge is earned by five completed jobs over both lists together. */
  lemma JobMasterRule(userJobs: seq<Job>, freelancerJobs: seq<Job>)
    ensures JobMaster(ComputeStats(userJobs, freelancerJobs))
      <==> Seqs.Count(userJobs + freelancerJobs, IsCompleted) >= 5
  {
    Seqs.CountConcat(userJobs, freelancerJobs, IsCompleted);
  }

  /** The "Rising Star" badge: `user?.reputation >= 1500` (a missing reputation compares
      false). */
  predicate RisingStar(user: Option<UserRecord>) {
    user.Some? && user.value.reputation.Some? && user.value.reputation.value >= 1500
  }

  /** The points still missing to the expert level. */
  function ExpertHint(user: Option<UserRecord>): (r: int)
    ensures r + Reputation(user) == 5000
  {
    5000 - Reputation(user)
  }

  /** A rising star is at most 3500 points from the expert level; without a reputation the
      hint is the whole 5000. */
  lemma RisingStarNearExpert(user: Option<UserRecord>)
    ensures RisingStar(user) ==> ExpertHint(user) <= 3500
    ensures user.None? || user.value.reputation.None? ==> ExpertHint(user) == 5000
  {
  }

  class DashboardPanelState {
    var stats: Stats
    var recentJobs: seq<Job>
    var loading: bool

    constructor()
      ensures stats == InitialStats && recentJobs == [] && loading
    {
      stats, recentJobs, loading := InitialStats, [], true;
    }

    /** `loadDashboardData` with the results of the two reads: on success the statistics and
        the recent jobs are set; a read that throws leaves both as they were. Loading ends
        false. */
    method LoadDashboardData(fetched: Option<(seq<Job>, seq<Job>)>)
      modifies this
      ensures fetched.Some? ==>
        (stats == ComputeStats(fetched.value.0, fetched.value.1)
         && recentJobs == RecentJobs(fetched.value.0 + fetched.value.1))
      ensures fetched.None? ==> stats == old(stats) && recentJobs == old(recentJobs)
      ensures !loading
    {
      loading := true;
      if fetched.Some? {
        var userJobs := fetched.value.0;
        var freelancerJobs := fetched.value.1;
        var allJobs := userJobs + freelancerJobs;
        stats := ComputeStats(userJobs, freelancerJobs);
        recentJobs := Seqs.Reverse(Seqs.Last(allJobs, 5));
      }
      loading := false;
    }

    /** The effect on the provider's contract and account: data is loaded only with both. */
    method OnContext(p: Web3Context.Provider, fetched: Option<(seq<Job>, seq<Job>)>)
      modifies this
      ensures p.contractLoaded && Truthy(p.account) ==>
        (fetched.Some? ==>
           stats == ComputeStats(fetched.value.0, fetched.value.1)
           && recentJobs == RecentJobs(fetched.value.0 + fetched.value.1))
        && !loading
      ensures !(p.contractLoaded && Truthy(p.account)) ==>
        stats == old(stats) && recentJobs == old(recentJobs) && loading == old(loading)
      ensures fetched.None? ==> stats == old(stats) && recentJobs == old(recentJobs)
    {
      if p.contractLoaded && Truthy(p.account) {
        LoadDashboardData(fetched);
      }
    }
  }

  /** Against the mock contract the reads throw, so the panel keeps its zero statistics. */
  method MockPanel(p: Web3Context.Provider) returns (panel: DashboardPanelState)
    ensures panel.stats == InitialStats && panel.recentJobs == []
  {
    panel := new DashboardPanelState();
    panel.OnContext(p, None);
  }
}
