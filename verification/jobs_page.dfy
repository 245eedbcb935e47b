/** The job board: it loads the provider's jobs, keeps the open ones, and narrows them by a
    free-text search and a category. Every change of the loaded jobs, the search term or the
    category re-runs the filter (the page's effect on those three values). */
module JobsPage {
  import opened Wrappers
  import opened Records
  import Js
  import Seqs
  import Web3Context

  /** `job.status === "0" || !job.status`: posted, or with no status at all. */
  predicate IsOpen(job: Job) {
    job.status == Some("0") || !Truthy(job.status)
  }

  /** The jobs `loadJobs` keeps. */
  function PostedOnly(all: seq<Job>): (r: seq<Job>)
    ensures forall i :: 0 <= i < |r| ==> IsOpen(r[i]) && r[i] in all
    ensures forall i :: 0 <= i < |all| && IsOpen(all[i]) ==> all[i] in r
    ensures Seqs.IsSubsequence(r, all) && |r| == Seqs.Count(all, IsOpen)
  {
    Seqs.FilterIsSubsequence(all, IsOpen);
    Seqs.Filter(all, IsOpen)
  }

  /** Some entry of a tag list contains `term` once lower-cased. */
  predicate SomeSkillMatches(items: seq<string>, term: string) {
    exists k :: 0 <= k < |items| && Js.Includes(Js.ToLower(items[k]), term)
  }

  /** The search test for a lower-cased `term`: the lower-cased title or description contains
      it, or some tag does. Only a tag array is searched; tags stored as one string are not
      (a string has no `some`). */
  predicate MatchesSearch(job: Job, term: string) {
    (job.title.Some? && Js.Includes(Js.ToLower(job.title.value), term))
    || (job.description.Some? && Js.Includes(Js.ToLower(job.description.value), term))
    || (job.skills.SkillList? && SomeSkillMatches(job.skills.items, term))
  }

  /** Whether a job survives both filters: the search (when the term is non-empty) and the
      category (when one is selected). */
  predicate Passes(job: Job, searchTerm: string, category: string) {
    (searchTerm == "" || MatchesSearch(job, Js.ToLower(searchTerm)))
    && (category == "" || InCategory(job, category))
  }

  /** `job.category === selectedCategory`. */
  predicate InCategory(job: Job, category: string) {
    job.category == Some(category)
  }

  /** `filterJobs` as a value: the search filter, then the category filter. */
  function Filtered(jobs: seq<Job>, searchTerm: string, category: string): (r: seq<Job>)
    ensures |r| <= |jobs|
  {
    var afterSearch := if searchTerm != "" then Seqs.Filter(jobs, j => MatchesSearch(j, Js.ToLower(searchTerm))) else jobs;
    if category != "" then Seqs.Filter(afterSearch, j => InCategory(j, category)) else afterSearch
  }

  /** A job is shown exactly when it is one of the loaded jobs and passes both filters. */
  lemma {:induction false} FilteredMembers(jobs: seq<Job>, searchTerm: string, category: string)
    ensures forall i :: 0 <= i < |Filtered(jobs, searchTerm, category)| ==>
      Filtered(jobs, searchTerm, category)[i] in jobs && Passes(Filtered(jobs, searchTerm, category)[i], searchTerm, category)
    ensures forall i :: 0 <= i < |jobs| && Passes(jobs[i], searchTerm, category) ==>
      jobs[i] in Filtered(jobs, searchTerm, category)
  {
    var term := Js.ToLower(searchTerm);
    var afterSearch := if searchTerm != "" then Seqs.Filter(jobs, j => MatchesSearch(j, term)) else jobs;
    assert forall i :: 0 <= i < |afterSearch| ==>
      (afterSearch[i] in jobs && (searchTerm == "" || MatchesSearch(afterSearch[i], term)));
    forall i | 0 <= i < |jobs| && Passes(jobs[i], searchTerm, category)
      ensures jobs[i] in afterSearch
    {
    }
  }

  /** The shown jobs are some of the loaded jobs, in their loaded order. */
  lemma {:induction false} FilteredIsSubsequence(jobs: seq<Job>, searchTerm: string, category: string)
    ensures Seqs.IsSubsequence(Filtered(jobs, searchTerm, category), jobs)
  {
    var term := Js.ToLower(searchTerm);
    var afterSearch := if searchTerm != "" then Seqs.Filter(jobs, j => MatchesSearch(j, term)) else jobs;
    if searchTerm != "" {
      Seqs.FilterIsSubsequence(jobs, j => MatchesSearch(j, term));
    } else {
      Seqs.SubsequenceReflexive(jobs);
    }
    if category != "" {
      Seqs.FilterIsSubsequence(afterSearch, j => InCategory(j, category));
      Seqs.SubsequenceTransitive(Filtered(jobs, searchTerm, category), afterSearch, jobs);
    }
  }

  /** With no search term and no category every loaded job is shown. */
  lemma NoFiltersShowAll(jobs: seq<Job>)
    ensures Filtered(jobs, "", "") == jobs
  {
  }

  /** With no search term, a category keeps exactly the jobs of that category. */
  lemma CategoryOnly(jobs: seq<Job>, category: string)
    requires category != ""
    ensures Filtered(jobs, "", category) == Seqs.Filter(jobs, j => InCategory(j, category))
  {
  }

  /** The search ignores case: a term and its lower-cased form show the same jobs. */
  lemma {:induction false} SearchIgnoresCase(jobs: seq<Job>, searchTerm: string, category: string)
    ensures Filtered(jobs, Js.ToLower(searchTerm), category) == Filtered(jobs, searchTerm, category)
  {
    Js.ToLowerIdempotent(searchTerm);
    assert (Js.ToLower(searchTerm) == "") == (searchTerm == "");
    var p := (j: Job) => MatchesSearch(j, Js.ToLower(Js.ToLower(searchTerm)));
    var q := (j: Job) => MatchesSearch(j, Js.ToLower(searchTerm));
    assert p == q;
  }

  const NoJobsText: string := "No jobs found"

  /** The result-count line. */
  function ResultCountText(n: nat): (r: string)
    ensures n == 0 <==> r == NoJobsText
    ensures n > 0 ==> Js.StartsWith(r, "Showing ")
    ensures n > 0 ==> (r[|r| - 1] == 's' <==> n != 1)
    ensures n > 0 ==> Js.ReadsNumber(r, 8, n, if n == 1 then " job" else " jobs")
  {
    if n == 0 then NoJobsText
    else
      var r := "Showing " + Js.NatToString(n) + " job" + (if n != 1 then "s" else "");
      assert r[0] == 'S' != NoJobsText[0];
      assert r == "Showing " + Js.NatToString(n) + (if n == 1 then " job" else " jobs");
      Js.ReadNumberBack("Showing ", n, if n == 1 then " job" else " jobs");
      r
  }

  /** Different counts give different lines: the line names the number of jobs it reports. */
  lemma {:induction false} ResultCountTextInjective(m: nat, n: nat)
    requires ResultCountText(m) == ResultCountText(n)
    ensures m == n
  {
    if m > 0 && n > 0 {
      var r := ResultCountText(m);
      assert Js.ReadsNumber(r, 8, m, if m == 1 then " job" else " jobs");
      assert Js.ReadsNumber(r, 8, n, if n == 1 then " job" else " jobs");
    }
  }

  class JobsPageState {
    var jobs: seq<Job>
    var filteredJobs: seq<Job>
    var loading: bool
    var searchTerm: string
    var selectedCategory: string

    constructor()
      ensures jobs == [] && filteredJobs == [] && loading
      ensures searchTerm == "" && selectedCategory == ""
    {
      jobs, filteredJobs, loading := [], [], true;
      searchTerm, selectedCategory := "", "";
    }

    /** `filterJobs`: narrows the loaded jobs step by step and stores the result. */
    method FilterJobs()
      modifies this
      ensures filteredJobs == Filtered(jobs, searchTerm, selectedCategory)
      ensures jobs == old(jobs) && loading == old(loading)
      ensures searchTerm == old(searchTerm) && selectedCategory == old(selectedCategory)
    {
      var filtered := jobs;
      if searchTerm != "" {
        var term := Js.ToLower(searchTerm);
        filtered := Seqs.Filter(filtered, j => MatchesSearch(j, term));
      }
      if selectedCategory != "" {
        var category := selectedCategory;
        filtered := Seqs.Filter(filtered, j => InCategory(j, category));
      }
      filteredJobs := filtered;
    }

    /** `loadJobs`: the open jobs of the provider, then the filter re-runs. */
    method LoadJobs(p: Web3Context.Provider)
      modifies this
      ensures jobs == PostedOnly(p.jobs) && !loading
      ensures filteredJobs == Filtered(PostedOnly(p.jobs), searchTerm, selectedCategory)
      ensures searchTerm == old(searchTerm) && selectedCategory == old(selectedCategory)
    {
      loading := true;
      var all := p.GetAllJobs();
      jobs := Seqs.Filter(all, IsOpen);
      loading := false;
      FilterJobs();
    }

    method SetSearchTerm(term: string)
      modifies this
      ensures searchTerm == term && jobs == old(jobs) && selectedCategory == old(selectedCategory)
      ensures filteredJobs == Filtered(jobs, term, selectedCategory) && loading == old(loading)
    {
      searchTerm := term;
      FilterJobs();
    }

    method SetCategory(category: string)
      modifies this
      ensures selectedCategory == category && jobs == old(jobs) && searchTerm == old(searchTerm)
      ensures filteredJobs == Filtered(jobs, searchTerm, category) && loading == old(loading)
    {
      selectedCategory := category;
      FilterJobs();
    }

    /** The clear-filters button: both filters emptied, so every loaded job is shown. */
    method ClearFilters()
      modifies this
      ensures searchTerm == "" && selectedCategory == ""
      ensures filteredJobs == jobs && jobs == old(jobs) && loading == old(loading)
    {
      searchTerm := "";
      selectedCategory := "";
      FilterJobs();
      NoFiltersShowAll(jobs);
    }

    /** The result-count line for the current list. */
    function CountText(): string
      reads this
    {
      ResultCountText(|filteredJobs|)
    }
  }
}
