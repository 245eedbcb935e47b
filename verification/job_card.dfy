/** The job card: one job of the listing, with defaults for its missing fields, its skills read
    as a list whatever form they were stored in, at most three skill chips, and short labels
    for the client and the applicant count. */
module JobCard {
  import opened Wrappers
  import opened Records
  import Js
  import Seqs
  import Constants
  import Helpers

  const DefaultTitle: string := "Untitled Job"
  const DefaultDescription: string := "No description provided"
  const DefaultBudget: string := "0"
  const DefaultCategory: string := "0"
  const MaxChips: nat := 3

  /** The destructuring defaults: they apply to a missing field only, never to one present
      and empty. */
  function Title(job: Job): (r: string)
    ensures job.title.Some? ==> r == job.title.value
    ensures job.title.None? ==> r == DefaultTitle
  {
    job.title.GetOr(DefaultTitle)
  }

  function Description(job: Job): (r: string)
    ensures job.description.Some? ==> r == job.description.value
    ensures job.description.None? ==> r == DefaultDescription
  {
    job.description.GetOr(DefaultDescription)
  }

  /** The budget as the card reads it before formatting. */
  function Budget(job: Job): (r: string)
    ensures job.budget.Some? ==> r == job.budget.value
    ensures job.budget.None? ==> r == DefaultBudget
  {
    job.budget.GetOr(DefaultBudget)
  }

  /** `JOB_CATEGORIES[category] || "Other"`, the category defaulting to "0". */
  function CategoryLabel(job: Job): (r: string)
    ensures Constants.JobCategoryName(job.category.GetOr(DefaultCategory)).None? <==> r == "Other"
    ensures Constants.JobCategoryName(job.category.GetOr(DefaultCategory)).Some? ==>
      r == Constants.JobCategoryName(job.category.GetOr(DefaultCategory)).value
  {
    match Constants.JobCategoryName(job.category.GetOr(DefaultCategory))
    case Some(name) => name
    case None => "Other"
  }

  /** `skillsArray`: an array as it is, a string split on "," with every piece trimmed (empty
      pieces kept), and nothing otherwise. */
  function CardSkills(skills: Skills): (r: seq<string>)
    ensures skills.SkillList? ==> r == skills.items
    ensures skills.NoSkills? ==> r == []
    ensures skills.SkillText? ==>
      (|r| == |Js.Split(skills.text, ',')|
       && forall i :: 0 <= i < |r| ==> r[i] == Js.Trim(Js.Split(skills.text, ',')[i]))
  {
    match skills
    case SkillList(items) => items
    case SkillText(text) => Seqs.Map(Js.Split(text, ','), Js.Trim)
    case NoSkills => []
  }

  /** An empty skills string still gives one, empty, chip. */
  lemma EmptySkillTextOneBlankChip()
    ensures CardSkills(SkillText("")) == [""]
  {
    assert Js.Split("", ',') == [""];
    assert Js.Trim("") == "";
  }

  /** Tags stored as a list and the same tags stored as comma separated text give the same
      chips, when every tag is trimmed and holds no comma. */
  lemma {:induction false} TextAndListAgree(tags: seq<string>)
    requires |tags| >= 1
    requires forall i :: 0 <= i < |tags| ==> Js.Trim(tags[i]) == tags[i] && ',' !in tags[i]
    ensures CardSkills(SkillText(Js.Join(tags, ','))) == CardSkills(SkillList(tags))
  {
    Js.SplitJoin(tags, ',');
  }

  /** The chips shown: the first three skills. */
  function Chips(skills: seq<string>): (r: seq<string>)
    ensures |r| == if |skills| < MaxChips then |skills| else MaxChips
    ensures |skills| <= MaxChips ==> r == skills
    ensures forall i :: 0 <= i < |r| ==> r[i] == skills[i]
  {
    Seqs.Take(skills, MaxChips)
  }

  /** The "+k more" chip, present exactly when more than three skills exist. */
  function MoreChip(skills: seq<string>): (r: Option<string>)
    ensures r.Some? <==> |skills| > MaxChips
  {
    if |skills| > MaxChips then Some("+" + Js.IntToString(|skills| - MaxChips) + " more") else None
  }

  /** The chips shown and the number the "+k more" chip counts account for every skill. */
  lemma ChipsAccountForAll(skills: seq<string>)
    ensures |skills| > MaxChips ==> |Chips(skills)| == MaxChips
    ensures |skills| > MaxChips ==>
      MoreChip(skills) == Some("+" + Js.NatToString(|skills| - MaxChips) + " more")
    ensures |skills| > MaxChips ==>
      MoreChip(skills) == Some("+" + Js.NatToString(|skills| - |Chips(skills)|) + " more")
    ensures |skills| <= MaxChips ==> Chips(skills) == skills && MoreChip(skills).None?
  {
  }

  /** "By ..." names the client by its first six characters, "..." and its last four, which is
      what `truncateAddress` gives at its default length, or "Anonymous". */
  function ClientLabel(client: Option<string>): (r: string)
    ensures r == "Anonymous" <==> !Truthy(client)
    ensures Truthy(client) ==> r == Helpers.TruncateAddress(client, Helpers.DefaultAddressLength)
  {
    if Truthy(client) then
      var c := client.value;
      Js.SlicePrefix(c, 6);
      Js.SliceSuffix(c, 4);
      var head := Js.Slice(c, 0, 6);
      var r := head + "..." + Js.SliceFrom(c, -4);
      assert 1 <= |head| <= 6 && r[|head|] == '.';
      r
    else "Anonymous"
  }

  /** `${n} applicant${n !== 1 ? "s" : ""}`. */
  function ApplicantsLabel(n: nat): (r: string)
    ensures |r| > 10 && (r[|r| - 1] == 's' <==> n != 1)
    ensures Js.ReadsNumber(r, 0, n, if n == 1 then " applicant" else " applicants")
  {
    var r := Js.NatToString(n) + " applicant" + (if n != 1 then "s" else "");
    assert r[|r| - 1] == (if n != 1 then 's' else 't');
    assert r == "" + Js.NatToString(n) + (if n == 1 then " applicant" else " applicants");
    Js.ReadNumberBack("", n, if n == 1 then " applicant" else " applicants");
    r
  }

  /** Different counts get different labels. */
  lemma ApplicantsLabelInjective(m: nat, n: nat)
    requires ApplicantsLabel(m) == ApplicantsLabel(n)
    ensures m == n
  {
    var r := ApplicantsLabel(m);
    assert Js.ReadsNumber(r, 0, m, if m == 1 then " applicant" else " applicants");
    assert Js.ReadsNumber(r, 0, n, if n == 1 then " applicant" else " applicants");
  }

  /** The deadline line: "No deadline set" for a missing or empty deadline, else the date
      string as the browser's locale prints it (the locale format is not modelled). */
  datatype DeadlineLine = NoDeadline | LocaleDate(date: string)

  function DeadlineText(deadline: Option<string>): (r: DeadlineLine)
    ensures r.NoDeadline? <==> !Truthy(deadline)
    ensures r.LocaleDate? ==> r.date == deadline.value
  {
    if !Truthy(deadline) then NoDeadline else LocaleDate(deadline.value)
  }

  /** The posting time: `formatTimeAgo(createdAt)`, or "Just posted" for a missing or zero
      timestamp. */
  function PostedText(createdAt: Option<int>, nowMs: int): (r: string)
    ensures createdAt.None? || createdAt.value == 0 ==> r == "Just posted"
    ensures createdAt.Some? && createdAt.value != 0 ==> r == Helpers.FormatTimeAgo(createdAt.value, nowMs)
  {
    if createdAt.Some? && createdAt.value != 0 then Helpers.FormatTimeAgo(createdAt.value, nowMs)
    else "Just posted"
  }

  /** What the card renders. */
  datatype CardView = CardView(
    title: string, description: string, budget: string, clientLabel: string,
    categoryLabel: string, chips: seq<string>, more: Option<string>, deadline: DeadlineLine,
    posted: string, applicantsLabel: string)

  /** The card of a job, or nothing for a missing job. */
  function Card(job: Option<Job>, nowMs: int): (r: Option<CardView>)
    ensures r.None? <==> job.None?
    ensures r.Some? ==>
      (|r.value.chips| <= MaxChips
       && (r.value.more.Some? <==> |CardSkills(job.value.skills)| > MaxChips)
       && (r.value.clientLabel == "Anonymous" <==> !Truthy(job.value.client)))
  {
    if job.None? then None
    else
      var j := job.value;
      var skills := CardSkills(j.skills);
      Some(CardView(Title(j), Description(j), Budget(j), ClientLabel(j.client), CategoryLabel(j),
                    Chips(skills), MoreChip(skills), DeadlineText(j.deadline),
                    PostedText(j.createdAt, nowMs), ApplicantsLabel(|j.applicants.GetOr([])|)))
  }
}
