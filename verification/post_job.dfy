/** The post-job page: a form with a skill-tag list, and a submit handler that runs four
    checks in a fixed order before it hands the form to the provider's `postJob`. */
module PostJob {
  import opened Wrappers
  import opened Records
  import Js
  import Seqs
  import Web3Context

  /** The form fields an input element can name. */
  datatype Field = Title | Description | Category | Budget | Deadline

  function FieldOf(form: JobForm, f: Field): string {
    match f
    case Title => form.title
    case Description => form.description
    case Category => form.category
    case Budget => form.budget
    case Deadline => form.deadline
  }

  /** `{ ...formData, [name]: value }`: the named field takes the value and nothing else
      changes. */
  function WithField(form: JobForm, f: Field, value: string): (r: JobForm)
    ensures FieldOf(r, f) == value
    ensures forall g :: g != f ==> FieldOf(r, g) == FieldOf(form, g)
    ensures r.skills == form.skills
  {
    match f
    case Title => form.(title := value)
    case Description => form.(description := value)
    case Category => form.(category := value)
    case Budget => form.(budget := value)
    case Deadline => form.(deadline := value)
  }

  /** The empty form the page starts with; the category defaults to "0". */
  const InitialForm: JobForm := JobForm("", "", "0", "", "", [])

  /** Whether `addSkill` accepts the input: its trim is non-empty and not yet a tag. */
  predicate AcceptsSkill(skills: seq<string>, input: string) {
    Js.Trim(input) != "" && Js.Trim(input) !in skills
  }

  /** The tag list after `addSkill`: the trimmed input appended when accepted, else the list
      as it was. */
  function WithSkill(skills: seq<string>, input: string): (r: seq<string>)
    ensures AcceptsSkill(skills, input) ==> r == skills + [Js.Trim(input)]
    ensures !AcceptsSkill(skills, input) ==> r == skills
  {
    if AcceptsSkill(skills, input) then skills + [Js.Trim(input)] else skills
  }

  /** Adding a tag never creates a duplicate, and every tag is its own trim and non-empty. */
  lemma WithSkillKeepsTagsClean(skills: seq<string>, input: string)
    requires Seqs.NoDuplicates(skills)
    ensures Seqs.NoDuplicates(WithSkill(skills, input))
    ensures AcceptsSkill(skills, input) ==> WithSkill(skills, input)[|skills|] != ""
  {
  }

  /** The tag list after a series of `addSkill` calls with the given inputs. */
  function AddAll(skills: seq<string>, inputs: seq<string>): seq<string>
    decreases |inputs|
  {
    if inputs == [] then skills else AddAll(WithSkill(skills, inputs[0]), inputs[1..])
  }

  /** Starting from an empty list (or any list without duplicates), any series of `addSkill`
      calls leaves a list without duplicates. */
  lemma {:induction false} AddAllNoDuplicates(skills: seq<string>, inputs: seq<string>)
    requires Seqs.NoDuplicates(skills)
    ensures Seqs.NoDuplicates(AddAll(skills, inputs))
    decreases |inputs|
  {
    if inputs != [] {
      WithSkillKeepsTagsClean(skills, inputs[0]);
      AddAllNoDuplicates(WithSkill(skills, inputs[0]), inputs[1..]);
    }
  }

  /** The tag list after `removeSkill(s)`: every copy of `s` gone, the other tags kept in
      their order. */
  function WithoutSkill(skills: seq<string>, s: string): (r: seq<string>)
    ensures s !in r
    ensures forall i :: 0 <= i < |skills| && skills[i] != s ==> skills[i] in r
    ensures forall i :: 0 <= i < |r| ==> r[i] in skills
  {
    Seqs.Filter(skills, t => t != s)
  }

  /** Removal keeps the order of the remaining tags and keeps a list without duplicates free
      of them. */
  lemma WithoutSkillOrdered(skills: seq<string>, s: string)
    ensures Seqs.IsSubsequence(WithoutSkill(skills, s), skills)
    ensures Seqs.NoDuplicates(skills) ==> Seqs.NoDuplicates(WithoutSkill(skills, s))
  {
    Seqs.FilterIsSubsequence(skills, t => t != s);
    if Seqs.NoDuplicates(skills) {
      Seqs.FilterNoDuplicates(skills, t => t != s);
    }
  }

  /** Removing a tag right after adding it gives back the list as it was. */
  lemma {:induction false} AddThenRemove(skills: seq<string>, input: string)
    requires Js.Trim(input) !in skills
    ensures WithoutSkill(WithSkill(skills, input), Js.Trim(input)) == skills
  {
    var t := Js.Trim(input);
    var p := (x: string) => x != t;
    assert forall i :: 0 <= i < |skills| ==> p(skills[i]);
    Seqs.FilterKeepsAll(skills, p);
    if AcceptsSkill(skills, input) {
      Seqs.FilterConcat(skills, [t], p);
      assert Seqs.Filter([t], p) == [];
    }
  }

  const ConnectMessage: string := "Please connect your wallet first"
  const RegisterMessage: string := "Please register first"
  const ClientsOnlyMessage: string := "Only clients can post jobs"
  const SkillsMessage: string := "Please add at least one skill requirement"

  /** The checks `handleSubmit` makes before posting, in their order: the first that fails
      gives its message, and `None` means the job is posted. */
  function SubmitGuard(account: Option<string>, user: Option<UserRecord>, skills: seq<string>): (r: Option<string>)
    ensures !Truthy(account) ==> r == Some(ConnectMessage)
    ensures Truthy(account) && !IsRegisteredUser(user) ==> r == Some(RegisterMessage)
    ensures Truthy(account) && IsRegisteredUser(user) && CodeIs(user.value.userType, "1") ==>
      r == Some(ClientsOnlyMessage)
    ensures Truthy(account) && IsRegisteredUser(user) && !CodeIs(user.value.userType, "1") && |skills| == 0 ==>
      r == Some(SkillsMessage)
    ensures r.None? <==>
      (Truthy(account) && IsRegisteredUser(user) && !CodeIs(user.value.userType, "1") && |skills| > 0)
  {
    if !Truthy(account) then Some(ConnectMessage)
    else if !IsRegisteredUser(user) then Some(RegisterMessage)
    else if CodeIs(user.value.userType, "1") then Some(ClientsOnlyMessage)
    else if |skills| == 0 then Some(SkillsMessage)
    else None
  }

  /** The strict-equality check against "1" lets through a freelancer whose record holds the
      number 1, which is what the registration form stores. */
  lemma NumericFreelancerPassesGuard(account: string, user: UserRecord, skills: seq<string>)
    requires account != "" && user.isRegistered && user.userType == NumCode(1) && |skills| > 0
    ensures SubmitGuard(Some(account), Some(user), skills) == None
  {
  }

  const RejectedMessage: string := "Transaction was rejected"
  const FundsMessage: string := "Insufficient funds for transaction"
  const GenericFailureMessage: string := "Failed to post job. Please try again."
  const PostedMessage: string := "Job posted successfully!"

  /** The notice shown for a failed post, chosen by what the error message contains. */
  function ClassifyPostError(message: string): (r: string)
    ensures Js.Includes(message, "User rejected") ==> r == RejectedMessage
    ensures !Js.Includes(message, "User rejected") && Js.Includes(message, "insufficient funds") ==>
      r == FundsMessage
    ensures r == GenericFailureMessage <==>
      !Js.Includes(message, "User rejected") && !Js.Includes(message, "insufficient funds")
  {
    if Js.Includes(message, "User rejected") then RejectedMessage
    else if Js.Includes(message, "insufficient funds") then FundsMessage
    else GenericFailureMessage
  }

  /** A wallet message naming both causes is reported as a rejection. */
  lemma {:induction false} RejectionWinsOverFunds(prefix: string, suffix: string)
    ensures ClassifyPostError(prefix + "User rejected" + suffix) == RejectedMessage
  {
    var m := prefix + "User rejected" + suffix;
    assert m[|prefix|..|prefix| + |"User rejected"|] == "User rejected";
    assert Js.OccursAt(m, "User rejected", |prefix|);
    Js.IncludesAt(m, "User rejected");
  }

  /** What the page shows before the form: a registration prompt, the clients-only notice or
      the form. */
  datatype View = RegistrationRequired | AccessDenied | FormView

  function PageView(user: Option<UserRecord>): (v: View)
    ensures v == FormView <==> IsRegisteredUser(user) && !CodeIs(user.value.userType, "1")
  {
    if !IsRegisteredUser(user) then RegistrationRequired
    else if CodeIs(user.value.userType, "1") then AccessDenied
    else FormView
  }

  class PostJobPage {
    var form: JobForm
    var skillInput: string
    var loading: bool
    /** The last notice popped up, if any. */
    var notice: Option<string>
    /** Where the page navigated to, if anywhere. */
    var navigatedTo: Option<string>

    constructor()
      ensures form == InitialForm && skillInput == "" && !loading
      ensures notice == None && navigatedTo == None
    {
      form, skillInput, loading := InitialForm, "", false;
      notice, navigatedTo := None, None;
    }

    /** `handleChange` for the input named `f`. */
    method HandleChange(f: Field, value: string)
      modifies this
      ensures form == WithField(old(form), f, value)
      ensures skillInput == old(skillInput) && loading == old(loading)
      ensures notice == old(notice) && navigatedTo == old(navigatedTo)
    {
      form := WithField(form, f, value);
    }

    /** Typing into the skill input. */
    method SetSkillInput(value: string)
      modifies this
      ensures skillInput == value && form == old(form) && loading == old(loading)
      ensures notice == old(notice) && navigatedTo == old(navigatedTo)
    {
      skillInput := value;
    }

    /** `addSkill`: an accepted tag is appended and the input cleared; a rejected one leaves
        both the tags and the input as they were. */
    method AddSkill()
      modifies this
      ensures form == old(form).(skills := WithSkill(old(form.skills), old(skillInput)))
      ensures AcceptsSkill(old(form.skills), old(skillInput)) ==> skillInput == ""
      ensures !AcceptsSkill(old(form.skills), old(skillInput)) ==> skillInput == old(skillInput)
      ensures loading == old(loading) && notice == old(notice) && navigatedTo == old(navigatedTo)
    {
      var skill := Js.Trim(skillInput);
      if skill != "" && skill !in form.skills {
        form := form.(skills := form.skills + [skill]);
        skillInput := "";
      }
    }

    /** `removeSkill`. */
    method RemoveSkill(s: string)
      modifies this
      ensures form == old(form).(skills := WithoutSkill(old(form.skills), s))
      ensures skillInput == old(skillInput) && loading == old(loading)
      ensures notice == old(notice) && navigatedTo == old(navigatedTo)
    {
      form := form.(skills := Seqs.Filter(form.skills, t => t != s));
    }

    /** `handleSubmit`: a failing check shows its message and posts nothing; otherwise the form
        is posted through the provider, the page goes to the dashboard and loading ends false. */
    method HandleSubmit(ledger: Web3Context.Provider, nowMs: nat)
      modifies this, ledger
      ensures form == old(form) && skillInput == old(skillInput)
      ensures ledger.account == old(ledger.account) && ledger.user == old(ledger.user)
      ensures ledger.users == old(ledger.users) && ledger.applications == old(ledger.applications)
      ensures ledger.contractLoaded == old(ledger.contractLoaded)
      ensures SubmitGuard(old(ledger.account), old(ledger.user), old(form.skills)).Some? ==>
        notice == SubmitGuard(old(ledger.account), old(ledger.user), old(form.skills))
        && ledger.jobs == old(ledger.jobs) && loading == old(loading) && navigatedTo == old(navigatedTo)
      ensures SubmitGuard(old(ledger.account), old(ledger.user), old(form.skills)).None? ==>
        ledger.jobs == old(ledger.jobs) + [Web3Context.NewJob(old(form), old(ledger.account).value, nowMs)]
        && notice == Some(PostedMessage) && navigatedTo == Some("/dashboard") && !loading
    {
      var blocked := SubmitGuard(ledger.account, ledger.user, form.skills);
      if blocked.Some? {
        notice := blocked;
        return;
      }
      loading := true;
      var r := ledger.PostJob(form, nowMs);
      // The mock `postJob` fails only without an account, which the first check excludes;
      // a failure would be reported through `ClassifyPostError`.
      notice := Some(match r case Success(_) => PostedMessage case Failure(e) => ClassifyPostError(e));
      if r.Success? {
        navigatedTo := Some("/dashboard");
      }
      loading := false;
    }
  }

  /** Filling in the form and submitting it as a connected client posts a job carrying the
      typed title and the added tag. */
  method PostOneTag(page: PostJobPage, ledger: Web3Context.Provider, title: string, tag: string, nowMs: nat)
    requires page.form == InitialForm
    requires Truthy(ledger.account) && IsRegisteredUser(ledger.user)
    requires !CodeIs(ledger.user.value.userType, "1")
    requires Js.Trim(tag) != ""
    modifies page, ledger
    ensures |ledger.jobs| == |old(ledger.jobs)| + 1
    ensures ledger.jobs[|ledger.jobs| - 1].title == Some(title)
    ensures ledger.jobs[|ledger.jobs| - 1].skills == SkillList([Js.Trim(tag)])
  {
    page.HandleChange(Title, title);
    page.SetSkillInput(tag);
    page.AddSkill();
    assert page.form.skills == [Js.Trim(tag)] && page.form.title == title;
    assert SubmitGuard(ledger.account, ledger.user, page.form.skills) == None;
    page.HandleSubmit(ledger, nowMs);
  }
}
