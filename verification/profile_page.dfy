/** The profile page: an editable copy of the current user's record, whose save button
    writes nothing and only reloads the user, and the skill tags read from the comma
    separated skills text. */
module ProfilePage {
  import opened Wrappers
  import opened Records
  import Js
  import Seqs
  import Constants
  import Web3Context

  datatype ProfileForm = ProfileForm(
    name: string, email: string, bio: string, skills: string, avatar: string,
    location: string, website: string, hourlyRate: string)

  const EmptyForm: ProfileForm := ProfileForm("", "", "", "", "", "", "", "")

  /** The form fields an input element can name. */
  datatype Field = Name | Email | Bio | Skills | Avatar | Location | Website | HourlyRate

  function FieldOf(form: ProfileForm, f: Field): string {
    match f
    case Name => form.name
    case Email => form.email
    case Bio => form.bio
    case Skills => form.skills
    case Avatar => form.avatar
    case Location => form.location
    case Website => form.website
    case HourlyRate => form.hourlyRate
  }

  /** `{ ...formData, [name]: value }`: only the named field changes. */
  function WithField(form: ProfileForm, f: Field, value: string): (r: ProfileForm)
    ensures FieldOf(r, f) == value
    ensures forall g :: g != f ==> FieldOf(r, g) == FieldOf(form, g)
  {
    match f
    case Name => form.(name := value)
    case Email => form.(email := value)
    case Bio => form.(bio := value)
    case Skills => form.(skills := value)
    case Avatar => form.(avatar := value)
    case Location => form.(location := value)
    case Website => form.(website := value)
    case HourlyRate => form.(hourlyRate := value)
  }

  /** The form filled from a user record, each field `user.x || ""`. */
  function FormOf(user: UserRecord): (r: ProfileForm)
    ensures r.name == user.name && r.email == user.email && r.bio == user.bio
    ensures r.skills == user.skills && r.avatar == user.avatar && r.location == user.location
    ensures r.website == user.website && r.hourlyRate == user.hourlyRate
  {
    ProfileForm(user.name, user.email, user.bio, user.skills, user.avatar, user.location,
                user.website, user.hourlyRate)
  }

  predicate NonEmpty(s: string) {
    s != ""
  }

  /** `skills.split(",").map(s => s.trim()).filter(s => s)`. */
  function SkillsArray(text: string): (r: seq<string>)
    ensures forall i :: 0 <= i < |r| ==> r[i] != "" && Js.Trim(r[i]) == r[i] && ',' !in r[i]
  {
    var trimmed := Seqs.Map(Js.Split(text, ','), Js.Trim);
    CleanTagsKept(trimmed, Js.Split(text, ','));
    Seqs.Filter(trimmed, NonEmpty)
  }

  lemma CleanTagsKept(trimmed: seq<string>, pieces: seq<string>)
    requires forall i :: 0 <= i < |pieces| ==> ',' !in pieces[i]
    requires |trimmed| == |pieces| && forall i :: 0 <= i < |pieces| ==> trimmed[i] == Js.Trim(pieces[i])
    ensures forall x :: x in Seqs.Filter(trimmed, NonEmpty) ==> x != "" && Js.Trim(x) == x && ',' !in x
  {
    TrimmedPiecesClean(pieces);
    forall x | x in Seqs.Filter(trimmed, NonEmpty) ensures x != "" && Js.Trim(x) == x && ',' !in x {
      var j :| 0 <= j < |trimmed| && trimmed[j] == x;
      assert x == Js.Trim(pieces[j]);
    }
  }

  lemma TrimmedPiecesClean(pieces: seq<string>)
    requires forall i :: 0 <= i < |pieces| ==> ',' !in pieces[i]
    ensures forall i :: 0 <= i < |pieces| ==>
      Js.Trim(Js.Trim(pieces[i])) == Js.Trim(pieces[i]) && ',' !in Js.Trim(pieces[i])
  {
    forall i | 0 <= i < |pieces|
      ensures Js.Trim(Js.Trim(pieces[i])) == Js.Trim(pieces[i]) && ',' !in Js.Trim(pieces[i])
    {
      TrimKeepsOut(pieces[i], ',');
      Js.TrimOfTrimmed(Js.Trim(pieces[i]));
    }
  }

  /** Trimming removes characters and adds none. */
  lemma TrimKeepsOut(s: string, c: char)
    requires c !in s
    ensures c !in Js.Trim(s)
  {
    var r := Js.Trim(s);
    var k :| Js.TrimmedAt(s, r, k);
    forall j | 0 <= j < |r| ensures r[j] != c {
      assert r[j] == s[k + j];
    }
  }

  /** Joining clean tags with commas and reading them back gives the same tags: the text form
      and the tag list agree. */
  lemma {:induction false} SkillsArrayJoin(tags: seq<string>)
    requires |tags| >= 1
    requires forall i :: 0 <= i < |tags| ==> tags[i] != "" && Js.Trim(tags[i]) == tags[i] && ',' !in tags[i]
    ensures SkillsArray(Js.Join(tags, ',')) == tags
  {
    Js.SplitJoin(tags, ',');
    var trimmed := Seqs.Map(tags, Js.Trim);
    assert trimmed == tags;
    Seqs.FilterKeepsAll(tags, NonEmpty);
  }

  /** A piece of the text that is not blank. */
  predicate NonBlank(s: string) {
    Js.Trim(s) != ""
  }

  /** The tags keep the order of the text; every piece that is not blank gives its trimmed
      tag, and there are as many tags as such pieces, so only the blank pieces are dropped. */
  lemma SkillsArrayOrdered(text: string)
    ensures Seqs.IsSubsequence(SkillsArray(text), Seqs.Map(Js.Split(text, ','), Js.Trim))
    ensures forall i :: 0 <= i < |Js.Split(text, ',')| && NonBlank(Js.Split(text, ',')[i]) ==>
      Js.Trim(Js.Split(text, ',')[i]) in SkillsArray(text)
    ensures |SkillsArray(text)| == Seqs.Count(Js.Split(text, ','), NonBlank)
  {
    var pieces := Js.Split(text, ',');
    var trimmed := Seqs.Map(pieces, Js.Trim);
    Seqs.FilterIsSubsequence(trimmed, NonEmpty);
    forall i | 0 <= i < |pieces| && NonBlank(pieces[i]) ensures Js.Trim(pieces[i]) in SkillsArray(text) {
      assert trimmed[i] == Js.Trim(pieces[i]) && NonEmpty(trimmed[i]);
    }
    Seqs.CountMap(pieces, Js.Trim, NonEmpty, NonBlank);
  }

  /** The hourly-rate section appears only for the string codes "1" and "2". */
  predicate ShowsHourlyRate(user: Option<UserRecord>) {
    user.Some? && (CodeIs(user.value.userType, "1") || CodeIs(user.value.userType, "2"))
  }

  /** The hourly-rate text when not editing. */
  function HourlyRateText(form: ProfileForm): (r: string)
    ensures form.hourlyRate == "" <==> r == "Not specified"
    ensures form.hourlyRate != "" ==>
      Js.StartsWith(r, form.hourlyRate) && r[|form.hourlyRate|..] == " ETH/hour"
  {
    if form.hourlyRate != "" then
      var r := form.hourlyRate + " ETH/hour";
      assert r[|r| - 1] == 'r';
      r
    else "Not specified"
  }

  /** The role badge's label: `USER_TYPES[user?.userType]`, which coerces the code. */
  function RoleLabel(user: Option<UserRecord>): Option<string> {
    if user.None? then None else Constants.UserTypeName(user.value.userType)
  }

  /** A freelancer registered through the form (code the number 1) is labelled "Freelancer"
      but, the strict comparisons failing, gets no hourly-rate section. */
  lemma NumericFreelancerProfile(user: UserRecord)
    requires user.userType == NumCode(1)
    ensures RoleLabel(Some(user)) == Some("Freelancer")
    ensures !ShowsHourlyRate(Some(user))
  {
    Constants.PropertyKeyOfNumber(1);
  }

  class ProfilePageState {
    var editing: bool
    var formData: ProfileForm
    var loading: bool
    var notice: Option<string>

    /** The page mounted with the provider's user: the form is filled from it when there is
        one. */
    constructor(user: Option<UserRecord>)
      ensures !editing && !loading && notice == None
      ensures user.Some? ==> formData == FormOf(user.value)
      ensures user.None? ==> formData == EmptyForm
    {
      editing, loading, notice := false, false, None;
      formData := if user.Some? then FormOf(user.value) else EmptyForm;
    }

    method StartEditing()
      modifies this
      ensures editing && formData == old(formData) && loading == old(loading) && notice == old(notice)
    {
      editing := true;
    }

    /** `handleChange`. */
    method HandleChange(f: Field, value: string)
      modifies this
      ensures formData == WithField(old(formData), f, value)
      ensures editing == old(editing) && loading == old(loading) && notice == old(notice)
    {
      formData := WithField(formData, f, value);
    }

    /** `handleCancel`: every field back to the user's value, edit mode left. */
    method HandleCancel(user: UserRecord)
      modifies this
      ensures formData == FormOf(user) && !editing
      ensures loading == old(loading) && notice == old(notice)
    {
      formData := FormOf(user);
      editing := false;
    }

    /** `handleSave`: writes the form nowhere; it leaves edit mode and reloads the user. A
        reloaded user replaces the form with the stored record, discarding the edits; the
        store itself is unchanged. The one-second wait is not modelled. */
    method HandleSave(p: Web3Context.Provider)
      modifies this, p
      ensures !editing && !loading && notice == Some("Profile updated successfully!")
      ensures p.Stored() == old(p.Stored()) && p.account == old(p.account)
      ensures p.Connected() ==>
        p.user == Some(Web3Context.LoadedUser(p.users, p.account.value))
        && formData == FormOf(p.user.value)
      ensures !p.Connected() ==> p.user == old(p.user) && formData == old(formData)
    {
      loading := true;
      notice := Some("Profile updated successfully!");
      editing := false;
      p.RefreshUserData();
      if p.Connected() {
        formData := FormOf(p.user.value);
      }
      loading := false;
    }
  }

  /** Editing a field and saving loses the edit: the form shows the stored record again. */
  method EditThenSave(page: ProfilePageState, p: Web3Context.Provider, value: string)
    requires p.Connected()
    modifies page, p
    ensures page.formData == FormOf(Web3Context.LoadedUser(old(p.users), old(p.account).value))
  {
    page.StartEditing();
    page.HandleChange(Name, value);
    page.HandleSave(p);
  }
}
