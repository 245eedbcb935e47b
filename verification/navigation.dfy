/** The navigation bar: the public links, the links a registered user gets according to the
    role code, the mobile menu listing both, and the wallet badge's network name and colour. */
module Navigation {
  import opened Wrappers
  import opened Records
  import Seqs
  import Constants
  import ProtectedRoute

  datatype NavItem = NavItem(name: string, path: string)

  const HomeItem: NavItem := NavItem("Home", "/")
  const JobsItem: NavItem := NavItem("Jobs", "/jobs")
  const AboutItem: NavItem := NavItem("About", "/about")
  const ContactItem: NavItem := NavItem("Contact", "/contact")
  const DashboardItem: NavItem := NavItem("Dashboard", "/dashboard")
  const PostJobItem: NavItem := NavItem("Post Job", "/post-job")
  const ProfileItem: NavItem := NavItem("Profile", "/profile")

  /** `navItems`, shown to everyone. */
  const PublicItems: seq<NavItem> := [HomeItem, JobsItem, AboutItem, ContactItem]

  /** The Post Job link is offered for the string codes "0" and "2" only. */
  predicate OffersPostJob(code: RoleCode) {
    CodeIs(code, "0") || CodeIs(code, "2")
  }

  /** `userNavItems`: nothing for an unregistered user; otherwise Dashboard, then Post Job for a
      client or both, then Profile. */
  function UserNavItems(user: Option<UserRecord>): (r: seq<NavItem>)
    ensures !IsRegisteredUser(user) ==> r == []
    ensures IsRegisteredUser(user) ==>
      (|r| >= 2 && r[0] == DashboardItem && r[|r| - 1] == ProfileItem
       && (PostJobItem in r <==> OffersPostJob(user.value.userType))
       && |r| == (if OffersPostJob(user.value.userType) then 3 else 2))
  {
    if IsRegisteredUser(user) then
      [DashboardItem]
      + (if OffersPostJob(user.value.userType) then [PostJobItem] else [])
      + [ProfileItem]
    else []
  }

  /** The mobile menu: the public items followed by the user items. */
  function MobileItems(user: Option<UserRecord>): (r: seq<NavItem>)
    ensures |r| == |PublicItems| + |UserNavItems(user)|
    ensures r[..|PublicItems|] == PublicItems && r[|PublicItems|..] == UserNavItems(user)
  {
    PublicItems + UserNavItems(user)
  }

  function Names(items: seq<NavItem>): (r: seq<string>)
    ensures |r| == |items| && forall i :: 0 <= i < |r| ==> r[i] == items[i].name
  {
    Seqs.Map(items, (it: NavItem) => it.name)
  }

  function Paths(items: seq<NavItem>): (r: seq<string>)
    ensures |r| == |items| && forall i :: 0 <= i < |r| ==> r[i] == items[i].path
  {
    Seqs.Map(items, (it: NavItem) => it.path)
  }

  /** The mobile menu keys its links by name: no two links share a name or a path, whoever
      is signed in. */
  lemma MobileItemsDistinct(user: Option<UserRecord>)
    ensures Seqs.NoDuplicates(Names(MobileItems(user)))
    ensures Seqs.NoDuplicates(Paths(MobileItems(user)))
  {
    var m := MobileItems(user);
    if IsRegisteredUser(user) && OffersPostJob(user.value.userType) {
      assert m == PublicItems + [DashboardItem, PostJobItem, ProfileItem];
      LongestMenuDistinct();
    } else if IsRegisteredUser(user) {
      assert m == PublicItems + [DashboardItem, ProfileItem];
      assert Names(m) == ["Home", "Jobs", "About", "Contact", "Dashboard", "Profile"];
      assert Paths(m) == ["/", "/jobs", "/about", "/contact", "/dashboard", "/profile"];
    } else {
      assert m == PublicItems;
      assert Names(m) == ["Home", "Jobs", "About", "Contact"];
      assert Paths(m) == ["/", "/jobs", "/about", "/contact"];
    }
  }

  lemma LongestMenuDistinct()
    ensures Seqs.NoDuplicates(Names(PublicItems + [DashboardItem, PostJobItem, ProfileItem]))
    ensures Seqs.NoDuplicates(Paths(PublicItems + [DashboardItem, PostJobItem, ProfileItem]))
  {
    var m := PublicItems + [DashboardItem, PostJobItem, ProfileItem];
    var names := Names(m);
    var paths := Paths(m);
    assert names == ["Home", "Jobs", "About", "Contact", "Dashboard", "Post Job", "Profile"];
    assert paths == ["/", "/jobs", "/about", "/contact", "/dashboard", "/post-job", "/profile"];
    DistinctLiterals(names);
    DistinctLiterals(paths);
  }

  /** Strings that differ in their first two characters or in their length are different;
      a seven-entry list whose entries do so pairwise has no duplicates. */
  lemma DistinctLiterals(s: seq<string>)
    requires |s| == 7
    requires forall i, j :: 0 <= i < j < 7 ==>
      |s[i]| != |s[j]| || (|s[i]| > 1 && |s[j]| > 1 && (s[i][0] != s[j][0] || s[i][1] != s[j][1]))
    ensures Seqs.NoDuplicates(s)
  {
  }

  /** The Post Job link is narrower than the route behind it: the route (roles ["client",
      "both"]) renders for every connected, registered user, a freelancer included, while the
      link is offered only for the string codes "0" and "2". */
  lemma PostJobLinkNarrowerThanRoute(account: Option<string>, user: Option<UserRecord>)
    requires Truthy(account) && IsRegisteredUser(user)
    ensures ProtectedRoute.Decide(false, true, ["client", "both"], "/", account, user) == ProtectedRoute.Render
    ensures PostJobItem in UserNavItems(user) <==> OffersPostJob(user.value.userType)
  {
    ProtectedRoute.BothAdmitsEveryRole(false, ["client", "both"], account, user);
  }

  /** `getNetworkName(id)`. A missing id reads as the key "null", which is not in the table. */
  function NetworkName(id: Option<int>): (r: string)
    ensures r == "Unknown" <==> id.None? || id.value !in {1, 137, 56, 97, 80001}
  {
    if id.None? then "Unknown"
    else
      match id.value
      case 1 => "Ethereum"
      case 137 => "Polygon"
      case 56 => "BSC"
      case 97 => "BSC Testnet"
      case 80001 => "Mumbai"
      case _ => "Unknown"
  }

  const GreyNetwork: string := "bg-gray-500"

  /** `getNetworkColor(id)`. */
  function NetworkColor(id: Option<int>): (r: string)
    ensures r == GreyNetwork <==> id.None? || id.value !in {1, 137, 56, 97, 80001}
  {
    if id.None? then GreyNetwork
    else
      match id.value
      case 1 => "bg-blue-500"
      case 137 => "bg-purple-500"
      case 56 => "bg-yellow-500"
      case 97 => "bg-yellow-400"
      case 80001 => "bg-purple-400"
      case _ => GreyNetwork
  }

  /** The five named networks are exactly the coloured ones, each named network carries a
      label in the shared network table, and the testnets 3, 4 and 5, which that table labels,
      read "Unknown" here. */
  lemma NameAndColorAgree(id: Option<int>)
    ensures NetworkName(id) == "Unknown" <==> NetworkColor(id) == GreyNetwork
    ensures NetworkName(id) != "Unknown" ==> Constants.NetworkLabel(id.value).Some?
    ensures NetworkName(Some(3)) == "Unknown" && Constants.NetworkLabel(3).Some?
  {
    if id.Some? {
      var n := id.value;
      if n != 1 && n != 137 && n != 56 && n != 97 && n != 80001 {
        assert NetworkName(id) == "Unknown" && NetworkColor(id) == GreyNetwork;
      }
    }
  }

  /** The icon beside the role in the user menu: a strict switch over the string codes. */
  datatype RoleIcon = BriefcaseIcon | UserCheckIcon | ShieldIcon | UserIcon

  function UserTypeIcon(code: RoleCode): (r: RoleIcon)
    ensures r == UserIcon <==> !(CodeIs(code, "0") || CodeIs(code, "1") || CodeIs(code, "2"))
  {
    if CodeIs(code, "0") then BriefcaseIcon
    else if CodeIs(code, "1") then UserCheckIcon
    else if CodeIs(code, "2") then ShieldIcon
    else UserIcon
  }

  /** A user registered through the form (a numeric code) is offered no Post Job link and gets
      the plain user icon, though the role label beside it names the role. */
  lemma NumericCodeNavigation(user: UserRecord, n: int)
    requires user.isRegistered && user.userType == NumCode(n) && 0 <= n <= 2
    ensures UserNavItems(Some(user)) == [DashboardItem, ProfileItem]
    ensures UserTypeIcon(user.userType) == UserIcon
    ensures Constants.UserTypeName(user.userType).Some?
  {
    Constants.PropertyKeyOfNumber(n);
  }
}
