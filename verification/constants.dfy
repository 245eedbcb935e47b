/** The lookup tables of the client's constants file: job categories, job status labels, user
    types and networks. A JavaScript object with numeric keys is indexed by the key's text, so
    `USER_TYPES[1]` and `USER_TYPES["1"]` find the same entry. */
module Constants {
  import opened Wrappers
  import opened Records
  import Js

  /** `JOB_CATEGORIES[key]`. */
  function JobCategoryName(key: string): (r: Option<string>)
    ensures r.Some? <==> key in {"0", "1", "2", "3", "4", "5", "6", "7", "8", "9", "10", "11", "12", "13", "14", "15"}
  {
    match key
    case "0" => Some("Web Development")
    case "1" => Some("Mobile Development")
    case "2" => Some("UI/UX Design")
    case "3" => Some("Content Writing")
    case "4" => Some("Digital Marketing")
    case "5" => Some("Data Science")
    case "6" => Some("Blockchain Development")
    case "7" => Some("Graphic Design")
    case "8" => Some("Video Editing")
    case "9" => Some("Translation")
    case "10" => Some("Photography")
    case "11" => Some("Music & Audio")
    case "12" => Some("Animation")
    case "13" => Some("Game Development")
    case "14" => Some("DevOps & Cloud")
    case "15" => Some("AI & Machine Learning")
    case _ => None
  }

  /** `JOB_STATUS[key]`. */
  function JobStatusName(key: string): (r: Option<string>)
    ensures r.Some? <==> key in {"0", "1", "2", "3", "4", "5"}
  {
    match key
    case "0" => Some("Posted")
    case "1" => Some("In Progress")
    case "2" => Some("Submitted")
    case "3" => Some("Completed")
    case "4" => Some("Cancelled")
    case "5" => Some("Disputed")
    case _ => None
  }

  /** `NETWORKS[id]`. */
  function NetworkLabel(id: int): (r: Option<string>)
    ensures r.Some? <==> id in {1, 3, 4, 5, 137, 80001, 56, 97}
  {
    match id
    case 1 => Some("Ethereum Mainnet")
    case 3 => Some("Ropsten Testnet")
    case 4 => Some("Rinkeby Testnet")
    case 5 => Some("Goerli Testnet")
    case 137 => Some("Polygon Mainnet")
    case 80001 => Some("Mumbai Testnet")
    case 56 => Some("BSC Mainnet")
    case 97 => Some("BSC Testnet")
    case _ => None
  }

  const SupportedNetworks: seq<int> := [1, 3, 4, 5, 137, 80001]

  /** Every supported network has a label; the two BSC networks are labelled but unsupported. */
  lemma SupportedNetworksLabelled()
    ensures forall i :: 0 <= i < |SupportedNetworks| ==> NetworkLabel(SupportedNetworks[i]).Some?
    ensures 56 !in SupportedNetworks && 97 !in SupportedNetworks
    ensures NetworkLabel(56).Some? && NetworkLabel(97).Some?
  {
  }

  /** The text a role code turns into when it is used as an object key. */
  function PropertyKey(code: RoleCode): string {
    match code
    case NumCode(n) => Js.IntToString(n)
    case StrCode(s) => s
    case NoCode => "undefined"
  }

  /** The three roles of the platform. */
  datatype Role = Client | Freelancer | Both

  function RoleName(r: Role): string {
    match r
    case Client => "Client"
    case Freelancer => "Freelancer"
    case Both => "Both"
  }

  /** `USER_TYPES[code]`. */
  function UserTypeName(code: RoleCode): (r: Option<string>)
    ensures r.Some? <==> PropertyKey(code) in {"0", "1", "2"}
  {
    match PropertyKey(code)
    case "0" => Some("Client")
    case "1" => Some("Freelancer")
    case "2" => Some("Both")
    case _ => None
  }

  /** The role a code stands for, whichever way it is stored. */
  function RoleOf(code: RoleCode): (r: Option<Role>)
    ensures code == NumCode(1) || code == StrCode("1") ==> r == Some(Freelancer)
  {
    match code
    case NumCode(n) => if n == 0 then Some(Client) else if n == 1 then Some(Freelancer)
                       else if n == 2 then Some(Both) else None
    case StrCode(s) => if s == "0" then Some(Client) else if s == "1" then Some(Freelancer)
                       else if s == "2" then Some(Both) else None
    case NoCode => None
  }

  /** Only the digits 0, 1 and 2 print as the keys "0", "1" and "2". */
  lemma {:induction false} PropertyKeyOfNumber(n: int)
    ensures Js.IntToString(n) == "0" <==> n == 0
    ensures Js.IntToString(n) == "1" <==> n == 1
    ensures Js.IntToString(n) == "2" <==> n == 2
  {
    assert Js.NatToString(0) == "0" && Js.NatToString(1) == "1" && Js.NatToString(2) == "2";
    if n >= 0 {
      if Js.NatToString(n) == "0" { Js.NatToStringInjective(n, 0); }
      if Js.NatToString(n) == "1" { Js.NatToStringInjective(n, 1); }
      if Js.NatToString(n) == "2" { Js.NatToStringInjective(n, 2); }
    } else {
      assert Js.IntToString(n)[0] == '-';
    }
  }

  /** The label table coerces its key, so it names the role of a code in either encoding:
      the table and the normalised role always agree. */
  lemma {:induction false} UserTypeNameAgreesWithRole(code: RoleCode)
    ensures UserTypeName(code).Some? <==> RoleOf(code).Some?
    ensures RoleOf(code).Some? ==> UserTypeName(code) == Some(RoleName(RoleOf(code).value))
  {
    if code.NumCode? {
      PropertyKeyOfNumber(code.n);
    }
  }
}
