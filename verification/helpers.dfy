/** The client's integer and string helpers: address and text shortening, relative times,
    deadlines, e-mail validation and the colour tables. Times are whole numbers: a timestamp
    is the integer `parseInt` reads (seconds), and "now" is a parameter in milliseconds. */
module Helpers {
  import opened Wrappers
  import opened Records
  import Js
  import Constants

  /** `truncateAddress(address, length)`, whose default length is 6. */
  function TruncateAddress(address: Option<string>, length: int): (r: string)
    ensures !Truthy(address) ==> r == ""
    ensures Truthy(address) && 0 <= length ==>
      r == (if length <= |address.value| then address.value[..length] else address.value) + "..."
           + (if 4 <= |address.value| then address.value[|address.value| - 4..] else address.value)
  {
    if !Truthy(address) then ""
    else
      var a := address.value;
      Js.SlicePrefix(a, length);
      Js.SliceSuffix(a, 4);
      Js.Slice(a, 0, length) + "..." + Js.SliceFrom(a, -4)
  }

  const DefaultAddressLength: int := 6

  /** An address of at least ten characters is shortened to its first six, "..." and its last
      four: thirteen characters whatever its length. */
  lemma TruncateAddressShape(a: string)
    requires |a| >= 10
    ensures |TruncateAddress(Some(a), DefaultAddressLength)| == 13
    ensures Js.StartsWith(TruncateAddress(Some(a), DefaultAddressLength), a[..6])
  {
  }

  /** `truncateText(text, length)`, whose default length is 100. */
  function TruncateText(text: Option<string>, length: int): (r: string)
    ensures !Truthy(text) ==> r == ""
    ensures Truthy(text) && |text.value| <= length ==> r == text.value
    ensures Truthy(text) && 0 <= length < |text.value| ==> r == text.value[..length] + "..."
  {
    if !Truthy(text) then ""
    else
      var t := text.value;
      Js.SlicePrefix(t, length);
      if |t| > length then Js.Slice(t, 0, length) + "..." else t
  }

  /** Shortening never makes a long text longer than the limit plus the three dots. */
  lemma TruncateTextBound(t: string, length: nat)
    ensures |TruncateText(Some(t), length)| <= length + 3
    ensures |TruncateText(Some(t), length)| <= |t|
      || (|t| > length && |TruncateText(Some(t), length)| == length + 3)
  {
  }

  /** A minute, hour, day, 30-day month and 12-month year in milliseconds. */
  const MinuteMs: int := 60000
  const HourMs: int := 3600000
  const DayMs: int := 86400000
  const MonthMs: int := 2592000000
  const YearMs: int := 31104000000

  /** `${n} unit${n > 1 ? "s" : ""}`. */
  function Counted(n: int, unit: string): string {
    Js.IntToString(n) + " " + unit + (if n > 1 then "s" else "")
  }

  /** The floored unit counts of a difference in milliseconds, from seconds up, as the
      source computes them one from the other. */
  lemma UnitChain(diff: int)
    ensures diff / 1000 / 60 == diff / MinuteMs
    ensures diff / 1000 / 60 / 60 == diff / HourMs
    ensures diff / 1000 / 60 / 60 / 24 == diff / DayMs
    ensures diff / 1000 / 60 / 60 / 24 / 30 == diff / MonthMs
    ensures diff / 1000 / 60 / 60 / 24 / 30 / 12 == diff / YearMs
  {
  }

  /** `formatTimeAgo(timestamp)` at time `nowMs`: the largest unit whose count is positive, or
      "Just now" below a minute (which covers every timestamp in the future). */
  function FormatTimeAgo(timestampSec: int, nowMs: int): (r: string)
    ensures nowMs - timestampSec * 1000 >= YearMs ==>
      r == Counted((nowMs - timestampSec * 1000) / YearMs, "year") + " ago"
    ensures MonthMs <= nowMs - timestampSec * 1000 < YearMs ==>
      r == Counted((nowMs - timestampSec * 1000) / MonthMs, "month") + " ago"
    ensures DayMs <= nowMs - timestampSec * 1000 < MonthMs ==>
      r == Counted((nowMs - timestampSec * 1000) / DayMs, "day") + " ago"
    ensures HourMs <= nowMs - timestampSec * 1000 < DayMs ==>
      r == Counted((nowMs - timestampSec * 1000) / HourMs, "hour") + " ago"
    ensures MinuteMs <= nowMs - timestampSec * 1000 < HourMs ==>
      r == Counted((nowMs - timestampSec * 1000) / MinuteMs, "minute") + " ago"
    ensures nowMs - timestampSec * 1000 < MinuteMs ==> r == "Just now"
  {
    var time := timestampSec * 1000;
    var diff := nowMs - time;
    var seconds := diff / 1000;
    var minutes := seconds / 60;
    var hours := minutes / 60;
    var days := hours / 24;
    var months := days / 30;
    var years := months / 12;
    UnitChain(diff);
    if years > 0 then Counted(years, "year") + " ago"
    else if months > 0 then Counted(months, "month") + " ago"
    else if days > 0 then Counted(days, "day") + " ago"
    else if hours > 0 then Counted(hours, "hour") + " ago"
    else if minutes > 0 then Counted(minutes, "minute") + " ago"
    else "Just now"
  }

  /** "Just now" is said exactly below a minute: every other answer starts with a digit. */
  lemma JustNowIffUnderAMinute(timestampSec: int, nowMs: int)
    ensures FormatTimeAgo(timestampSec, nowMs) == "Just now" <==> nowMs - timestampSec * 1000 < MinuteMs
  {
    var diff := nowMs - timestampSec * 1000;
    if diff >= MinuteMs {
      var n := if diff >= YearMs then diff / YearMs else if diff >= MonthMs then diff / MonthMs
               else if diff >= DayMs then diff / DayMs else if diff >= HourMs then diff / HourMs
               else diff / MinuteMs;
      assert n >= 1;
      assert FormatTimeAgo(timestampSec, nowMs)[0] == Js.NatToString(n)[0];
    }
  }

  /** A timestamp in the future reads "Just now". */
  lemma FutureIsJustNow(timestampSec: int, nowMs: int)
    requires timestampSec * 1000 > nowMs
    ensures FormatTimeAgo(timestampSec, nowMs) == "Just now"
  {
  }

  /** `formatDeadline(timestamp)` at time `nowMs`. */
  function FormatDeadline(timestampSec: int, nowMs: int): (r: string)
    ensures timestampSec * 1000 - nowMs < 0 <==> r == "Expired"
    ensures timestampSec * 1000 - nowMs >= DayMs ==>
      r == Counted((timestampSec * 1000 - nowMs) / DayMs, "day") + " left"
    ensures HourMs <= timestampSec * 1000 - nowMs < DayMs ==>
      r == Counted((timestampSec * 1000 - nowMs) / HourMs, "hour") + " left"
    ensures 0 <= timestampSec * 1000 - nowMs < HourMs <==> r == "Less than 1 hour left"
  {
    var diff := timestampSec * 1000 - nowMs;
    if diff < 0 then "Expired"
    else
      var days := diff / DayMs;
      var hours := (diff % DayMs) / HourMs;
      if days > 0 then
        var r := Counted(days, "day") + " left";
        assert r[0] == Js.NatToString(days)[0];
        r
      else if hours > 0 then
        var r := Counted(hours, "hour") + " left";
        assert r[0] == Js.NatToString(hours)[0];
        r
      else "Less than 1 hour left"
  }

  /** Neither white space nor "@": what `[^\s@]` matches. */
  predicate PlainChar(c: char) {
    !Js.IsSpace(c) && c != '@'
  }

  predicate AllPlain(s: string) {
    forall j :: 0 <= j < |s| ==> PlainChar(s[j])
  }

  /** `/^[^\s@]+@[^\s@]+\.[^\s@]+$/` read piece by piece: a non-empty plain local part, "@",
      a non-empty plain run, ".", and a non-empty plain run. */
  ghost predicate EmailPattern(email: string) {
    exists i, k :: 0 < i && i + 1 < k < |email| - 1 && email[i] == '@' && email[k] == '.'
      && AllPlain(email[..i]) && AllPlain(email[i + 1..k]) && AllPlain(email[k + 1..])
  }

  /** The position of the "@" in an e-mail with one. */
  predicate AtAt(email: string, i: int) {
    0 <= i < |email| && email[i] == '@'
  }

  /** The checks `validateEmail` amounts to: no white space, exactly one "@" with something
      before it, and after it a "." that is neither the first nor the last character of the
      domain. */
  predicate EmailChecks(email: string) {
    (forall j :: 0 <= j < |email| ==> !Js.IsSpace(email[j]))
    && (exists i :: 0 < i < |email| && AtAt(email, i)
          && (forall j :: 0 <= j < |email| && j != i ==> email[j] != '@')
          && exists k :: i + 1 < k < |email| - 1 && email[k] == '.')
  }

  /** `validateEmail`. */
  function ValidateEmail(email: string): (r: bool)
    ensures r <==> EmailPattern(email)
  {
    EmailPatternIff(email);
    EmailChecks(email)
  }

  lemma EmailPatternIff(email: string)
    ensures EmailPattern(email) <==> EmailChecks(email)
  {
    if EmailPattern(email) {
      PatternGivesChecks(email);
    }
    if EmailChecks(email) {
      ChecksGivePattern(email);
    }
  }

  lemma PatternGivesChecks(email: string)
    requires EmailPattern(email)
    ensures EmailChecks(email)
  {
    var i, k :| 0 < i && i + 1 < k < |email| - 1 && email[i] == '@' && email[k] == '.'
      && AllPlain(email[..i]) && AllPlain(email[i + 1..k]) && AllPlain(email[k + 1..]);
    forall j | 0 <= j < |email| && j != i ensures PlainChar(email[j]) || j == k {
      if j < i {
        assert email[j] == email[..i][j];
      } else if i < j < k {
        assert email[j] == email[i + 1..k][j - i - 1];
      } else if j > k {
        assert email[j] == email[k + 1..][j - k - 1];
      }
    }
    assert AtAt(email, i);
  }

  lemma ChecksGivePattern(email: string)
    requires EmailChecks(email)
    ensures EmailPattern(email)
  {
    var i :| 0 < i < |email| && AtAt(email, i)
      && (forall j :: 0 <= j < |email| && j != i ==> email[j] != '@')
      && exists k :: i + 1 < k < |email| - 1 && email[k] == '.';
    var k :| i + 1 < k < |email| - 1 && email[k] == '.';
    assert AllPlain(email[..i]);
    assert AllPlain(email[i + 1..k]);
    assert AllPlain(email[k + 1..]);
  }

  const GreyStatusColor: string := "bg-gray-500/20 text-gray-300 border-gray-500/30"

  /** `getJobStatusColor(name)`: a colour per status label, grey for any other name. */
  function JobStatusColor(status: string): (r: string)
    ensures status !in {"Posted", "In Progress", "Submitted", "Completed", "Cancelled", "Disputed"} ==>
      r == GreyStatusColor
    ensures status in {"Posted", "In Progress", "Submitted", "Completed", "Cancelled", "Disputed"} ==>
      r != GreyStatusColor
  {
    match status
    case "Posted" => "bg-blue-500/20 text-blue-300 border-blue-500/30"
    case "In Progress" => "bg-yellow-500/20 text-yellow-300 border-yellow-500/30"
    case "Submitted" => "bg-orange-500/20 text-orange-300 border-orange-500/30"
    case "Completed" => "bg-green-500/20 text-green-300 border-green-500/30"
    case "Cancelled" => "bg-red-500/20 text-red-300 border-red-500/30"
    case "Disputed" => "bg-purple-500/20 text-purple-300 border-purple-500/30"
    case _ => GreyStatusColor
  }

  /** Every label of the status table has its own colour; a raw status code such as "0" (not
      a label) gets the grey one. */
  lemma StatusLabelsColoured(key: string)
    requires Constants.JobStatusName(key).Some?
    ensures JobStatusColor(Constants.JobStatusName(key).value) != GreyStatusColor
    ensures JobStatusColor(key) == GreyStatusColor
  {
    if key == "0" {
    } else if key == "1" {
    } else if key == "2" {
    } else if key == "3" {
    } else if key == "4" {
    } else {
      assert key == "5";
    }
  }

  const GreyUserColor: string := "bg-gray-500/20 text-gray-300"

  /** `getUserTypeColor(name)`: a colour per role label, grey for any other name. */
  function UserTypeColor(userType: string): (r: string)
    ensures userType !in {"Client", "Freelancer", "Both"} ==> r == GreyUserColor
    ensures userType in {"Client", "Freelancer", "Both"} ==> r != GreyUserColor
  {
    match userType
    case "Client" => "bg-blue-500/20 text-blue-300"
    case "Freelancer" => "bg-green-500/20 text-green-300"
    case "Both" => "bg-purple-500/20 text-purple-300"
    case _ => GreyUserColor
  }

  /** The three role labels have three different colours. */
  lemma RoleColoursDistinct(a: Constants.Role, b: Constants.Role)
    requires a != b
    ensures UserTypeColor(Constants.RoleName(a)) != UserTypeColor(Constants.RoleName(b))
  {
  }
}
