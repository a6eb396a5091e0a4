/**
 * What the two chat-listing pages (PDF chats and URL chats) share, written
 * identically in both: the relative-time label of a chat's last activity,
 * the message shown when fetching the list fails, and the choice between the
 * spinner, the error view and the list.
 */
module Listing {
  import opened Wrappers
  import opened Text
  import Json

  /** How long ago something happened, as formatRelativeTime buckets it. */
  datatype Age = JustNow | MinutesAgo(n: nat) | HoursAgo(n: nat) | DaysAgo(n: nat) | OverAWeek

  /**
   * The bucket of a whole number of seconds elapsed (negative when the
   * timestamp lies in the future). The buckets are tried in order, are
   * disjoint and cover every difference; each count is the floor of the
   * difference in its unit and so lies in 1..59, 1..23 or 1..6.
   */
  function AgeOf(diff: int): (a: Age)
    ensures a.JustNow? <==> diff < 60
    ensures a.MinutesAgo? <==> 60 <= diff < 3600
    ensures a.HoursAgo? <==> 3600 <= diff < 86400
    ensures a.DaysAgo? <==> 86400 <= diff < 604800
    ensures a.OverAWeek? <==> 604800 <= diff
    ensures a.MinutesAgo? ==> 1 <= a.n <= 59 && a.n * 60 <= diff < a.n * 60 + 60
    ensures a.HoursAgo? ==> 1 <= a.n <= 23 && a.n * 3600 <= diff < a.n * 3600 + 3600
    ensures a.DaysAgo? ==> 1 <= a.n <= 6 && a.n * 86400 <= diff < a.n * 86400 + 86400
  {
    if diff < 60 then JustNow
    else if diff < 3600 then MinutesAgo(diff / 60)
    else if diff < 86400 then HoursAgo(diff / 3600)
    else if diff < 604800 then DaysAgo(diff / 86400)
    else OverAWeek
  }

  /** A later moment never lands in an earlier bucket, nor in a smaller count of the same unit. */
  function Rank(a: Age): nat
  {
    match a
    case JustNow => 0
    case MinutesAgo(_) => 1
    case HoursAgo(_) => 2
    case DaysAgo(_) => 3
    case OverAWeek => 4
  }

  function Count(a: Age): nat
  {
    match a
    case MinutesAgo(n) => n
    case HoursAgo(n) => n
    case DaysAgo(n) => n
    case _ => 0
  }

  lemma AgeOfMonotonic(d1: int, d2: int)
    requires d1 <= d2
    ensures Rank(AgeOf(d1)) <= Rank(AgeOf(d2))
    ensures Rank(AgeOf(d1)) == Rank(AgeOf(d2)) ==> Count(AgeOf(d1)) <= Count(AgeOf(d2))
  {
    var a1, a2 := AgeOf(d1), AgeOf(d2);
    if Rank(a1) == Rank(a2) {
      if a1.MinutesAgo? {
        assert a1.n * 60 <= d1 <= d2 < a2.n * 60 + 60;
      } else if a1.HoursAgo? {
        assert a1.n * 3600 <= d1 <= d2 < a2.n * 3600 + 3600;
      } else if a1.DaysAgo? {
        assert a1.n * 86400 <= d1 <= d2 < a2.n * 86400 + 86400;
      }
    }
  }

  /** `${n}m ago`, `${n}h ago` or `${n}d ago`. */
  function CountText(n: nat, unit: char): (r: string)
    ensures |r| >= 5 && r[|r| - 4..] == " ago"
  {
    NatToString(n) + [unit] + " ago"
  }

  /** The text shown for a bucket; beyond a week it is the locale date. */
  function Label(a: Age, localeDate: string): (r: string)
    ensures a.OverAWeek? ==> r == localeDate
    ensures !a.OverAWeek? ==> r != "" && r != "Unknown time"
  {
    assert "Unknown time"[8..] != " ago";
    match a
    case JustNow => "just now"
    case MinutesAgo(n) => CountText(n, 'm')
    case HoursAgo(n) => CountText(n, 'h')
    case DaysAgo(n) => CountText(n, 'd')
    case OverAWeek => localeDate
  }

  predicate AllDigits(s: string)
  {
    forall i :: 0 <= i < |s| ==> IsDigit(s[i])
  }

  /** Reads a "<n><unit> ago" label back; `unit` is 'm', 'h' or 'd'. */
  function ParseCount(s: string, unit: char): Option<nat>
  {
    if |s| > 5 && s[|s| - 5..] == [unit] + " ago" && AllDigits(s[..|s| - 5])
    then Some(ParseNat(s[..|s| - 5]))
    else None
  }

  /** The inverse of Label on every bucket but the locale date. */
  function ParseLabel(s: string): Option<Age>
  {
    if s == "just now" then Some(JustNow)
    else if ParseCount(s, 'm').Some? then Some(MinutesAgo(ParseCount(s, 'm').value))
    else if ParseCount(s, 'h').Some? then Some(HoursAgo(ParseCount(s, 'h').value))
    else if ParseCount(s, 'd').Some? then Some(DaysAgo(ParseCount(s, 'd').value))
    else None
  }

  lemma NotJustNow(s: string)
    requires |s| > 0 && IsDigit(s[0])
    ensures s != "just now"
  {
    assert !IsDigit("just now"[0]);
  }

  lemma CountLabel(n: nat, unit: char)
    ensures ParseCount(CountText(n, unit), unit) == Some(n)
    ensures forall other :: other != unit ==> ParseCount(CountText(n, unit), other).None?
    ensures CountText(n, unit) != "just now"
  {
    var digits := NatToString(n);
    var s := CountText(n, unit);
    NotJustNow(s);
    assert s[..|s| - 5] == digits;
    assert s[|s| - 5..] == [unit] + " ago";
    ParseNatToString(n);
    forall other | other != unit
      ensures ParseCount(s, other).None?
    {
      assert s[|s| - 5..][0] == unit;
    }
  }

  /** Relative-time labels lose nothing: each one reads back as its bucket, so distinct buckets never share a label. */
  lemma LabelRoundTrip(a: Age, localeDate: string)
    requires !a.OverAWeek?
    ensures ParseLabel(Label(a, localeDate)) == Some(a)
  {
    match a
    case JustNow =>
    case MinutesAgo(n) =>
      CountLabel(n, 'm');
    case HoursAgo(n) =>
      CountLabel(n, 'h');
    case DaysAgo(n) =>
      CountLabel(n, 'd');
  }

  lemma LabelReadsBack(a: Age, localeDate: string)
    ensures !a.OverAWeek? ==> ParseLabel(Label(a, localeDate)) == Some(a)
  {
    if !a.OverAWeek? {
      LabelRoundTrip(a, localeDate);
    }
  }

  /**
   * formatRelativeTime: a falsy date (missing, null or "") is "Unknown time";
   * otherwise the label of the elapsed seconds. Parsing the date and reading
   * the clock are inputs: `diff` is the whole seconds elapsed and
   * `localeDate` the date as toLocaleDateString renders it.
   */
  function FormatRelativeTime(dateString: Json.Value, diff: int, localeDate: string): (r: string)
    ensures !Json.JsTruthy(dateString) ==> r == "Unknown time"
    ensures Json.JsTruthy(dateString) && diff < 604800 ==> ParseLabel(r) == Some(AgeOf(diff))
    ensures Json.JsTruthy(dateString) && diff < 60 ==> r == "just now"
    ensures Json.JsTruthy(dateString) && diff >= 604800 ==> r == localeDate
  {
    if !Json.JsTruthy(dateString) then "Unknown time"
    else
      var a := AgeOf(diff);
      LabelReadsBack(a, localeDate);
      Label(a, localeDate)
  }

  /** The clock and locale, as functions of a record's `last_activity` value. */
  datatype Clock = Clock(secondsSince: Json.Value -> int, localeDate: Json.Value -> string)

  /** The label of a record's `last_activity`. */
  function LastActivityLabel(record: map<string, Json.Value>, clock: Clock): string
  {
    var d := Json.Get(record, "last_activity");
    FormatRelativeTime(d, clock.secondsSince(d), clock.localeDate(d))
  }

  const FetchFailedDefault := "Failed to fetch chats"

  /**
   * The error shown when fetching the list throws: the server's `error`
   * field, else the exception's message, else a fixed text (each only when
   * non-empty). It is never empty, so the error view always shows.
   */
  function FetchErrorMessage(serverError: Option<string>, message: string): (r: string)
    ensures r != ""
    ensures serverError.Some? && serverError.value != "" ==> r == serverError.value
    ensures (serverError.None? || serverError.value == "") && message != "" ==> r == message
    ensures (serverError.None? || serverError.value == "") && message == "" ==> r == FetchFailedDefault
  {
    if serverError.Some? && serverError.value != "" then serverError.value
    else if message != "" then message
    else FetchFailedDefault
  }

  /** What the list request gave: the records, or the failure's server error field and message. */
  datatype FetchOutcome =
    | Fetched(records: seq<map<string, Json.Value>>)
    | FetchFailed(serverError: Option<string>, message: string)

  /** What the listing page renders. */
  datatype View<T> = Spinner | ErrorView(message: string) | ListView(items: seq<T>)

  /** The spinner while loading, else the error if there is one, else the list. */
  function SelectView<T>(loading: bool, error: Option<string>, items: seq<T>): (v: View<T>)
    ensures v.Spinner? <==> loading
    ensures v.ErrorView? <==> !loading && error.Some? && error.value != ""
    ensures v.ErrorView? ==> v.message == error.value
    ensures v.ListView? ==> v.items == items
  {
    if loading then Spinner
    else if error.Some? && error.value != "" then ErrorView(error.value)
    else ListView(items)
  }
}
