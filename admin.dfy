/** The admin monitoring page: every `sop_video_progress` row joined with the
    viewer's profile and the SOP's title, a case-insensitive search over the
    joined rows, the status badge and the `m:ss` watch-time format. */
module Admin {

  import opened Common
  import opened Text
  import opened Store
  import Tracker

  /** A `sops` row, as far as the page uses it. */
  datatype SopInfo = SopInfo(id: SopId, title: string)

  /** A `sop_video_progress` row as `select("*")` returns it. */
  datatype ProgressRow = ProgressRow(
    id: string,
    userId: UserId,
    sopId: SopId,
    progressPercentage: int,
    videoPosition: real,
    duration: real,
    lastUpdated: string)

  /** `UserVideoProgress`: one line of the monitoring table. */
  datatype Row = Row(
    id: string,
    fullName: string,
    email: string,
    avatarUrl: Option<string>,
    sopId: SopId,
    sopTitle: string,
    progressPercentage: int,
    videoPosition: real,
    duration: real,
    lastUpdated: string)

  /** `profiles?.find(p => p.id === userId)`; a failed fetch (`None`) finds nothing. */
  function ProfileOf(profiles: Option<seq<Profile>>, userId: UserId): Option<Profile>
  {
    if profiles.None? then None else Find(profiles.value, (p: Profile) => p.id == userId)
  }

  /** `sops?.find(s => s.id === sopId)`. */
  function SopOf(sops: Option<seq<SopInfo>>, sopId: SopId): Option<SopInfo>
  {
    if sops.None? then None else Find(sops.value, (s: SopInfo) => s.id == sopId)
  }

  /** The placeholder profile for a progress row whose viewer has no profile. */
  function UnknownUser(userId: UserId): Profile
  {
    Profile(userId, "Unknown User", "unknown@example.com", None)
  }

  /** One iteration of the join loop: look up the viewer and the SOP, fall back
      to placeholders, and copy the progress fields. */
  function JoinRow(progress: ProgressRow, profiles: Option<seq<Profile>>, sops: Option<seq<SopInfo>>): (row: Row)
    ensures row.id == progress.id && row.sopId == progress.sopId
    ensures row.progressPercentage == progress.progressPercentage
    ensures row.videoPosition == progress.videoPosition && row.duration == progress.duration
    ensures row.lastUpdated == progress.lastUpdated
    ensures ProfileOf(profiles, progress.userId).None? ==>
      row.fullName == "Unknown User" && row.email == "unknown@example.com" && row.avatarUrl.None?
    ensures ProfileOf(profiles, progress.userId).Some? ==>
      var p := ProfileOf(profiles, progress.userId).value;
      p.id == progress.userId && row.fullName == p.fullName && row.email == p.email && row.avatarUrl == p.avatarUrl
    ensures (SopOf(sops, progress.sopId).Some? && SopOf(sops, progress.sopId).value.title != "") ==>
      row.sopTitle == SopOf(sops, progress.sopId).value.title
    ensures (SopOf(sops, progress.sopId).None? || SopOf(sops, progress.sopId).value.title == "") ==>
      row.sopTitle == progress.sopId
  {
    var user := match ProfileOf(profiles, progress.userId)
      case Some(p) => p
      case None => UnknownUser(progress.userId);
    var sop := match SopOf(sops, progress.sopId)
      case Some(s) => s
      case None => SopInfo(progress.sopId, progress.sopId);
    Row(progress.id, user.fullName, user.email, user.avatarUrl, progress.sopId,
        if sop.title != "" then sop.title else progress.sopId,
        progress.progressPercentage, progress.videoPosition, progress.duration, progress.lastUpdated)
  }

  /** The `for ... of` loop of `fetchData`: one row per progress record, in
      input order, none dropped when a lookup fails. */
  method ProcessProgress(fetched: seq<ProgressRow>, profiles: Option<seq<Profile>>, sops: Option<seq<SopInfo>>)
    returns (processed: seq<Row>)
    ensures |processed| == |fetched|
    ensures forall k :: 0 <= k < |fetched| ==> processed[k] == JoinRow(fetched[k], profiles, sops)
  {
    processed := [];
    for i := 0 to |fetched|
      invariant |processed| == i
      invariant forall k :: 0 <= k < i ==> processed[k] == JoinRow(fetched[k], profiles, sops)
    {
      processed := processed + [JoinRow(fetched[i], profiles, sops)];
    }
  }

  /** The search test of `filteredVideoProgress`. */
  predicate RowMatches(row: Row, query: string)
  {
    var q := ToLower(query);
    Contains(ToLower(row.fullName), q) || Contains(ToLower(row.email), q) || Contains(ToLower(row.sopTitle), q)
  }

  /** `filteredVideoProgress`. */
  function SearchRows(rows: seq<Row>, query: string): (r: seq<Row>)
    ensures |r| <= |rows|
    ensures forall i :: 0 <= i < |rows| ==> (rows[i] in r <==> RowMatches(rows[i], query))
  {
    Filter(rows, (row: Row) => RowMatches(row, query))
  }

  /** The search result keeps the table's order. */
  lemma SearchKeepsOrder(rows: seq<Row>, query: string)
    ensures IsSublist(SearchRows(rows, query), rows)
  {
    FilterIsSublist(rows, (row: Row) => RowMatches(row, query));
  }

  /** An empty search box shows every row. */
  lemma EmptySearchKeepsAll(rows: seq<Row>)
    ensures SearchRows(rows, "") == rows
  {
    forall i | 0 <= i < |rows| ensures RowMatches(rows[i], "") {
      ContainsEmpty(ToLower(rows[i].fullName));
    }
    FilterAll(rows, (row: Row) => RowMatches(row, ""));
  }

  // ---------------------------------------------------------------------------
  // The status badge.

  datatype Badge = Completed | InProgress | NotStarted

  /** The badge of a row with the given percentage. */
  function BadgeFor(percentage: int): (b: Badge)
    ensures b == Completed <==> percentage >= Tracker.WatchedThreshold
    ensures b == InProgress <==> 0 < percentage < Tracker.WatchedThreshold
    ensures b == NotStarted <==> percentage <= 0
  {
    if percentage >= 95 then Completed
    else if percentage > 0 then InProgress
    else NotStarted
  }

  function BadgeRank(b: Badge): nat
  {
    match b
    case NotStarted => 0
    case InProgress => 1
    case Completed => 2
  }

  /** More progress never shows a lower badge. */
  lemma BadgeMonotone(p: int, q: int)
    requires p <= q
    ensures BadgeRank(BadgeFor(p)) <= BadgeRank(BadgeFor(q))
  {
  }

  // ---------------------------------------------------------------------------
  // Watch time as `m:ss`.

  /** `Math.trunc`. */
  function Trunc(x: real): int
  {
    if x >= 0.0 then x.Floor else -((-x).Floor)
  }

  /** JavaScript's `%` on numbers: the remainder takes the sign of the dividend. */
  function JsRemainder(a: real, b: real): real
    requires b != 0.0
  {
    a - b * Trunc(a / b) as real
  }

  /** `formatTime(seconds)`: for a non-negative time, the rendering reads back
      through the independent `m:ss` parser as the whole seconds. */
  function FormatTime(seconds: real): (s: string)
    ensures seconds >= 0.0 ==> ParseClock(s) == Some(seconds.Floor)
  {
    var minutes := (seconds / 60.0).Floor;
    var remainingSeconds := JsRemainder(seconds, 60.0).Floor;
    var s := IntToString(minutes) + ":" + PadStart(IntToString(remainingSeconds), 2, '0');
    if seconds >= 0.0 then
      ClockFields(seconds);
      ClockRoundTrip(minutes, remainingSeconds);
      s
    else s
  }

  /** For a non-negative time, the minutes are the whole minutes, the seconds
      field lies in 0..59, and together they give the whole seconds. */
  lemma ClockFields(seconds: real)
    requires seconds >= 0.0
    ensures
      var m := (seconds / 60.0).Floor;
      var sec := JsRemainder(seconds, 60.0).Floor;
      && 0 <= m && 0 <= sec <= 59
      && m * 60 + sec == seconds.Floor
  {
    var m := (seconds / 60.0).Floor;
    assert m as real <= seconds / 60.0 < m as real + 1.0;
    assert 60.0 * (m as real) <= seconds < 60.0 * (m as real) + 60.0;
    assert Trunc(seconds / 60.0) == m;
    var rem := JsRemainder(seconds, 60.0);
    assert rem == seconds - 60.0 * m as real;
    FloorShift(seconds, 60 * m);
  }

  lemma FloorShift(x: real, n: int)
    ensures (x - n as real).Floor == x.Floor - n
  {
  }

  /** Reads `m:ss` back as a number of seconds: digits without a leading zero
      (a lone "0" aside), a colon, and exactly two digits forming a seconds
      field of 0..59. */
  function ParseClock(s: string): Option<int>
  {
    if |s| >= 4 && s[|s| - 3] == ':' && IsDigits(s[..|s| - 3]) && IsDigits(s[|s| - 2..])
       && ParseDigits(s[|s| - 2..]) <= 59 && (s[0] == '0' ==> |s| == 4) then
      Some(ParseDigits(s[..|s| - 3]) * 60 + ParseDigits(s[|s| - 2..]))
    else None
  }

  /** The two-character seconds field reads back as the seconds. */
  lemma {:induction false} SecondsFieldRoundTrip(sec: int)
    requires 0 <= sec <= 59
    ensures var ss := PadStart(IntToString(sec), 2, '0');
      |ss| == 2 && IsDigits(ss) && ParseDigits(ss) == sec
  {
    var digits := IntToString(sec);
    var ss := PadStart(digits, 2, '0');
    if sec < 10 {
      assert |digits| == 1;
      assert ss == ['0'] + digits;
      assert ss[..1] == ['0'] && ss[1] == digits[0];
      assert ParseDigits(['0']) == 0 by {
        assert ['0'][..0] == [];
      }
      assert ParseDigits(digits) == ParseDigits(digits[..0]) * 10 + (digits[0] as int - '0' as int);
      assert digits[..0] == [];
    } else {
      assert |digits| == 2;
    }
  }

  /** A digit string, a colon and two digits parse field by field. */
  lemma {:induction false} ParseClockFields(ms: string, ss: string, m: nat, sec: nat)
    requires IsDigits(ms) && IsDigits(ss) && |ss| == 2
    requires ParseDigits(ms) == m && ParseDigits(ss) == sec && sec <= 59
    requires ms[0] == '0' ==> |ms| == 1
    ensures ParseClock(ms + ":" + ss) == Some(m * 60 + sec)
  {
    var clock := ms + ":" + ss;
    assert clock[0] == ms[0];
    assert clock[..|clock| - 3] == ms;
    assert clock[|clock| - 2..] == ss;
  }

  /** `m:ss`, as rendered, reads back as `m * 60 + ss`. */
  lemma {:induction false} ClockRoundTrip(m: int, sec: int)
    requires 0 <= m && 0 <= sec <= 59
    ensures ParseClock(IntToString(m) + ":" + PadStart(IntToString(sec), 2, '0')) == Some(m * 60 + sec)
  {
    SecondsFieldRoundTrip(sec);
    ParseClockFields(IntToString(m), PadStart(IntToString(sec), 2, '0'), m, sec);
  }

  // ---------------------------------------------------------------------------
  // The page.

  class AdminDashboard {
    var searchQuery: string
    var videoProgress: seq<Row>
    var loading: bool
    var refreshing: bool
    var lastRefreshed: string

    constructor (now: string)
      ensures searchQuery == "" && videoProgress == [] && loading && !refreshing && lastRefreshed == now
    {
      searchQuery := "";
      videoProgress := [];
      loading := true;
      refreshing := false;
      lastRefreshed := now;
    }

    /** `fetchData`: `fetched` is the progress query (`None` on error), `profiles`
        and `sops` the two lookup queries (`None` on error). */
    method FetchData(fetched: Option<seq<ProgressRow>>, profiles: Option<seq<Profile>>,
                     sops: Option<seq<SopInfo>>, now: string)
      modifies this
      ensures fetched.None? ==> videoProgress == old(videoProgress) && lastRefreshed == old(lastRefreshed)
      ensures fetched.Some? ==>
        && |videoProgress| == |fetched.value|
        && (forall k :: 0 <= k < |fetched.value| ==> videoProgress[k] == JoinRow(fetched.value[k], profiles, sops))
        && lastRefreshed == now
      ensures !loading && !refreshing && searchQuery == old(searchQuery)
    {
      refreshing := true;
      if fetched.Some? {
        var processed := ProcessProgress(fetched.value, profiles, sops);
        videoProgress := processed;
        lastRefreshed := now;
      }
      loading := false;
      refreshing := false;
    }

    /** `handleRefresh`, and likewise every change notification on the progress table. */
    method HandleRefresh(fetched: Option<seq<ProgressRow>>, profiles: Option<seq<Profile>>,
                         sops: Option<seq<SopInfo>>, now: string)
      modifies this
      ensures fetched.None? ==> videoProgress == old(videoProgress) && lastRefreshed == old(lastRefreshed)
      ensures fetched.Some? ==>
        && |videoProgress| == |fetched.value|
        && (forall k :: 0 <= k < |fetched.value| ==> videoProgress[k] == JoinRow(fetched.value[k], profiles, sops))
        && lastRefreshed == now
      ensures !loading && !refreshing && searchQuery == old(searchQuery)
    {
      refreshing := true;
      FetchData(fetched, profiles, sops, now);
    }

    /** The search box's `onChange`. */
    method SetSearchQuery(query: string)
      modifies this
      ensures searchQuery == query && videoProgress == old(videoProgress)
      ensures loading == old(loading) && refreshing == old(refreshing) && lastRefreshed == old(lastRefreshed)
    {
      searchQuery := query;
    }

    /** The rows the table shows. */
    function FilteredVideoProgress(): (r: seq<Row>)
      reads this
      ensures forall i :: 0 <= i < |videoProgress| ==> (videoProgress[i] in r <==> RowMatches(videoProgress[i], searchQuery))
    {
      SearchRows(videoProgress, searchQuery)
    }
  }
}
