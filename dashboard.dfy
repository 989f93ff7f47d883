/** The member dashboard: the two GoHighLevel SOPs marked completed from the
    user's completion rows, the summary counts and percentage, the search box
    and the four tabs. */
module Dashboard {

  import opened Common
  import opened Text
  import opened Store
  import Tracker

  datatype SopType = Mobile | Web

  /** A SOP card as the dashboard lists it. */
  datatype Sop = Sop(
    id: SopId,
    title: string,
    description: string,
    videoUrl: string,
    completed: bool,
    sopType: SopType,
    platform: string)

  /** The dashboard's React state. */
  datatype DashState = DashState(sops: seq<Sop>, loading: bool, searchQuery: string)

  function InitialDashState(): DashState
  {
    DashState([], true, "")
  }

  /** `completedSopIds`: the `sop_id` of every completion row whose `user_id` is the user. */
  function CompletedSopIds(db: Db, user: UserId): (ids: set<SopId>)
    ensures forall k :: k in db.completions && db.completions[k].userId == user ==> db.completions[k].sopId in ids
    ensures forall s :: s in ids <==>
      exists k :: k in db.completions && db.completions[k].userId == user && db.completions[k].sopId == s
  {
    set k | k in db.completions && db.completions[k].userId == user :: db.completions[k].sopId
  }

  /** The card texts of the two SOPs. */
  const WebTitle := "How to Use GoHighLevel Web Application"
  const WebDescription := "Comprehensive guide to using the GoHighLevel web platform for maximum productivity."
  const MobileTitle := "How to Use GoHighLevel Mobile App"
  const MobileDescription :=
    "Learn how to navigate and use the GoHighLevel mobile application for on-the-go CRM management."
  const Platform := "GoHighLevel"

  /** `goHighLevelSops`: the two fixed SOPs, each completed iff its id is in the set. */
  function GoHighLevelSops(completedIds: set<SopId>): (sops: seq<Sop>)
    ensures |sops| == 2
    ensures sops[0].id == WebAppUsage && sops[0].sopType == Web
    ensures sops[1].id == MobileAppUsage && sops[1].sopType == Mobile
    ensures forall i :: 0 <= i < |sops| ==> (sops[i].completed <==> sops[i].id in completedIds)
  {
    [ Sop(WebAppUsage, WebTitle, WebDescription, "/sops/" + WebAppUsage,
          WebAppUsage in completedIds, Web, Platform),
      Sop(MobileAppUsage, MobileTitle, MobileDescription, "/sops/" + MobileAppUsage,
          MobileAppUsage in completedIds, Mobile, Platform) ]
  }

  /** `fetchSops`: `auth` is the user fetch, `ok` whether the completions query succeeds.
      Without a user or on a query error the list is left as it was. */
  function FetchSops(state: DashState, auth: Auth, db: Db, ok: bool): (r: DashState)
    ensures !r.loading && r.searchQuery == state.searchQuery
    ensures auth.SignedIn? && ok ==> r.sops == GoHighLevelSops(CompletedSopIds(db, auth.id))
    ensures !(auth.SignedIn? && ok) ==> r.sops == state.sops
  {
    var sops := if auth.SignedIn? && ok then GoHighLevelSops(CompletedSopIds(db, auth.id)) else state.sops;
    state.(sops := sops, loading := false)
  }

  /** Loading the dashboard for a signed-in user when the query fails shows no SOPs. */
  lemma FetchFailureLeavesEmpty(auth: Auth, db: Db)
    ensures FetchSops(InitialDashState(), auth, db, false).sops == []
    ensures FetchSops(InitialDashState(), NoUser, db, true).sops == []
    ensures !FetchSops(InitialDashState(), auth, db, false).loading
  {
  }

  /** A completion the watch page records shows as completed on the dashboard
      the next time it loads, for either SOP. */
  lemma MarkedCompleteShowsCompleted(sop: SopId, p: Tracker.Page, db: Db, u: UserId, now: string, state: DashState)
    requires sop == WebAppUsage || sop == MobileAppUsage
    requires Tracker.OnMarkComplete(sop, p, db, SignedIn(u), true, now).outcome == Tracker.Completed
    ensures
      var shown := FetchSops(state, SignedIn(u), Tracker.OnMarkComplete(sop, p, db, SignedIn(u), true, now).db, true).sops;
      exists i :: 0 <= i < |shown| && shown[i].id == sop && shown[i].completed
  {
    var db' := Tracker.OnMarkComplete(sop, p, db, SignedIn(u), true, now).db;
    var k := Key(u, sop);
    assert k in db'.completions && db'.completions[k] == CompletionRecord(sop, u, now);
    assert sop in CompletedSopIds(db', u);
    var shown := FetchSops(state, SignedIn(u), db', true).sops;
    if sop == WebAppUsage {
      assert shown[0].id == sop && shown[0].completed;
    } else {
      assert shown[1].id == sop && shown[1].completed;
    }
  }

  // ---------------------------------------------------------------------------
  // The summary cards.

  function CompletedCount(sops: seq<Sop>): (n: nat)
    ensures n <= |sops|
  {
    |Filter(sops, (s: Sop) => s.completed)|
  }

  /** `pendingCount`, computed as the rest of the list. */
  function PendingCount(sops: seq<Sop>): (n: nat)
    ensures CompletedCount(sops) + n == |sops|
  {
    |sops| - CompletedCount(sops)
  }

  /** The pending count is exactly the number of SOPs not completed. */
  lemma PendingAreNotCompleted(sops: seq<Sop>)
    ensures PendingCount(sops) == |Filter(sops, (s: Sop) => !s.completed)|
  {
    FilterSplit(sops, (s: Sop) => s.completed, (s: Sop) => !s.completed);
  }

  /** `Math.round`: the nearest integer, halves rounded up. */
  function JsRound(x: real): (n: int)
    ensures n as real - 0.5 <= x < n as real + 0.5
  {
    (x + 0.5).Floor
  }

  /** `completionPercentage`. */
  function CompletionPercentage(sops: seq<Sop>): (r: int)
    ensures 0 <= r <= 100
    ensures |sops| == 0 ==> r == 0
    ensures |sops| > 0 ==>
      var exact := CompletedCount(sops) as real / |sops| as real * 100.0;
      r as real - 0.5 <= exact < r as real + 0.5
  {
    if |sops| > 0 then
      var exact := CompletedCount(sops) as real / |sops| as real * 100.0;
      PercentageInRange(CompletedCount(sops), |sops|);
      JsRound(exact)
    else 0
  }

  lemma PercentageInRange(c: nat, n: nat)
    requires 0 < n && c <= n
    ensures 0.0 <= c as real / n as real * 100.0 <= 100.0
  {
    assert c as real / n as real <= 1.0;
  }

  /** Everything completed reads 100 %, nothing completed reads 0 %. */
  lemma PercentageExtremes(sops: seq<Sop>)
    requires |sops| > 0
    ensures CompletedCount(sops) == |sops| ==> CompletionPercentage(sops) == 100
    ensures CompletedCount(sops) == 0 ==> CompletionPercentage(sops) == 0
  {
    if CompletedCount(sops) == |sops| {
      WholeRatio(|sops|);
    }
  }

  lemma WholeRatio(n: nat)
    requires n > 0
    ensures n as real / n as real * 100.0 == 100.0
  {
  }

  /** On the fixed list, the percentage is 0, 50 or 100 as zero, one or two SOPs are completed. */
  lemma GoHighLevelPercentage(completedIds: set<SopId>)
    ensures var sops := GoHighLevelSops(completedIds);
      CompletionPercentage(sops) == 50 * CompletedCount(sops)
  {
    var sops := GoHighLevelSops(completedIds);
    var c := CompletedCount(sops);
    assert c <= 2;
    assert (c as real) / 2.0 * 100.0 == 50.0 * c as real;
  }

  function MobileCount(sops: seq<Sop>): (n: nat)
    ensures n <= |sops|
  {
    |Filter(sops, (s: Sop) => s.sopType == Mobile)|
  }

  function WebCount(sops: seq<Sop>): (n: nat)
    ensures n <= |sops|
  {
    |Filter(sops, (s: Sop) => s.sopType == Web)|
  }

  /** Every SOP is mobile or web, so the two counts cover the list. */
  lemma TypeCountsCover(sops: seq<Sop>)
    ensures MobileCount(sops) + WebCount(sops) == |sops|
  {
    FilterSplit(sops, (s: Sop) => s.sopType == Mobile, (s: Sop) => s.sopType == Web);
  }

  // ---------------------------------------------------------------------------
  // Search and tabs.

  predicate SopMatches(sop: Sop, query: string)
  {
    Contains(ToLower(sop.title), ToLower(query)) || Contains(ToLower(sop.description), ToLower(query))
  }

  /** `filteredSops`. */
  function SearchSops(sops: seq<Sop>, query: string): (r: seq<Sop>)
    ensures |r| <= |sops|
    ensures forall i :: 0 <= i < |sops| ==> (sops[i] in r <==> SopMatches(sops[i], query))
  {
    Filter(sops, (s: Sop) => SopMatches(s, query))
  }

  lemma SearchKeepsOrder(sops: seq<Sop>, query: string)
    ensures IsSublist(SearchSops(sops, query), sops)
  {
    FilterIsSublist(sops, (s: Sop) => SopMatches(s, query));
  }

  lemma EmptySearchKeepsAll(sops: seq<Sop>)
    ensures SearchSops(sops, "") == sops
  {
    forall i | 0 <= i < |sops| ensures SopMatches(sops[i], "") {
      ContainsEmpty(ToLower(sops[i].title));
    }
    FilterAll(sops, (s: Sop) => SopMatches(s, ""));
  }

  datatype Tab = AllTab | MobileTab | WebTab | CompletedTab

  predicate InTab(sop: Sop, tab: Tab)
  {
    match tab
    case AllTab => true
    case MobileTab => sop.sopType == Mobile
    case WebTab => sop.sopType == Web
    case CompletedTab => sop.completed
  }

  /** The cards a tab shows, from the search result. */
  function TabView(filtered: seq<Sop>, tab: Tab): (r: seq<Sop>)
    ensures |r| <= |filtered|
    ensures forall i :: 0 <= i < |filtered| ==> (filtered[i] in r <==> InTab(filtered[i], tab))
    ensures tab == AllTab ==> r == filtered
  {
    if tab == AllTab then filtered else Filter(filtered, (s: Sop) => InTab(s, tab))
  }

  /** Each tab shows the search result's matching cards in the result's order. */
  lemma TabIsSublist(filtered: seq<Sop>, tab: Tab)
    ensures IsSublist(TabView(filtered, tab), filtered)
  {
    if tab == AllTab {
      FilterAll(filtered, (s: Sop) => InTab(s, tab));
    }
    FilterIsSublist(filtered, (s: Sop) => InTab(s, tab));
  }

  /** The Mobile and Web tabs split the search result between them. */
  lemma MobileAndWebTabsSplit(filtered: seq<Sop>)
    ensures |TabView(filtered, MobileTab)| + |TabView(filtered, WebTab)| == |filtered|
  {
    FilterSplit(filtered, (s: Sop) => InTab(s, MobileTab), (s: Sop) => InTab(s, WebTab));
  }
}
