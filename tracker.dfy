/** The watch-progress tracker and completion gate of the two SOP video pages
    (`web-app-usage` and `mobile-app-usage`), written once and parameterised by
    the SOP id. Each event handler is one atomic transition of the page state and
    the record store; failures of the store or of authentication are inputs. */
module Tracker {

  import opened Common
  import opened Store

  /** Percentage from which a video counts as watched. */
  const WatchedThreshold: int := 95

  /** Seconds of playback between two throttled saves. */
  const SaveInterval: real := 5.0

  /** `Math.floor((currentTime / duration) * 100)`. */
  function Percentage(t: real, d: real): (pct: int)
    requires d > 0.0
    ensures pct as real <= t / d * 100.0 < pct as real + 1.0
    ensures 0.0 <= t <= d ==> 0 <= pct <= 100
    ensures t == d ==> pct == 100
  {
    PercentageBounds(t, d);
    (t / d * 100.0).Floor
  }

  lemma PercentageBounds(t: real, d: real)
    requires d > 0.0
    ensures 0.0 <= t ==> 0.0 <= t / d * 100.0
    ensures t <= d ==> t / d * 100.0 <= 100.0
    ensures t == d ==> t / d * 100.0 == 100.0
  {
    if t <= d {
      assert t / d <= d / d;
    }
  }

  /** The percentage never decreases as the position advances. */
  lemma PercentageMonotone(t1: real, t2: real, d: real)
    requires d > 0.0 && t1 <= t2
    ensures Percentage(t1, d) <= Percentage(t2, d)
  {
    assert t1 / d <= t2 / d;
  }

  /** `shouldSaveProgress`: five seconds past the last saved position, or the
      first report at or above the watched threshold. */
  predicate ShouldSave(t: real, lastReported: real, pct: int, watched: bool)
    // the first report at the threshold always saves
    ensures !watched && pct >= WatchedThreshold ==> ShouldSave(t, lastReported, pct, watched)
    // once watched, only the elapsed position counts
    ensures watched ==> (ShouldSave(t, lastReported, pct, watched) <==> t - lastReported >= SaveInterval)
  {
    t - lastReported >= SaveInterval || (pct >= WatchedThreshold && !watched)
  }

  /** The React state of one SOP page. */
  datatype Page = Page(
    userId: Option<UserId>,
    lastReportedTime: real,
    videoWatched: bool,
    isSaving: bool,
    completed: bool,
    markingComplete: bool,
    videoProgress: int,
    videoDuration: real,
    videoLoaded: bool)

  /** The `useState` initial values. */
  function InitialPage(): (p: Page)
    ensures p.userId.None? && !p.videoWatched && !p.completed && !p.isSaving && !p.markingComplete
    ensures p.lastReportedTime == 0.0 && p.videoProgress == 0
    ensures !p.videoLoaded && p.videoDuration == 0.0
  {
    Page(None, 0.0, false, false, false, false, 0, 0.0, false)
  }

  /** Result of the load effect: the new page, whether it sends the browser to
      `/login`, and the position it seeks the video element to. */
  datatype Loaded = Loaded(page: Page, toLogin: bool, seekTo: Option<real>)

  /** `checkUserAndCompletionStatus`: identify the user, then seed `completed`
      from the completion row and `videoWatched`/`lastReportedTime` from the
      progress row. A failed read (`...ReadOk` false) yields no row. */
  function OnLoad(sop: SopId, p: Page, db: Db, auth: Auth, completionReadOk: bool, progressReadOk: bool): (r: Loaded)
    ensures !auth.SignedIn? ==> r.page == p && r.seekTo.None?
    ensures r.toLogin <==> auth.NoUser?
    ensures auth.SignedIn? ==> r.page.userId == Some(auth.id)
    ensures auth.SignedIn? ==> (r.page.completed <==> p.completed || (completionReadOk && Key(auth.id, sop) in db.completions))
    ensures auth.SignedIn? && progressReadOk && Key(auth.id, sop) in db.progress ==>
      var rec := db.progress[Key(auth.id, sop)];
      && r.page.lastReportedTime == rec.videoPosition
      && (r.page.videoWatched <==> p.videoWatched || rec.progressPercentage >= WatchedThreshold)
      && r.seekTo == (if p.videoLoaded then Some(rec.videoPosition) else None)
    ensures !(auth.SignedIn? && progressReadOk && Key(auth.id, sop) in db.progress) ==>
      r.page.lastReportedTime == p.lastReportedTime && r.page.videoWatched == p.videoWatched && r.seekTo.None?
    // nothing else changes
    ensures r.page == p.(userId := r.page.userId, completed := r.page.completed,
                         lastReportedTime := r.page.lastReportedTime, videoWatched := r.page.videoWatched)
  {
    match auth
    case AuthError => Loaded(p, false, None)
    case NoUser => Loaded(p, true, None)
    case SignedIn(u) =>
      var key := Key(u, sop);
      var withUser := p.(userId := Some(u));
      var seeded := if completionReadOk && key in db.completions then withUser.(completed := true) else withUser;
      if progressReadOk && key in db.progress then
        var rec := db.progress[key];
        var resumed := seeded.(
          videoWatched := if rec.progressPercentage >= WatchedThreshold then true else seeded.videoWatched,
          lastReportedTime := rec.videoPosition);
        Loaded(resumed, false, if p.videoLoaded then Some(rec.videoPosition) else None)
      else
        Loaded(seeded, false, None)
  }

  /** On a store whose rows sit under their own `(user_id, sop_id)`, the rows a
      load reads are the signed-in user's rows for this SOP. */
  lemma LoadReadsOwnRows(sop: SopId, db: Db, u: UserId)
    requires WellKeyed(db)
    ensures Lookup(db.progress, Key(u, sop)).Some? ==>
      Lookup(db.progress, Key(u, sop)).value.userId == u && Lookup(db.progress, Key(u, sop)).value.sopId == sop
    ensures Lookup(db.completions, Key(u, sop)).Some? ==>
      Lookup(db.completions, Key(u, sop)).value.userId == u && Lookup(db.completions, Key(u, sop)).value.sopId == sop
  {
    var k := Key(u, sop);
    if k in db.progress {
      assert db.progress[k].KeyOf() == k;
    }
    if k in db.completions {
      assert db.completions[k].KeyOf() == k;
    }
  }

  /** Result of `handleMetadataLoaded`. */
  datatype Resumed = Resumed(page: Page, seekTo: Option<real>)

  /** `handleMetadataLoaded`: record the duration and seek back to the last
      reported position when there is one. */
  function OnMetadataLoaded(p: Page, duration: real): (r: Resumed)
    ensures r.page == p.(videoDuration := duration, videoLoaded := true)
    ensures r.seekTo.Some? <==> p.lastReportedTime > 0.0
    ensures r.seekTo.Some? ==> r.seekTo.value == p.lastReportedTime
  {
    Resumed(p.(videoDuration := duration, videoLoaded := true),
            if p.lastReportedTime > 0.0 then Some(p.lastReportedTime) else None)
  }

  /** Result of a handler that may write a progress row: the new page and store,
      whether an upsert was attempted, and the row it persisted, if any. */
  datatype Step = Step(page: Page, db: Db, attempted: bool, written: Option<ProgressRecord>)

  /** `handleTimeUpdate` at position `t` of a video of length `d`; `ok` is
      whether the upsert succeeds and `now` the timestamp it records. */
  function OnTimeUpdate(sop: SopId, p: Page, db: Db, t: real, d: real, ok: bool, now: string): (r: Step)
    requires d > 0.0
    // without a user, or with a save in flight, nothing happens
    ensures p.userId.None? || p.isSaving ==> r == Step(p, db, false, None)
    // the throttle
    ensures r.attempted <==> p.userId.Some? && !p.isSaving && ShouldSave(t, p.lastReportedTime, Percentage(t, d), p.videoWatched)
    // the watched threshold is never skipped
    ensures p.userId.Some? && !p.isSaving && Percentage(t, d) >= WatchedThreshold && !p.videoWatched ==> r.attempted
    ensures r.written.Some? <==> r.attempted && ok
    ensures r.written.Some? ==>
      var rec := r.written.value;
      && rec == ProgressRecord(p.userId.value, sop, t, d, Percentage(t, d), now)
      && r.db == UpsertProgress(db, rec)
      && r.page.lastReportedTime == t
      && (r.page.videoWatched <==> p.videoWatched || rec.progressPercentage >= WatchedThreshold)
    ensures r.written.None? ==>
      r.db == db && r.page.lastReportedTime == p.lastReportedTime && r.page.videoWatched == p.videoWatched
    ensures r.written.Some? && r.written.value.progressPercentage < WatchedThreshold ==>
      t - p.lastReportedTime >= SaveInterval
    ensures p.userId.Some? && !p.isSaving ==> r.page.videoProgress == Percentage(t, d)
    ensures r.page.completed == p.completed && r.page.userId == p.userId
    // nothing else changes
    ensures r.page == p.(videoProgress := r.page.videoProgress, lastReportedTime := r.page.lastReportedTime,
                         videoWatched := r.page.videoWatched)
  {
    if p.userId.None? || p.isSaving then Step(p, db, false, None)
    else
      var pct := Percentage(t, d);
      var shown := p.(videoProgress := pct);
      if !ShouldSave(t, p.lastReportedTime, pct, p.videoWatched) then Step(shown, db, false, None)
      else
        var rec := ProgressRecord(p.userId.value, sop, t, d, pct, now);
        if ok then
          var watched := if pct >= WatchedThreshold && !p.videoWatched then true else p.videoWatched;
          Step(shown.(lastReportedTime := t, videoWatched := watched, isSaving := false), UpsertProgress(db, rec), true, Some(rec))
        else
          Step(shown.(isSaving := false), db, true, None)
  }

  /** `handleEnded`: a final upsert at position `d` and 100 percent. It does not
      consult `isSaving`, and its `finally` clears that flag in every case. */
  function OnEnded(sop: SopId, p: Page, db: Db, d: real, ok: bool, now: string): (r: Step)
    ensures p.userId.None? ==> r == Step(p, db, false, None)
    ensures r.attempted <==> p.userId.Some?
    ensures r.written.Some? <==> p.userId.Some? && ok
    ensures r.written.Some? ==>
      && r.written.value == ProgressRecord(p.userId.value, sop, d, d, 100, now)
      && r.db == UpsertProgress(db, r.written.value)
      && r.page == p.(videoWatched := true, isSaving := false)
    ensures p.userId.Some? && !ok ==> r.db == db && r.page == p.(isSaving := false)
  {
    if p.userId.None? then Step(p, db, false, None)
    else
      var rec := ProgressRecord(p.userId.value, sop, d, d, 100, now);
      if ok then Step(p.(videoWatched := true, isSaving := false), UpsertProgress(db, rec), true, Some(rec))
      else Step(p.(isSaving := false), db, true, None)
  }

  /** `forceSaveProgress`: an unthrottled save of the current position. It
      does not consult `isSaving` and never sets `videoWatched`. */
  function OnForceSave(sop: SopId, p: Page, db: Db, t: real, d: real, ok: bool, now: string): (r: Step)
    requires d > 0.0
    ensures p.userId.None? ==> r == Step(p, db, false, None)
    ensures r.attempted <==> p.userId.Some?
    ensures r.written.Some? <==> p.userId.Some? && ok
    ensures r.written.Some? ==>
      && r.written.value == ProgressRecord(p.userId.value, sop, t, d, Percentage(t, d), now)
      && r.db == UpsertProgress(db, r.written.value)
      && r.page == p.(lastReportedTime := t, isSaving := false)
    ensures p.userId.Some? && !ok ==> r.db == db && r.page == p.(isSaving := false)
    ensures r.page.videoWatched == p.videoWatched
  {
    if p.userId.None? then Step(p, db, false, None)
    else
      var rec := ProgressRecord(p.userId.value, sop, t, d, Percentage(t, d), now);
      if ok then Step(p.(lastReportedTime := t, isSaving := false), UpsertProgress(db, rec), true, Some(rec))
      else Step(p.(isSaving := false), db, true, None)
  }

  /** What `handleMarkComplete` tells the viewer. */
  datatype Outcome = NotEligible | Failed | Completed

  datatype Marked = Marked(page: Page, db: Db, outcome: Outcome)

  /** `handleMarkComplete`: refused without a write unless the video was
      watched; otherwise the current user is fetched again and a completion row
      is upserted on `(user_id, sop_id)`. */
  function OnMarkComplete(sop: SopId, p: Page, db: Db, auth: Auth, ok: bool, now: string): (r: Marked)
    ensures r.outcome == NotEligible <==> !p.videoWatched
    ensures !p.videoWatched ==> r.page == p && r.db == db
    ensures r.outcome == Completed <==> p.videoWatched && auth.SignedIn? && ok
    ensures r.outcome == Completed ==>
      && r.db == UpsertCompletion(db, CompletionRecord(sop, auth.id, now))
      && r.page == p.(completed := true, markingComplete := false)
    ensures r.outcome == Failed ==> r.db == db && r.page == p.(markingComplete := false)
    ensures r.db.progress == db.progress
  {
    if !p.videoWatched then Marked(p, db, NotEligible)
    else
      match auth
      case SignedIn(u) =>
        if ok then
          Marked(p.(completed := true, markingComplete := false),
                 UpsertCompletion(db, CompletionRecord(sop, u, now)), Completed)
        else Marked(p.(markingComplete := false), db, Failed)
      case _ => Marked(p.(markingComplete := false), db, Failed)
  }

  /** Keys whose default browser action the page suppresses. */
  const BlockedKeys: set<string> := {"ArrowRight", "ArrowLeft", " ", "f", "m", "k"}

  /** The `keydown` listener: `preventDefault` for seek, play/pause, full-screen and mute keys. */
  function PreventsDefault(key: string): (r: bool)
    ensures r <==> key in BlockedKeys
  {
    key == "ArrowRight" || key == "ArrowLeft" || key == " " || key == "f" || key == "m" || key == "k"
  }

  // ---------------------------------------------------------------------------
  // Sequences of events.

  datatype Event =
    | Load(auth: Auth, completionReadOk: bool, progressReadOk: bool)
    | MetadataLoaded(duration: real)
    | TimeUpdate(position: real, duration: real, ok: bool, now: string)
    | Ended(duration: real, ok: bool, now: string)
    | MarkComplete(auth: Auth, ok: bool, now: string)
    | ForceSave(position: real, duration: real, ok: bool, now: string)

  /** Events carrying a position come from a video whose duration is known. */
  predicate WellFormed(e: Event)
  {
    (e.TimeUpdate? || e.ForceSave?) ==> e.duration > 0.0
  }

  /** One event, as a `Step`; an event that writes no progress row reports `written == None`. */
  function Apply(sop: SopId, p: Page, db: Db, e: Event): (r: Step)
    requires WellFormed(e)
    ensures p.videoWatched ==> r.page.videoWatched
    ensures p.completed ==> r.page.completed
    ensures !p.videoWatched ==> r.db.completions == db.completions
    ensures r.written.Some? ==> r.written.value.sopId == sop && r.db == UpsertProgress(db, r.written.value)
    ensures r.written.None? ==> r.db.progress == db.progress
    ensures forall k: Key :: k.sopId != sop ==> Lookup(r.db.progress, k) == Lookup(db.progress, k)
    ensures forall k: Key :: k.sopId != sop ==> Lookup(r.db.completions, k) == Lookup(db.completions, k)
  {
    match e
    case Load(auth, cOk, pOk) => Step(OnLoad(sop, p, db, auth, cOk, pOk).page, db, false, None)
    case MetadataLoaded(d) => Step(OnMetadataLoaded(p, d).page, db, false, None)
    case TimeUpdate(t, d, ok, now) => OnTimeUpdate(sop, p, db, t, d, ok, now)
    case Ended(d, ok, now) => OnEnded(sop, p, db, d, ok, now)
    case MarkComplete(auth, ok, now) =>
      var m := OnMarkComplete(sop, p, db, auth, ok, now);
      Step(m.page, m.db, false, None)
    case ForceSave(t, d, ok, now) => OnForceSave(sop, p, db, t, d, ok, now)
  }

  /** The state after a sequence of events and the progress rows persisted on the way. */
  datatype Trace = Trace(page: Page, db: Db, log: seq<ProgressRecord>)

  function Run(sop: SopId, p: Page, db: Db, evs: seq<Event>): Trace
    requires forall i :: 0 <= i < |evs| ==> WellFormed(evs[i])
    decreases |evs|
  {
    if evs == [] then Trace(p, db, [])
    else
      var s := Apply(sop, p, db, evs[0]);
      var rest := Run(sop, s.page, s.db, evs[1..]);
      Trace(rest.page, rest.db, Written(s.written) + rest.log)
  }

  /** `videoWatched` and `completed` are never reset to false by any sequence of events. */
  lemma {:induction false} FlagsSticky(sop: SopId, p: Page, db: Db, evs: seq<Event>)
    requires forall i :: 0 <= i < |evs| ==> WellFormed(evs[i])
    ensures p.videoWatched ==> Run(sop, p, db, evs).page.videoWatched
    ensures p.completed ==> Run(sop, p, db, evs).page.completed
    decreases |evs|
  {
    if evs != [] {
      var s := Apply(sop, p, db, evs[0]);
      FlagsSticky(sop, s.page, s.db, evs[1..]);
    }
  }

  /** The completion gate over any sequence of events: if the video is still
      not watched at the end, no completion row was written. */
  lemma {:induction false} GateHolds(sop: SopId, p: Page, db: Db, evs: seq<Event>)
    requires forall i :: 0 <= i < |evs| ==> WellFormed(evs[i])
    ensures !Run(sop, p, db, evs).page.videoWatched ==> Run(sop, p, db, evs).db.completions == db.completions
    decreases |evs|
  {
    if evs != [] {
      var s := Apply(sop, p, db, evs[0]);
      FlagsSticky(sop, s.page, s.db, evs[1..]);
      GateHolds(sop, s.page, s.db, evs[1..]);
    }
  }

  /** A page only ever writes rows of its own SOP. */
  lemma {:induction false} OtherSopsUntouched(sop: SopId, p: Page, db: Db, evs: seq<Event>, k: Key)
    requires forall i :: 0 <= i < |evs| ==> WellFormed(evs[i])
    requires k.sopId != sop
    ensures Lookup(Run(sop, p, db, evs).db.progress, k) == Lookup(db.progress, k)
    ensures Lookup(Run(sop, p, db, evs).db.completions, k) == Lookup(db.completions, k)
    decreases |evs|
  {
    if evs != [] {
      var s := Apply(sop, p, db, evs[0]);
      OtherSopsUntouched(sop, s.page, s.db, evs[1..], k);
    }
  }

  /** The store after upserting the rows of `log` in order. */
  ghost function Replay(db: Db, log: seq<ProgressRecord>): Db
    decreases |log|
  {
    if log == [] then db else Replay(UpsertProgress(db, log[0]), log[1..])
  }

  predicate IsTimeUpdate(e: Event) { e.TimeUpdate? }

  /** The throttle, as a property of the sequence of persisted rows: each row
      below the watched threshold lies at least `SaveInterval` seconds past the
      previously persisted one (`last` is where the page started counting). */
  ghost predicate Throttled(last: real, log: seq<ProgressRecord>)
    decreases |log|
  {
    log == [] ||
    ((log[0].progressPercentage < WatchedThreshold ==> log[0].videoPosition - last >= SaveInterval)
     && Throttled(log[0].videoPosition, log[1..]))
  }

  /** The rows one event contributes to the log. */
  function Written(w: Option<ProgressRecord>): (log: seq<ProgressRecord>)
    ensures |log| <= 1 && (log == [] <==> w.None?)
  {
    if w.Some? then [w.value] else []
  }

  /** One time update is `OnTimeUpdate`, with its position, duration and outcome. */
  lemma TimeUpdateStep(sop: SopId, p: Page, db: Db, e: Event)
    requires WellFormed(e) && IsTimeUpdate(e)
    ensures var s := Apply(sop, p, db, e);
      && (s.written.Some? ==>
            s.written.value.videoPosition == e.position && s.page.lastReportedTime == e.position
            && s.db == UpsertProgress(db, s.written.value)
            && (s.written.value.progressPercentage < WatchedThreshold ==>
                  e.position - p.lastReportedTime >= SaveInterval))
      && (s.written.None? ==> s.db == db && s.page.lastReportedTime == p.lastReportedTime)
  {
    assert Apply(sop, p, db, e) == OnTimeUpdate(sop, p, db, e.position, e.duration, e.ok, e.now);
  }

  /** Prepending one event's rows keeps the throttle and the last persisted position. */
  lemma ThrottleStep(last: real, w: Option<ProgressRecord>, mid: real, rest: seq<ProgressRecord>, final: real)
    requires w.Some? ==> mid == w.value.videoPosition
    requires w.Some? && w.value.progressPercentage < WatchedThreshold ==> w.value.videoPosition - last >= SaveInterval
    requires w.None? ==> mid == last
    requires Throttled(mid, rest)
    requires rest == [] ==> final == mid
    requires rest != [] ==> final == rest[|rest| - 1].videoPosition
    ensures Throttled(last, Written(w) + rest)
    ensures Written(w) + rest == [] ==> final == last
    ensures Written(w) + rest != [] ==> final == (Written(w) + rest)[|Written(w) + rest| - 1].videoPosition
  {
    if w.Some? {
      var log := Written(w) + rest;
      assert log[0] == w.value && log[1..] == rest;
    } else {
      assert Written(w) + rest == rest;
    }
  }

  /** Prepending one event's rows to a replayed log replays the event's write first. */
  lemma ReplayStep(db: Db, w: Option<ProgressRecord>, mid: Db, rest: seq<ProgressRecord>, final: Db)
    requires w.Some? ==> mid == UpsertProgress(db, w.value)
    requires w.None? ==> mid == db
    requires final == Replay(mid, rest)
    ensures final == Replay(db, Written(w) + rest)
  {
    if w.Some? {
      var log := Written(w) + rest;
      assert log[0] == w.value && log[1..] == rest;
    } else {
      assert Written(w) + rest == rest;
    }
  }

  /** Over any run of time updates, persisted writes below the threshold are at
      least five seconds of position apart, and `lastReportedTime` ends at the
      last persisted position. */
  lemma {:induction false} TimeUpdatesThrottled(sop: SopId, p: Page, db: Db, evs: seq<Event>)
    requires forall i :: 0 <= i < |evs| ==> WellFormed(evs[i]) && IsTimeUpdate(evs[i])
    ensures Throttled(p.lastReportedTime, Run(sop, p, db, evs).log)
    ensures Run(sop, p, db, evs).log == [] ==>
      Run(sop, p, db, evs).page.lastReportedTime == p.lastReportedTime
    ensures Run(sop, p, db, evs).log != [] ==>
      Run(sop, p, db, evs).page.lastReportedTime == Run(sop, p, db, evs).log[|Run(sop, p, db, evs).log| - 1].videoPosition
    decreases |evs|
  {
    if evs != [] {
      var s := Apply(sop, p, db, evs[0]);
      var rest := Run(sop, s.page, s.db, evs[1..]);
      TimeUpdateStep(sop, p, db, evs[0]);
      TimeUpdatesThrottled(sop, s.page, s.db, evs[1..]);
      ThrottleStep(p.lastReportedTime, s.written, s.page.lastReportedTime, rest.log, rest.page.lastReportedTime);
      assert Run(sop, p, db, evs).log == Written(s.written) + rest.log;
    }
  }

  /** Over any run of time updates, the final store is the initial one with the
      logged rows upserted in order. */
  lemma {:induction false} TimeUpdatesReplay(sop: SopId, p: Page, db: Db, evs: seq<Event>)
    requires forall i :: 0 <= i < |evs| ==> WellFormed(evs[i]) && IsTimeUpdate(evs[i])
    ensures Run(sop, p, db, evs).db == Replay(db, Run(sop, p, db, evs).log)
    decreases |evs|
  {
    if evs != [] {
      var s := Apply(sop, p, db, evs[0]);
      var rest := Run(sop, s.page, s.db, evs[1..]);
      TimeUpdateStep(sop, p, db, evs[0]);
      TimeUpdatesReplay(sop, s.page, s.db, evs[1..]);
      ReplayStep(db, s.written, s.db, rest.log, rest.db);
      assert Run(sop, p, db, evs).log == Written(s.written) + rest.log;
    }
  }

  // ---------------------------------------------------------------------------
  // Scenarios.

  /** Resume: after loading a stored row at position `pos`, the metadata handler
      seeks the video back to `pos` (when it is past the start). */
  lemma ResumeFromStoredPosition(sop: SopId, p: Page, db: Db, u: UserId, duration: real)
    requires Key(u, sop) in db.progress
    ensures
      var pos := db.progress[Key(u, sop)].videoPosition;
      var loaded := OnLoad(sop, p, db, SignedIn(u), true, true).page;
      && loaded.lastReportedTime == pos
      && OnMetadataLoaded(loaded, duration).seekTo == (if pos > 0.0 then Some(pos) else None)
  {
  }

  /** A 120-second video sampled at 0, 3, 6 and 9 seconds: the first save is
      at 6 seconds, at 5 percent, and the sample at 9 seconds writes nothing. */
  lemma FirstSaveAfterFiveSeconds(sop: SopId, u: UserId, db: Db, now: string)
    ensures
      var p := InitialPage().(userId := Some(u));
      var evs := [TimeUpdate(0.0, 120.0, true, now), TimeUpdate(3.0, 120.0, true, now),
                  TimeUpdate(6.0, 120.0, true, now), TimeUpdate(9.0, 120.0, true, now)];
      Run(sop, p, db, evs).log == [ProgressRecord(u, sop, 6.0, 120.0, 5, now)]
  {
    var p := InitialPage().(userId := Some(u));
    assert Percentage(0.0, 120.0) == 0;
    assert Percentage(3.0, 120.0) == 2;
    assert Percentage(6.0, 120.0) == 5;
    assert Percentage(9.0, 120.0) == 7;
    var evs := [TimeUpdate(0.0, 120.0, true, now), TimeUpdate(3.0, 120.0, true, now),
                TimeUpdate(6.0, 120.0, true, now), TimeUpdate(9.0, 120.0, true, now)];
    var s1 := Apply(sop, p, db, evs[0]);
    var s2 := Apply(sop, s1.page, s1.db, evs[1]);
    var s3 := Apply(sop, s2.page, s2.db, evs[2]);
    var s4 := Apply(sop, s3.page, s3.db, evs[3]);
    assert s1.written.None? && s2.written.None? && s4.written.None?;
    assert s3.written == Some(ProgressRecord(u, sop, 6.0, 120.0, 5, now));
    assert evs[1..] == [evs[1], evs[2], evs[3]];
    assert evs[1..][1..] == [evs[2], evs[3]];
    assert evs[1..][1..][1..] == [evs[3]];
    assert evs[1..][1..][1..][1..] == [];
    assert Run(sop, s4.page, s4.db, []).log == [];
    assert Run(sop, s3.page, s3.db, [evs[3]]).log == [];
    assert Run(sop, s2.page, s2.db, [evs[2], evs[3]]).log == [ProgressRecord(u, sop, 6.0, 120.0, 5, now)];
    assert Run(sop, s1.page, s1.db, [evs[1], evs[2], evs[3]]).log == [ProgressRecord(u, sop, 6.0, 120.0, 5, now)];
  }

  /** The ended handler stores position = duration at 100 percent and marks the
      video watched, whatever the throttle state and whether a save was in flight. */
  lemma EndedStoresFullWatch(sop: SopId, p: Page, db: Db, d: real, now: string)
    requires p.userId.Some?
    ensures
      var r := OnEnded(sop, p, db, d, true, now);
      && Lookup(r.db.progress, Key(p.userId.value, sop)) == Some(ProgressRecord(p.userId.value, sop, d, d, 100, now))
      && r.page.videoWatched && !r.page.isSaving
  {
  }

  /** Marking complete twice leaves one completion row for the key, carrying the
      later timestamp: the second call overwrites and never duplicates. */
  lemma MarkCompleteTwice(sop: SopId, p: Page, db: Db, u: UserId, now1: string, now2: string)
    requires p.videoWatched
    ensures
      var m1 := OnMarkComplete(sop, p, db, SignedIn(u), true, now1);
      var m2 := OnMarkComplete(sop, m1.page, m1.db, SignedIn(u), true, now2);
      && m1.outcome == Completed && m2.outcome == Completed
      && m2.db.completions.Keys == m1.db.completions.Keys
      && m2.db.completions[Key(u, sop)] == CompletionRecord(sop, u, now2)
  {
  }

  /** Marking complete before the video is watched is refused and writes nothing. */
  lemma MarkCompleteUnwatchedRefused(sop: SopId, p: Page, db: Db, auth: Auth, ok: bool, now: string, u: UserId)
    requires !p.videoWatched && Key(u, sop) !in db.completions
    ensures OnMarkComplete(sop, p, db, auth, ok, now).outcome == NotEligible
    ensures Key(u, sop) !in OnMarkComplete(sop, p, db, auth, ok, now).db.completions
  {
  }

  /** A jump from 92 to 96 seconds of a 100-second video, only 4 seconds after
      the last report, crosses the threshold: the row is written at once and
      the video counts as watched. */
  lemma ThresholdCrossingSaves(sop: SopId, u: UserId, db: Db, now: string)
    ensures
      var p := InitialPage().(userId := Some(u), lastReportedTime := 92.0);
      var r := OnTimeUpdate(sop, p, db, 96.0, 100.0, true, now);
      r.written == Some(ProgressRecord(u, sop, 96.0, 100.0, 96, now)) && r.page.videoWatched
  {
    assert Percentage(96.0, 100.0) == 96;
  }
}
