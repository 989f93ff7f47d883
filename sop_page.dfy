/** The SOP video page as the object the browser drives: its React state lives
    in fields, the handlers update them in place and write the shared record
    store. Each handler is proved to perform exactly one transition of module
    Tracker: `CheckUserAndCompletionStatus` is `OnLoad`, `HandleMetadataLoaded`
    is `OnMetadataLoaded`, `HandleTimeUpdate` is `OnTimeUpdate`, `HandleEnded`
    is `OnEnded`, `HandleMarkComplete` is `OnMarkComplete` and
    `ForceSaveProgress` is `OnForceSave`. */
module SopPage {

  import opened Common
  import opened Store
  import opened Tracker

  class WatchPage {
    const sop: SopId
    const store: RecordStore

    var userId: Option<UserId>
    var lastReportedTime: real
    var videoWatched: bool
    var isSaving: bool
    var completed: bool
    var markingComplete: bool
    var videoProgress: int
    var videoDuration: real
    var videoLoaded: bool

    /** The page state as a value. */
    function State(): Page
      reads this
    {
      Page(userId, lastReportedTime, videoWatched, isSaving, completed, markingComplete,
           videoProgress, videoDuration, videoLoaded)
    }

    /** Mounting the page for SOP `sop` (`WebAppUsage` or `MobileAppUsage`). */
    constructor (sop: SopId, store: RecordStore)
      ensures this.sop == sop && this.store == store
      ensures State() == InitialPage()
    {
      this.sop := sop;
      this.store := store;
      userId := None;
      lastReportedTime := 0.0;
      videoWatched := false;
      isSaving := false;
      completed := false;
      markingComplete := false;
      videoProgress := 0;
      videoDuration := 0.0;
      videoLoaded := false;
    }

    /** The mount effect `checkUserAndCompletionStatus`, reading both rows from the store. */
    method CheckUserAndCompletionStatus(auth: Auth, completionReadOk: bool, progressReadOk: bool)
      returns (toLogin: bool, seekTo: Option<real>)
      modifies this
      ensures State() == OnLoad(sop, old(State()), store.Contents(), auth, completionReadOk, progressReadOk).page
      ensures toLogin == OnLoad(sop, old(State()), store.Contents(), auth, completionReadOk, progressReadOk).toLogin
      ensures seekTo == OnLoad(sop, old(State()), store.Contents(), auth, completionReadOk, progressReadOk).seekTo
      ensures old(videoWatched) ==> videoWatched
      ensures old(completed) ==> completed
    {
      toLogin, seekTo := false, None;
      match auth {
        case AuthError =>
        case NoUser =>
          toLogin := true;
        case SignedIn(u) =>
          userId := Some(u);
          var key := Key(u, sop);
          var completion := if completionReadOk then Lookup(store.completions, key) else None;
          if completion.Some? {
            completed := true;
          }
          var progress := if progressReadOk then Lookup(store.progress, key) else None;
          if progress.Some? {
            if progress.value.progressPercentage >= WatchedThreshold {
              videoWatched := true;
            }
            lastReportedTime := progress.value.videoPosition;
            if videoLoaded {
              seekTo := Some(progress.value.videoPosition);
            }
          }
      }
    }

    /** `handleMetadataLoaded`. */
    method HandleMetadataLoaded(duration: real) returns (seekTo: Option<real>)
      modifies this
      ensures State() == OnMetadataLoaded(old(State()), duration).page
      ensures seekTo == OnMetadataLoaded(old(State()), duration).seekTo
    {
      videoDuration := duration;
      videoLoaded := true;
      seekTo := None;
      if lastReportedTime > 0.0 {
        seekTo := Some(lastReportedTime);
      }
    }

    /** `handleTimeUpdate` at position `currentTime` of a video of length `duration`. */
    method HandleTimeUpdate(currentTime: real, duration: real, ok: bool, now: string)
      requires duration > 0.0 && 0.0 <= currentTime <= duration
      modifies this, store
      ensures State() == OnTimeUpdate(sop, old(State()), old(store.Contents()), currentTime, duration, ok, now).page
      ensures store.Contents() == OnTimeUpdate(sop, old(State()), old(store.Contents()), currentTime, duration, ok, now).db
      ensures 0 <= videoProgress <= 100 || videoProgress == old(videoProgress)
      ensures old(videoWatched) ==> videoWatched
    {
      if userId.None? || isSaving {
        return;
      }
      var progressPercentage := Percentage(currentTime, duration);
      videoProgress := progressPercentage;
      if ShouldSave(currentTime, lastReportedTime, progressPercentage, videoWatched) {
        SaveProgress(currentTime, duration, progressPercentage, ok, now);
      }
    }

    /** The throttled save of `handleTimeUpdate`: upsert the row, and on success
        move the reported position and raise the watched flag at the threshold. */
    method SaveProgress(currentTime: real, duration: real, progressPercentage: int, ok: bool, now: string)
      requires userId.Some? && !isSaving
      modifies this, store
      ensures store.Contents() == if ok then
        UpsertProgress(old(store.Contents()), ProgressRecord(old(userId.value), sop, currentTime, duration, progressPercentage, now))
        else old(store.Contents())
      ensures State() == old(State()).(
        lastReportedTime := if ok then currentTime else old(lastReportedTime),
        videoWatched := old(videoWatched) || (ok && progressPercentage >= WatchedThreshold))
    {
      isSaving := true;
      var rec := ProgressRecord(userId.value, sop, currentTime, duration, progressPercentage, now);
      store.UpsertProgressRow(rec, ok);
      if ok {
        lastReportedTime := currentTime;
        if progressPercentage >= WatchedThreshold && !videoWatched {
          videoWatched := true;
        }
      }
      isSaving := false;
    }

    /** `handleEnded`. */
    method HandleEnded(duration: real, ok: bool, now: string)
      modifies this, store
      ensures State() == OnEnded(sop, old(State()), old(store.Contents()), duration, ok, now).page
      ensures store.Contents() == OnEnded(sop, old(State()), old(store.Contents()), duration, ok, now).db
      ensures old(videoWatched) ==> videoWatched
    {
      if userId.None? {
        return;
      }
      isSaving := true;
      var rec := ProgressRecord(userId.value, sop, duration, duration, 100, now);
      store.UpsertProgressRow(rec, ok);
      if ok {
        videoWatched := true;
      }
      isSaving := false;
    }

    /** `handleMarkComplete`. */
    method HandleMarkComplete(auth: Auth, ok: bool, now: string) returns (outcome: Outcome)
      modifies this, store
      ensures State() == OnMarkComplete(sop, old(State()), old(store.Contents()), auth, ok, now).page
      ensures store.Contents() == OnMarkComplete(sop, old(State()), old(store.Contents()), auth, ok, now).db
      ensures outcome == OnMarkComplete(sop, old(State()), old(store.Contents()), auth, ok, now).outcome
      ensures !old(videoWatched) ==> outcome == NotEligible && unchanged(store)
      ensures old(completed) ==> completed
    {
      if !videoWatched {
        return NotEligible;
      }
      markingComplete := true;
      match auth {
        case SignedIn(u) =>
          store.UpsertCompletionRow(CompletionRecord(sop, u, now), ok);
          if ok {
            completed := true;
            outcome := Completed;
          } else {
            outcome := Failed;
          }
        case _ =>
          outcome := Failed;
      }
      markingComplete := false;
    }

    /** `forceSaveProgress`. */
    method ForceSaveProgress(currentTime: real, duration: real, ok: bool, now: string)
      requires duration > 0.0
      modifies this, store
      ensures State() == OnForceSave(sop, old(State()), old(store.Contents()), currentTime, duration, ok, now).page
      ensures store.Contents() == OnForceSave(sop, old(State()), old(store.Contents()), currentTime, duration, ok, now).db
      ensures videoWatched == old(videoWatched)
    {
      if userId.None? {
        return;
      }
      isSaving := true;
      var progressPercentage := Percentage(currentTime, duration);
      var rec := ProgressRecord(userId.value, sop, currentTime, duration, progressPercentage, now);
      store.UpsertProgressRow(rec, ok);
      if ok {
        lastReportedTime := currentTime;
      }
      isSaving := false;
    }
  }
}
