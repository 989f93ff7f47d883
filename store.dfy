/** The hosted record store the pages talk to, reduced to the two tables the
    watch tracker writes: `sop_video_progress` and `sop_completions`. Both are
    written only by upsert with conflict target `user_id,sop_id`. */
module Store {

  import opened Common

  type UserId = string
  type SopId = string

  /** The two training units the application ships. */
  const WebAppUsage: SopId := "web-app-usage"
  const MobileAppUsage: SopId := "mobile-app-usage"

  /** The outcome of `supabase.auth.getUser()`: an error, no signed-in user, or the user. */
  datatype Auth = AuthError | NoUser | SignedIn(id: UserId)

  /** A `profiles` row. */
  datatype Profile = Profile(id: UserId, fullName: string, email: string, avatarUrl: Option<string>)

  /** The conflict target `(user_id, sop_id)` of both tables. */
  datatype Key = Key(userId: UserId, sopId: SopId)

  /** A `sop_video_progress` row as the tracker writes it (`last_updated` is an ISO timestamp). */
  datatype ProgressRecord = ProgressRecord(
    userId: UserId,
    sopId: SopId,
    videoPosition: real,
    duration: real,
    progressPercentage: int,
    lastUpdated: string)
  {
    function KeyOf(): Key { Key(userId, sopId) }
  }

  /** A `sop_completions` row. */
  datatype CompletionRecord = CompletionRecord(sopId: SopId, userId: UserId, completedAt: string)
  {
    function KeyOf(): Key { Key(userId, sopId) }
  }

  /** The contents of both tables: one row per key, by construction of a map. */
  datatype Db = Db(progress: map<Key, ProgressRecord>, completions: map<Key, CompletionRecord>)

  /** A table whose every row is stored under its own `(user_id, sop_id)`. */
  ghost predicate KeyedProgress(m: map<Key, ProgressRecord>)
  {
    forall k :: k in m ==> m[k].KeyOf() == k
  }

  ghost predicate KeyedCompletions(m: map<Key, CompletionRecord>)
  {
    forall k :: k in m ==> m[k].KeyOf() == k
  }

  ghost predicate WellKeyed(db: Db)
  {
    KeyedProgress(db.progress) && KeyedCompletions(db.completions)
  }

  /** Insert-or-update on the conflict key: the row under `k` becomes `v`,
      every other row is untouched, and at most one row is added. */
  function Upsert<V>(m: map<Key, V>, k: Key, v: V): (r: map<Key, V>)
    ensures k in r && r[k] == v
    ensures r.Keys == m.Keys + {k}
    ensures forall k' :: k' in m && k' != k ==> r[k'] == m[k']
    ensures |r| == if k in m then |m| else |m| + 1
  {
    var r := m[k := v];
    assert k in m ==> r.Keys == m.Keys;
    assert k !in m ==> r.Keys == m.Keys + {k} && k !in m.Keys;
    r
  }

  function UpsertProgress(db: Db, rec: ProgressRecord): (r: Db)
    ensures r.completions == db.completions
  {
    db.(progress := Upsert(db.progress, rec.KeyOf(), rec))
  }

  function UpsertCompletion(db: Db, rec: CompletionRecord): (r: Db)
    ensures r.progress == db.progress
  {
    db.(completions := Upsert(db.completions, rec.KeyOf(), rec))
  }

  /** An upsert keeps every row stored under its own key. */
  lemma UpsertKeepsKeyed(db: Db, p: ProgressRecord, c: CompletionRecord)
    requires WellKeyed(db)
    ensures WellKeyed(UpsertProgress(db, p))
    ensures WellKeyed(UpsertCompletion(db, c))
  {
  }

  /** A second upsert on the same key replaces the first: last write wins and
      no duplicate row ever appears. */
  lemma UpsertSameKey<V>(m: map<Key, V>, k: Key, v1: V, v2: V)
    ensures Upsert(Upsert(m, k, v1), k, v2) == Upsert(m, k, v2)
    ensures |Upsert(Upsert(m, k, v1), k, v2)| == |Upsert(m, k, v1)|
  {
    assert Upsert(Upsert(m, k, v1), k, v2).Keys == Upsert(m, k, v2).Keys;
  }

  /** Repeating the same upsert changes nothing: re-marking a completion is idempotent. */
  lemma UpsertIdempotent<V>(m: map<Key, V>, k: Key, v: V)
    ensures Upsert(Upsert(m, k, v), k, v) == Upsert(m, k, v)
  {
    UpsertSameKey(m, k, v, v);
  }

  /** `.eq("sop_id", s).eq("user_id", u).single()` on a table keyed by `(user_id, sop_id)`:
      at most one row can match, so `.single()` yields it or nothing. */
  function Lookup<V>(m: map<Key, V>, k: Key): (r: Option<V>)
    ensures r.Some? <==> k in m
    ensures r.Some? ==> r.value == m[k]
  {
    if k in m then Some(m[k]) else None
  }

  /** The store object the pages share. */
  class RecordStore {
    var progress: map<Key, ProgressRecord>
    var completions: map<Key, CompletionRecord>

    function Contents(): Db
      reads this
    {
      Db(progress, completions)
    }

    constructor (initial: Db)
      ensures Contents() == initial
    {
      progress := initial.progress;
      completions := initial.completions;
    }

    /** `from("sop_video_progress").upsert(rec, { onConflict: "user_id,sop_id" })`;
        `ok` is whether the request succeeds. */
    method UpsertProgressRow(rec: ProgressRecord, ok: bool)
      modifies this
      ensures Contents() == if ok then UpsertProgress(old(Contents()), rec) else old(Contents())
    {
      if ok {
        progress := Upsert(progress, rec.KeyOf(), rec);
      }
    }

    /** `from("sop_completions").upsert(rec, { onConflict: "user_id,sop_id" })`. */
    method UpsertCompletionRow(rec: CompletionRecord, ok: bool)
      modifies this
      ensures Contents() == if ok then UpsertCompletion(old(Contents()), rec) else old(Contents())
    {
      if ok {
        completions := Upsert(completions, rec.KeyOf(), rec);
      }
    }
  }
}
