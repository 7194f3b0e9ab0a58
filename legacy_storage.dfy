/** The SQLite store of the legacy loop (auto_ai_influencer/storage.py),
    held in memory: the `posts`, `errors` and `engagements` tables are sequences of rows
    in insertion order. Timestamps are given by the caller. */
module LegacyStorage {
  import opened Wrappers
  import opened Text

  const Twitter := "twitter"

  /** One row of `posts`; `dry_run` is the stored integer. */
  datatype PostRow = PostRow(
    imagePath: string, caption: string, postedAt: string,
    tweetId: Option<string>, platform: string, externalId: Option<string>, dryRun: int)

  /** One row of `errors` (the traceback column is not modelled). */
  datatype ErrorRow = ErrorRow(context: string, message: string, createdAt: string)

  /** One row of `engagements`: a snapshot of a tweet's counters. */
  datatype EngagementRow = EngagementRow(tweetId: string, likes: int, retweets: int, replies: int, recordedAt: string)

  /** `PostRecord`, with the timestamp as its ISO text. */
  datatype PostRecord = PostRecord(
    imagePath: string, caption: string, postedAt: string,
    platform: string, externalId: Option<string>, dryRun: bool)

  /** The row `record_post` inserts for a record. */
  function RowOf(record: PostRecord): (row: PostRow)
    ensures row.imagePath == record.imagePath && row.caption == record.caption && row.postedAt == record.postedAt
    ensures row.platform == record.platform && row.externalId == record.externalId
    ensures row.tweetId == if record.platform == Twitter then record.externalId else None
    ensures row.dryRun == 1 <==> record.dryRun
    ensures row.dryRun == 0 || row.dryRun == 1
  {
    PostRow(record.imagePath, record.caption, record.postedAt,
            if record.platform == Twitter then record.externalId else None,
            record.platform, record.externalId, if record.dryRun then 1 else 0)
  }

  /** Python truthiness of an optional text column. */
  predicate Filled(v: Option<string>) { v.Some? && v.value != [] }

  /** The record `list_recent_posts` builds from a row: `external_id or
      tweet_id`, `platform or "twitter"`, `bool(dry_run)`. */
  function ReadBack(row: PostRow): (record: PostRecord)
    ensures record.platform != []
    ensures record.postedAt == row.postedAt
  {
    PostRecord(row.imagePath, row.caption, row.postedAt,
               if row.platform != [] then row.platform else Twitter,
               if Filled(row.externalId) then row.externalId else row.tweetId,
               row.dryRun != 0)
  }

  /** A record comes back as it was written, except that an empty post id
      of a platform other than Twitter comes back as `None`. */
  lemma ReadBackOfRowOf(record: PostRecord)
    requires record.platform != []
    ensures record.externalId != Some([]) || record.platform == Twitter ==> ReadBack(RowOf(record)) == record
    ensures record.externalId == Some([]) && record.platform != Twitter ==>
      ReadBack(RowOf(record)) == record.(externalId := None)
  {
  }

  // ---------------------------------------------------------------------
  // The migration backfill
  // ---------------------------------------------------------------------

  /** The backfill `UPDATE` as written: rows with a `tweet_id` and a NULL
      or empty `external_id` get `COALESCE(external_id, tweet_id)`. */
  function BackfillAsWritten(row: PostRow): PostRow {
    if row.tweetId.Some? && (row.externalId.None? || row.externalId == Some([])) then
      row.(externalId := if row.externalId.Some? then row.externalId else row.tweetId)
    else row
  }

  /** The row the query selects because its `external_id` is empty keeps
      it empty, since `COALESCE` only replaces NULL. */
  lemma BackfillKeepsEmptyId()
    ensures var row := PostRow("a.png", "c", "2024-01-01T00:00:00", Some("123"), Twitter, Some(""), 0);
      BackfillAsWritten(row).externalId == Some("")
  {
  }

  /** The backfill the `WHERE` clause asks for: every selected row takes
      its `tweet_id`. */
  function BackfillIntended(row: PostRow): (r: PostRow)
    ensures row.tweetId.Some? && !Filled(row.externalId) ==> r == row.(externalId := row.tweetId)
    ensures row.tweetId.None? || Filled(row.externalId) ==> r == row
  {
    if row.tweetId.Some? && !Filled(row.externalId) then row.(externalId := row.tweetId) else row
  }

  /** After the intended backfill no row with a `tweet_id` lacks an
      `external_id` unless the `tweet_id` is itself empty, and the rows
      `list_recent_posts` reads are the same whichever backfill ran. */
  lemma BackfillIntendedFills(row: PostRow)
    ensures row.tweetId.Some? && row.tweetId.value != [] ==> Filled(BackfillIntended(row).externalId)
    ensures ReadBack(BackfillIntended(row)) == ReadBack(row)
    ensures ReadBack(BackfillAsWritten(row)) == ReadBack(row)
  {
  }

  /** What `_ensure_new_columns` does to one existing row, given the
      columns the table had: a missing column is added with its default,
      and the backfill runs when `tweet_id` was already there. */
  function MigrateRow(columns: set<string>, row: PostRow): PostRow {
    var added := row.(
      platform := if "platform" in columns then row.platform else Twitter,
      externalId := if "external_id" in columns then row.externalId else None,
      tweetId := if "tweet_id" in columns then row.tweetId else None);
    if "tweet_id" in columns then BackfillAsWritten(added) else added
  }

  const AllColumns: set<string> := {"platform", "external_id", "tweet_id"}

  /** Opening the store a second time changes no row. */
  lemma MigrateTwice(columns: set<string>, row: PostRow)
    ensures MigrateRow(AllColumns, MigrateRow(columns, row)) == MigrateRow(columns, row)
  {
  }

  // ---------------------------------------------------------------------
  // ORDER BY posted_at DESC LIMIT ?
  // ---------------------------------------------------------------------

  function PostedAt(row: PostRow): string { row.postedAt }

  /** The rows by `posted_at`, newest first (ties in one of the orders
      SQLite may produce). */
  function NewestFirst(rows: seq<PostRow>): (r: seq<PostRow>)
    ensures multiset(r) == multiset(rows)
    ensures forall i, j :: 0 <= i < j < |r| ==> LexLe(r[j].postedAt, r[i].postedAt)
  {
    var sorted := SortBy(rows, PostedAt);
    ReverseMultiset(sorted);
    Reverse(sorted)
  }

  /** `LIMIT n`: a negative limit keeps every row. */
  function LimitCount(n: nat, limit: int): (k: nat)
    ensures k <= n
  {
    if limit < 0 || limit >= n then n else limit
  }

  /** The rows `list_recent_posts(limit)` reads, and the rows it leaves out. */
  function RecentRows(rows: seq<PostRow>, limit: int): seq<PostRow> {
    NewestFirst(rows)[..LimitCount(|rows|, limit)]
  }

  function OlderRows(rows: seq<PostRow>, limit: int): seq<PostRow> {
    NewestFirst(rows)[LimitCount(|rows|, limit)..]
  }

  /** Newest first by `posted_at`. */
  predicate Descending(rows: seq<PostRow>) {
    forall i, j :: 0 <= i < j < |rows| ==> LexLe(rows[j].postedAt, rows[i].postedAt)
  }

  lemma SplitDescending(all: seq<PostRow>, k: nat)
    requires k <= |all| && Descending(all)
    ensures multiset(all[..k]) + multiset(all[k..]) == multiset(all)
    ensures forall i, j :: 0 <= i < k && 0 <= j < |all| - k ==> LexLe(all[k..][j].postedAt, all[..k][i].postedAt)
  {
    assert all == all[..k] + all[k..];
    forall i, j | 0 <= i < k && 0 <= j < |all| - k
      ensures LexLe(all[k..][j].postedAt, all[..k][i].postedAt)
    {
      assert all[k..][j] == all[k + j] && all[..k][i] == all[i];
    }
  }

  /** The rows read are stored rows, newest first, as many as the limit
      allows. */
  lemma RecentRowsStored(rows: seq<PostRow>, limit: int)
    ensures |RecentRows(rows, limit)| == LimitCount(|rows|, limit)
    ensures Descending(RecentRows(rows, limit))
    ensures forall i :: 0 <= i < |RecentRows(rows, limit)| ==>
      exists k :: 0 <= k < |rows| && RecentRows(rows, limit)[i] == rows[k]
  {
    var all := NewestFirst(rows);
    var recent := RecentRows(rows, limit);
    forall i | 0 <= i < |recent| ensures exists k :: 0 <= k < |rows| && recent[i] == rows[k] {
      assert recent[i] == all[i];
      assert all[i] in multiset(rows);
    }
  }

  /** The rows read are the newest ones: together with the rows left out
      they are the table, and none left out is newer than one read. */
  lemma RecentRowsAreNewest(rows: seq<PostRow>, limit: int)
    ensures |RecentRows(rows, limit)| == LimitCount(|rows|, limit)
    ensures multiset(RecentRows(rows, limit)) + multiset(OlderRows(rows, limit)) == multiset(rows)
    ensures forall i, j :: 0 <= i < |RecentRows(rows, limit)| && 0 <= j < |OlderRows(rows, limit)| ==>
      LexLe(OlderRows(rows, limit)[j].postedAt, RecentRows(rows, limit)[i].postedAt)
  {
    var all := NewestFirst(rows);
    assert Descending(all);
    SplitDescending(all, LimitCount(|rows|, limit));
  }

  // ---------------------------------------------------------------------
  // Database
  // ---------------------------------------------------------------------

  /** `Database`: its three tables. */
  class LegacyDatabase {
    var posts: seq<PostRow>
    var errors: seq<ErrorRow>
    var engagements: seq<EngagementRow>

    /** A new store: every table empty. */
    constructor ()
      ensures posts == [] && errors == [] && engagements == []
    {
      posts := [];
      errors := [];
      engagements := [];
    }

    /** `_ensure_new_columns` over the rows already in `posts`, given the
        columns `PRAGMA table_info` reported. */
    method EnsureNewColumns(columns: set<string>)
      modifies this
      ensures |posts| == |old(posts)|
      ensures forall i :: 0 <= i < |posts| ==> posts[i] == MigrateRow(columns, old(posts)[i])
      ensures errors == old(errors) && engagements == old(engagements)
    {
      var i := 0;
      while i < |posts|
        invariant 0 <= i <= |posts| == |old(posts)|
        invariant forall j :: 0 <= j < i ==> posts[j] == MigrateRow(columns, old(posts)[j])
        invariant forall j :: i <= j < |posts| ==> posts[j] == old(posts)[j]
        invariant errors == old(errors) && engagements == old(engagements)
      {
        posts := posts[i := MigrateRow(columns, posts[i])];
        i := i + 1;
      }
    }

    /** `get_posted_images`: every image path in `posts`, dry runs included. */
    function PostedImages(): (r: set<string>)
      reads this
      ensures forall p :: p in r <==> exists i :: 0 <= i < |posts| && posts[i].imagePath == p
    {
      set i | 0 <= i < |posts| :: posts[i].imagePath
    }

    /** `record_post`: one row appended, the others untouched. */
    method RecordPost(record: PostRecord)
      modifies this
      ensures posts == old(posts) + [RowOf(record)]
      ensures errors == old(errors) && engagements == old(engagements)
      ensures PostedImages() == old(PostedImages()) + {record.imagePath}
    {
      posts := posts + [RowOf(record)];
      assert forall i :: 0 <= i < |old(posts)| ==> posts[i] == old(posts)[i];
      assert posts[|old(posts)|].imagePath == record.imagePath;
    }

    /** `record_error` at time `now`. */
    method RecordError(context: string, message: string, now: string)
      modifies this
      ensures errors == old(errors) + [ErrorRow(context, message, now)]
      ensures posts == old(posts) && engagements == old(engagements)
    {
      errors := errors + [ErrorRow(context, message, now)];
    }

    /** `record_engagement` at time `now`: one snapshot appended; the posts
        and hence the posted images are untouched. */
    method RecordEngagement(tweetId: string, likes: int, retweets: int, replies: int, now: string)
      modifies this
      ensures engagements == old(engagements) + [EngagementRow(tweetId, likes, retweets, replies, now)]
      ensures posts == old(posts) && errors == old(errors)
      ensures PostedImages() == old(PostedImages())
    {
      engagements := engagements + [EngagementRow(tweetId, likes, retweets, replies, now)];
    }

    /** `list_recent_posts(limit)`. */
    function ListRecentPosts(limit: int): (r: seq<PostRecord>)
      reads this
      ensures |r| == LimitCount(|posts|, limit)
      ensures forall i, j :: 0 <= i < j < |r| ==> LexLe(r[j].postedAt, r[i].postedAt)
      ensures forall i :: 0 <= i < |r| ==> exists k :: 0 <= k < |posts| && r[i] == ReadBack(posts[k])
    {
      var rows := RecentRows(posts, LimitCount(|posts|, limit));
      RecentRowsStored(posts, LimitCount(|posts|, limit));
      seq(|rows|, i requires 0 <= i < |rows| => ReadBack(rows[i]))
    }
  }
}
