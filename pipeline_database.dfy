/** The store of the current pipeline (src/database.py): the append-only
    `post_history` and `caption_log` tables and the in-place update of the
    latest row of an image. A table is the sequence of its rows in
    insertion order, so a row's AUTOINCREMENT id is its position plus one
    and "newest id first" is the reverse of the sequence. The JSON columns
    hold the value `json.dumps` encodes; the clock reading of a caption
    row is a parameter. */
module PipelineDatabase {
  import opened Wrappers
  import opened Text
  import opened Json
  import LegacyStorage

  /** One `post_history` row. */
  datatype HistoryRow = HistoryRow(
    imageName: string,
    imagePath: string,
    caption: string,
    style: Option<string>,
    postTime: string,
    result: Json,
    dryRun: int,
    error: Option<string>)

  /** One `caption_log` row. */
  datatype CaptionRow = CaptionRow(
    imageName: string,
    style: string,
    caption: string,
    provider: string,
    extra: Json,
    createdAt: string)

  /** `value or {}`: the JSON stored for an optional dict. */
  function DictOrEmpty(value: Json): (r: Json)
    ensures Truthy(value) ==> r == value
    ensures !Truthy(value) ==> r == JObj([])
  {
    Or(value, JObj([]))
  }

  /** The row `record_post` inserts. */
  function HistoryRowOf(imagePath: string, caption: string, style: Option<string>, postTime: string,
                        result: Json, dryRun: bool, error: Option<string>): (row: HistoryRow)
    ensures row.imageName == PathName(imagePath) && row.imagePath == imagePath
    ensures row.caption == caption && row.style == style && row.postTime == postTime && row.error == error
    ensures row.result == DictOrEmpty(result)
    ensures row.dryRun == 1 <==> dryRun
    ensures row.dryRun == 0 <==> !dryRun
  {
    HistoryRow(PathName(imagePath), imagePath, caption, style, postTime, DictOrEmpty(result),
               if dryRun then 1 else 0, error)
  }

  /** The position of the newest row named `name`, if any. */
  function LatestNamed(rows: seq<HistoryRow>, name: string): (r: Option<nat>)
    ensures r.None? <==> forall i :: 0 <= i < |rows| ==> rows[i].imageName != name
    ensures r.Some? ==> r.value < |rows| && rows[r.value].imageName == name
    ensures r.Some? ==> forall j :: r.value < j < |rows| ==> rows[j].imageName != name
  {
    if rows == [] then None
    else if rows[|rows| - 1].imageName == name then Some(|rows| - 1)
    else LatestNamed(rows[..|rows| - 1], name)
  }

  /** The table after `mark_post_result(name, result, error)`: the newest
      row named `name` gets the new result and error, nothing else moves. */
  function Marked(rows: seq<HistoryRow>, name: string, result: Json, error: Option<string>): seq<HistoryRow> {
    match LatestNamed(rows, name)
    case None => rows
    case Some(i) => rows[i := rows[i].(result := DictOrEmpty(result), error := error)]
  }

  /** Only the newest matching row changes, and only in its `result` and
      `error` columns; with no matching row nothing changes. */
  lemma MarkedChangesLatestOnly(rows: seq<HistoryRow>, name: string, result: Json, error: Option<string>)
    ensures |Marked(rows, name, result, error)| == |rows|
    ensures (forall i :: 0 <= i < |rows| ==> rows[i].imageName != name) ==> Marked(rows, name, result, error) == rows
    ensures forall i :: 0 <= i < |rows| && Some(i) != LatestNamed(rows, name) ==> Marked(rows, name, result, error)[i] == rows[i]
    ensures forall i :: 0 <= i < |rows| && Some(i) == LatestNamed(rows, name) ==>
      Marked(rows, name, result, error)[i] == rows[i].(result := DictOrEmpty(result), error := error)
  {
  }

  /** A last row with another name is skipped by the search. */
  lemma LatestNamedSkip(rows: seq<HistoryRow>, i: nat, name: string)
    requires 0 < i <= |rows| && rows[i - 1].imageName != name
    ensures LatestNamed(rows[..i], name) == LatestNamed(rows[..i - 1], name)
  {
    assert rows[..i][..i - 1] == rows[..i - 1];
  }

  /** `Database`: the two tables. */
  class Database {
    var postHistory: seq<HistoryRow>
    var captionLog: seq<CaptionRow>

    /** `__init__` on a new file: both tables empty. */
    constructor ()
      ensures postHistory == [] && captionLog == []
    {
      postHistory := [];
      captionLog := [];
    }

    /** `get_posted_images`: the image name of every row, failure and
        dry-run rows included, oldest first. */
    function PostedImages(): (r: seq<string>)
      reads this
      ensures |r| == |postHistory|
      ensures forall i :: 0 <= i < |r| ==> r[i] == postHistory[i].imageName
    {
      seq(|postHistory|, i reads this requires 0 <= i < |postHistory| => postHistory[i].imageName)
    }

    /** `record_post`: one row appended, the others and the caption log
        untouched. Whatever its outcome, the image counts as posted from
        now on, and the row is the newest the history returns. */
    method RecordPost(imagePath: string, caption: string, style: Option<string>, postTime: string,
                      result: Json, dryRun: bool, error: Option<string>)
      modifies this
      ensures postHistory == old(postHistory) + [HistoryRowOf(imagePath, caption, style, postTime, result, dryRun, error)]
      ensures captionLog == old(captionLog)
      ensures PathName(imagePath) in PostedImages()
      ensures FetchPostHistory(1) == [HistoryRowOf(imagePath, caption, style, postTime, result, dryRun, error)]
    {
      var row := HistoryRowOf(imagePath, caption, style, postTime, result, dryRun, error);
      postHistory := postHistory + [row];
      assert PostedImages()[|postHistory| - 1] == row.imageName;
    }

    /** `log_caption` at the clock reading `now`: one caption row
        appended, the post history untouched. */
    method LogCaption(imagePath: string, caption: string, style: string, provider: string, extra: Json, now: string)
      modifies this
      ensures captionLog == old(captionLog) + [CaptionRow(PathName(imagePath), style, caption, provider, DictOrEmpty(extra), now)]
      ensures postHistory == old(postHistory)
    {
      captionLog := captionLog + [CaptionRow(PathName(imagePath), style, caption, provider, DictOrEmpty(extra), now)];
    }

    /** `fetch_post_history(limit)`: newest first, at most `limit` rows
        (a negative limit reads them all, as SQLite's `LIMIT` does). */
    function FetchPostHistory(limit: int): (r: seq<HistoryRow>)
      reads this
      ensures |r| == LegacyStorage.LimitCount(|postHistory|, limit)
      ensures limit >= 0 ==> |r| <= limit
      ensures forall i :: 0 <= i < |r| ==> r[i] == postHistory[|postHistory| - 1 - i]
    {
      Reverse(postHistory)[..LegacyStorage.LimitCount(|postHistory|, limit)]
    }

    /** `fetch_caption_logs(limit)`: newest first, at most `limit` rows. */
    function FetchCaptionLogs(limit: int): (r: seq<CaptionRow>)
      reads this
      ensures |r| == LegacyStorage.LimitCount(|captionLog|, limit)
      ensures limit >= 0 ==> |r| <= limit
      ensures forall i :: 0 <= i < |r| ==> r[i] == captionLog[|captionLog| - 1 - i]
    {
      Reverse(captionLog)[..LegacyStorage.LimitCount(|captionLog|, limit)]
    }

    /** `mark_post_result`: the `UPDATE ... WHERE id = (SELECT id ... ORDER
        BY id DESC LIMIT 1)`, searching from the newest row back. */
    method MarkPostResult(imageName: string, result: Json, error: Option<string>)
      modifies this
      ensures postHistory == Marked(old(postHistory), imageName, result, error)
      ensures captionLog == old(captionLog)
    {
      var i := |postHistory|;
      assert postHistory[..i] == postHistory;
      while i > 0 && postHistory[i - 1].imageName != imageName
        invariant 0 <= i <= |postHistory|
        invariant postHistory == old(postHistory) && captionLog == old(captionLog)
        invariant LatestNamed(postHistory, imageName) == LatestNamed(postHistory[..i], imageName)
      {
        LatestNamedSkip(postHistory, i, imageName);
        i := i - 1;
      }
      if i > 0 {
        assert postHistory[..i][i - 1] == postHistory[i - 1];
        postHistory := postHistory[i - 1 := postHistory[i - 1].(result := DictOrEmpty(result), error := error)];
      } else {
        assert LatestNamed(postHistory[..0], imageName) == None;
      }
    }
  }
}
