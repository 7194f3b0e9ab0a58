/** The scheduler of the current pipeline (src/scheduler.py): the
    `HH:MM` posting slots, the fan-out to every poster, the one
    `post_history` row each pipeline run writes, and whether the cron
    scheduler is running. The cron library itself is not modelled: a
    running scheduler is the list of slots it was given. */
module PipelineScheduler {
  import opened Wrappers
  import opened Text
  import opened Json
  import LegacyPoster
  import LegacyRunner
  import PipelineConfig
  import PipelineDatabase
  import PipelineImage
  import PipelineCaption

  type PostResult = LegacyPoster.PostResult
  type Poster = LegacyRunner.Poster

  // ---------------------------------------------------------------------
  // _normalized_slots
  // ---------------------------------------------------------------------

  /** `max(lo, min(hi, v))`. */
  function Clamp(v: int, lo: int, hi: int): (r: int)
    requires lo <= hi
    ensures lo <= r <= hi
    ensures lo <= v <= hi ==> r == v
  {
    if v < lo then lo else if v > hi then hi else v
  }

  /** One slot: a string split at its first ':' into two integers, each
      clamped to the clock's range; `None` where the code raises (not a
      string, no ':', a part that is not an integer). */
  function ParseSlot(slot: Json): (r: Option<(int, int)>)
    ensures r.Some? ==> 0 <= r.value.0 <= 23 && 0 <= r.value.1 <= 59
    ensures !slot.JStr? || ':' !in slot.s ==> r.None?
  {
    if !slot.JStr? then None
    else
      match SplitOnce(slot.s, ':')
      case None => None
      case Some((hourText, minuteText)) =>
        match ParseInt(hourText)
        case None => None
        case Some(hour) =>
          match ParseInt(minuteText)
          case None => None
          case Some(minute) => Some((Clamp(hour, 0, 23), Clamp(minute, 0, 59)))
  }

  /** A readable slot is clamped, not dropped. */
  lemma ParseSlotClamps(hourText: string, minuteText: string)
    requires ':' !in hourText
    requires ParseInt(hourText).Some? && ParseInt(minuteText).Some?
    ensures ParseSlot(JStr(hourText + ":" + minuteText)) ==
      Some((Clamp(ParseInt(hourText).value, 0, 23), Clamp(ParseInt(minuteText).value, 0, 59)))
  {
    SplitOnceAt(hourText, ':', minuteText);
    assert hourText + ":" + minuteText == hourText + [':'] + minuteText;
  }

  /** The specification of `_normalized_slots`: the readable slots, in
      order. */
  function Slots(slots: seq<Json>): seq<(int, int)> {
    if slots == [] then []
    else
      var init := Slots(slots[..|slots| - 1]);
      match ParseSlot(slots[|slots| - 1])
      case None => init
      case Some(slot) => init + [slot]
  }

  /** Every normalised slot is a valid time of day, and no more slots come
      out than went in. */
  lemma {:induction false} SlotsInRange(slots: seq<Json>)
    ensures |Slots(slots)| <= |slots|
    ensures forall i :: 0 <= i < |Slots(slots)| ==> 0 <= Slots(slots)[i].0 <= 23 && 0 <= Slots(slots)[i].1 <= 59
  {
    if slots != [] {
      SlotsInRange(slots[..|slots| - 1]);
    }
  }

  /** Normalising a concatenation normalises each part in turn: entries
      keep their relative order, and an entry's fate depends on it alone. */
  lemma {:induction false} SlotsAppend(a: seq<Json>, b: seq<Json>)
    ensures Slots(a + b) == Slots(a) + Slots(b)
    decreases |b|
  {
    if b == [] {
      assert a + b == a;
    } else {
      var b' := b[..|b| - 1];
      SlotsAppend(a, b');
      assert (a + b)[..|a + b| - 1] == a + b';
      assert (a + b)[|a + b| - 1] == b[|b| - 1];
    }
  }

  /** One entry yields its parsed slot or nothing. */
  lemma SlotsSingle(slot: Json)
    ensures Slots([slot]) == (match ParseSlot(slot) case None => [] case Some(s) => [s])
  {
    assert [slot][..0] == [];
  }

  /** The slots of one more entry. */
  lemma SlotsStep(slots: seq<Json>, i: nat)
    requires i < |slots|
    ensures Slots(slots[..i + 1]) == Slots(slots[..i]) + (match ParseSlot(slots[i]) case None => [] case Some(s) => [s])
  {
    assert slots[..i + 1][..i] == slots[..i];
  }

  /** The body of the `try` in `_normalized_slots`: `None` where it
      raises. */
  method ReadSlot(slot: Json) returns (r: Option<(int, int)>)
    ensures r == ParseSlot(slot)
  {
    if !slot.JStr? || ':' !in slot.s {
      return None;
    }
    var parts := SplitOnce(slot.s, ':').value;
    var hour := ParseInt(parts.0);
    var minute := ParseInt(parts.1);
    if hour.None? || minute.None? {
      return None;
    }
    r := Some((Clamp(hour.value, 0, 23), Clamp(minute.value, 0, 59)));
  }

  /** `_normalized_slots`. */
  method NormalizedSlots(slots: seq<Json>) returns (normalized: seq<(int, int)>)
    ensures normalized == Slots(slots)
  {
    normalized := [];
    var i := 0;
    while i < |slots|
      invariant 0 <= i <= |slots|
      invariant normalized == Slots(slots[..i])
    {
      SlotsStep(slots, i);
      var slot := ReadSlot(slots[i]);
      if slot.Some? {
        normalized := normalized + [slot.value];
      }
      i := i + 1;
    }
    assert slots[..i] == slots;
  }

  /** The `add_job` loop of `start`: one job per normalised slot, in
      order. */
  method Register(slots: seq<(int, int)>) returns (jobs: seq<(int, int)>)
    ensures jobs == slots
  {
    jobs := [];
    var i := 0;
    while i < |slots|
      invariant 0 <= i <= |slots|
      invariant jobs == slots[..i]
    {
      jobs := jobs + [slots[i]];
      i := i + 1;
    }
    assert slots[..i] == slots;
  }

  // ---------------------------------------------------------------------
  // _post_to_all
  // ---------------------------------------------------------------------

  /** The dict `_post_to_all` records for a poster that raised. */
  datatype PostError = PostError(platform: string, error: string)

  function ErrorJson(e: PostError): Json {
    JObj([("platform", JStr(e.platform)), ("error", JStr(e.error))])
  }

  /** The results of the posters that returned, in poster order. */
  function Results(posters: seq<Poster>, imagePath: string, caption: string): seq<PostResult> {
    if posters == [] then []
    else
      var init := Results(posters[..|posters| - 1], imagePath, caption);
      match posters[|posters| - 1].post(imagePath, caption)
      case Ok(result) => init + [result]
      case Err(_) => init
  }

  /** The platform and message of each poster that raised, in poster order. */
  function Errors(posters: seq<Poster>, imagePath: string, caption: string): seq<PostError> {
    if posters == [] then []
    else
      var init := Errors(posters[..|posters| - 1], imagePath, caption);
      var p := posters[|posters| - 1];
      match p.post(imagePath, caption)
      case Ok(_) => init
      case Err(message) => init + [PostError(p.platform, message)]
  }

  /** Every poster lands in exactly one of the two lists. */
  lemma {:induction false} ResultsAndErrorsPartition(posters: seq<Poster>, imagePath: string, caption: string)
    ensures |Results(posters, imagePath, caption)| + |Errors(posters, imagePath, caption)| == |posters|
    ensures Errors(posters, imagePath, caption) == [] <==>
      forall i :: 0 <= i < |posters| ==> posters[i].post(imagePath, caption).Ok?
  {
    if posters != [] {
      var init := posters[..|posters| - 1];
      ResultsAndErrorsPartition(init, imagePath, caption);
      assert forall i :: 0 <= i < |init| ==> init[i] == posters[i];
    }
  }

  /** Both lists follow poster order: the posters of a concatenation
      report before those appended after them. */
  lemma {:induction false} ResultsAndErrorsAppend(a: seq<Poster>, b: seq<Poster>, imagePath: string, caption: string)
    ensures Results(a + b, imagePath, caption) == Results(a, imagePath, caption) + Results(b, imagePath, caption)
    ensures Errors(a + b, imagePath, caption) == Errors(a, imagePath, caption) + Errors(b, imagePath, caption)
    decreases |b|
  {
    if b == [] {
      assert a + b == a;
    } else {
      var b' := b[..|b| - 1];
      ResultsAndErrorsAppend(a, b', imagePath, caption);
      assert (a + b)[..|a + b| - 1] == a + b';
      assert (a + b)[|a + b| - 1] == b[|b| - 1];
    }
  }

  /** One poster yields its result, or an error naming its platform. */
  lemma ResultsAndErrorsSingle(p: Poster, imagePath: string, caption: string)
    ensures p.post(imagePath, caption).Ok? ==>
      Results([p], imagePath, caption) == [p.post(imagePath, caption).value] && Errors([p], imagePath, caption) == []
    ensures p.post(imagePath, caption).Err? ==>
      Results([p], imagePath, caption) == [] && Errors([p], imagePath, caption) == [PostError(p.platform, p.post(imagePath, caption).error)]
  {
    assert [p][..0] == [];
  }

  /** `_post_to_all`: every poster is tried once, in order. */
  method PostToAll(posters: seq<Poster>, imagePath: string, caption: string)
    returns (results: seq<PostResult>, errors: seq<PostError>)
    ensures results == Results(posters, imagePath, caption)
    ensures errors == Errors(posters, imagePath, caption)
  {
    results := [];
    errors := [];
    var i := 0;
    while i < |posters|
      invariant 0 <= i <= |posters|
      invariant results == Results(posters[..i], imagePath, caption)
      invariant errors == Errors(posters[..i], imagePath, caption)
    {
      assert posters[..i + 1][..i] == posters[..i];
      var poster := posters[i];
      var outcome := poster.post(imagePath, caption);
      if outcome.Err? {
        errors := errors + [PostError(poster.platform, outcome.error)];
      } else {
        results := results + [outcome.value];
      }
      i := i + 1;
    }
    assert posters[..i] == posters;
  }

  // ---------------------------------------------------------------------
  // The row _run_pipeline writes
  // ---------------------------------------------------------------------

  /** The arguments of one `record_post` call, without the clock. */
  datatype Record = Record(imagePath: string, caption: string, style: Option<string>, result: Json, dryRun: bool, error: Option<string>)

  const NoChannel := "未找到可用渠道"

  /** The row of a run whose image or caption could not be prepared. */
  function PrepareFailure(config: PipelineConfig.AIPipelineConfig, message: string): Record {
    Record(config.defaultImage, "", Some(config.captionStyle),
           JObj([("stage", JStr("prepare")), ("reason", JStr(message))]), true, Some(message))
  }

  /** `caption_result.metadata.get("style") if caption_result.metadata
      else None`; a truthy metadata value that is not a dict raises. */
  function StyleOf(metadata: Json): Result<Option<string>> {
    if !Truthy(metadata) then Ok(None)
    else if !metadata.JObj? then Err("AttributeError: metadata is not a dict")
    else
      match Get(metadata, "style")
      case JNull => Ok(None)
      case JStr(s) => Ok(Some(s))
      case v => Ok(Some(PyStr(v)))
  }

  function PostJson(r: PostResult): Json {
    JObj([("platform", JStr(r.platform)),
          ("post_id", if r.postId.Some? then JStr(r.postId.value) else JNull),
          ("dry_run", JBool(r.dryRun))])
  }

  function PostsJson(results: seq<PostResult>): (r: seq<Json>)
    ensures |r| == |results|
    ensures forall i :: 0 <= i < |results| ==> r[i] == PostJson(results[i])
  {
    seq(|results|, i requires 0 <= i < |results| => PostJson(results[i]))
  }

  function ErrorsJson(errors: seq<PostError>): (r: Json)
    ensures r.JList? && |r.items| == |errors|
  {
    JList(seq(|errors|, i requires 0 <= i < |errors| => ErrorJson(errors[i])))
  }

  function ErrorMessages(errors: seq<PostError>): seq<string> {
    seq(|errors|, i requires 0 <= i < |errors| => errors[i].error)
  }

  /** `all(result.dry_run for result in results)`. */
  predicate AllDryRun(results: seq<PostResult>) {
    forall i :: 0 <= i < |results| ==> results[i].dryRun
  }

  /** The row of a run whose image and caption were prepared and whose
      posters were tried; `Err` when reading the caption's style raises,
      which the handler repeats, so no row is written. */
  function PublishRecord(image: PipelineImage.ImageResult, caption: PipelineCaption.CaptionResult,
                         results: seq<PostResult>, errors: seq<PostError>): (r: Result<Record>)
    ensures r.Ok? <==> StyleOf(caption.metadata).Ok?
    ensures r.Ok? ==>
      r.value.imagePath == image.path && r.value.caption == caption.text && r.value.style == StyleOf(caption.metadata).value
    ensures r.Ok? ==> (r.value.error.None? <==> results != [])
  {
    var style :- StyleOf(caption.metadata);
    if results == [] then
      var message := if errors != [] then Join("; ", ErrorMessages(errors)) else NoChannel;
      Ok(Record(image.path, caption.text, style,
                JObj([("stage", JStr("publish")), ("image_source", JStr(image.source)), ("errors", ErrorsJson(errors))]),
                true, Some(message)))
    else
      Ok(Record(image.path, caption.text, style,
                JObj([("posts", JList(PostsJson(results))), ("errors", ErrorsJson(errors)),
                      ("provider", JStr(caption.provider)), ("image_source", JStr(image.source))]),
                AllDryRun(results), None))
  }

  /** A failed preparation records the default image as a dry run of stage
      "prepare", carrying the message as its error. */
  lemma PrepareFailureRow(config: PipelineConfig.AIPipelineConfig, message: string)
    ensures var r := PrepareFailure(config, message);
      r.imagePath == config.defaultImage && r.caption == [] && r.dryRun && r.error == Some(message) &&
      r.style == Some(config.captionStyle) &&
      r.result.JObj? && Get(r.result, "stage") == JStr("prepare") && Get(r.result, "reason") == JStr(message)
  {
    var r := PrepareFailure(config, message);
    assert r.result.fields[0].0 == "stage";
    assert r.result.fields[1].0 == "reason" && r.result.fields[1..][0].0 == "reason";
  }

  /** Without a single result the row is a dry run whose error joins the
      posters' messages, or says no channel was available. */
  lemma NoResultRow(image: PipelineImage.ImageResult, caption: PipelineCaption.CaptionResult, errors: seq<PostError>)
    requires StyleOf(caption.metadata).Ok?
    ensures var r := PublishRecord(image, caption, [], errors);
      r.Ok? && r.value.dryRun && r.value.imagePath == image.path && r.value.caption == caption.text &&
      r.value.error == Some(if errors == [] then NoChannel else Join("; ", ErrorMessages(errors)))
  {
  }

  /** With at least one result the row carries no error, is a dry run
      exactly when every result was, and lists the posts in result order. */
  lemma ResultRow(image: PipelineImage.ImageResult, caption: PipelineCaption.CaptionResult,
                  results: seq<PostResult>, errors: seq<PostError>)
    requires results != [] && StyleOf(caption.metadata).Ok?
    ensures var r := PublishRecord(image, caption, results, errors);
      && r.Ok? && r.value.error.None?
      && (r.value.dryRun <==> forall i :: 0 <= i < |results| ==> results[i].dryRun)
      && r.value.result.JObj?
      && Get(r.value.result, "posts") == JList(PostsJson(results))
      && forall i :: 0 <= i < |results| ==> Get(PostsJson(results)[i], "platform") == JStr(results[i].platform)
  {
    var r := PublishRecord(image, caption, results, errors).value;
    assert r.result.fields[0].0 == "posts";
    forall i | 0 <= i < |results| ensures Get(PostsJson(results)[i], "platform") == JStr(results[i].platform) {
      assert PostJson(results[i]).fields[0].0 == "platform";
    }
  }

  /** The caption provider's metadata always yields its style. */
  lemma CaptionStyleRecorded(style: string, name: string)
    ensures StyleOf(PipelineCaption.Metadata(style, name)) == Ok(Some(style))
  {
  }

  // ---------------------------------------------------------------------
  // PipelineScheduler
  // ---------------------------------------------------------------------

  /** A running cron scheduler: the (hour, minute) of each registered job. */
  datatype Jobs = Jobs(slots: seq<(int, int)>, running: bool)

  /** The row a whole run writes, if any: the preparation's failure, or
      the publishing outcome. */
  function RunRecord(config: PipelineConfig.AIPipelineConfig, image: Result<PipelineImage.ImageResult>,
                     caption: Result<PipelineCaption.CaptionResult>, posters: seq<Poster>): (r: Result<Record>)
    ensures image.Err? || caption.Err? ==> r.Ok? && r.value.dryRun && r.value.imagePath == config.defaultImage
    ensures r.Err? ==> image.Ok? && caption.Ok? && StyleOf(caption.value.metadata).Err?
    ensures image.Ok? && caption.Ok? && r.Ok? ==> r.value.imagePath == image.value.path && r.value.caption == caption.value.text
  {
    if image.Err? then Ok(PrepareFailure(config, image.error))
    else if caption.Err? then Ok(PrepareFailure(config, caption.error))
    else
      PublishRecord(image.value, caption.value,
                    Results(posters, image.value.path, caption.value.text),
                    Errors(posters, image.value.path, caption.value.text))
  }

  function RowOf(r: Record, now: string): PipelineDatabase.HistoryRow {
    PipelineDatabase.HistoryRowOf(r.imagePath, r.caption, r.style, now, r.result, r.dryRun, r.error)
  }

  /** The caption provider's tiers and caption log after `_run_pipeline`
      prepared `image`: untouched when no image was served; otherwise the
      tiers `get_caption` leaves and, when it returned a caption, one more
      log row. */
  function CaptionState(s: PipelineCaption.Settings, tiers: PipelineCaption.Tiers, image: Result<PipelineImage.ImageResult>,
                        style: Option<string>, sdk: seq<Json> -> PipelineCaption.SdkReply,
                        http: seq<Json> -> PipelineCaption.HttpReply, pick: nat, now: string,
                        log: seq<PipelineDatabase.CaptionRow>): (r: (PipelineCaption.Tiers, seq<PipelineDatabase.CaptionRow>))
    ensures log <= r.1 && |r.1| <= |log| + 1
    ensures image.Err? ==> r == (tiers, log)
    ensures image.Ok? ==> r.0 == PipelineCaption.Resolve(s, tiers, image.value.path, style, sdk, http, pick).tiers
  {
    if image.Err? then (tiers, log)
    else
      var res := PipelineCaption.Resolve(s, tiers, image.value.path, style, sdk, http, pick);
      if res.result.Ok? then (res.tiers, log + [PipelineCaption.LogRow(image.value.path, PipelineCaption.EffectiveStyle(s.config, style), res.result.value, now)])
      else (res.tiers, log)
  }

  class PipelineScheduler {
    const config: PipelineConfig.AIPipelineConfig
    const imageProvider: PipelineImage.ImageProvider
    const captionProvider: PipelineCaption.CaptionProvider
    const posters: seq<Poster>
    const database: PipelineDatabase.Database
    var scheduler: Option<Jobs>

    /** `__init__`: no scheduler yet. */
    constructor (config: PipelineConfig.AIPipelineConfig, imageProvider: PipelineImage.ImageProvider,
                 captionProvider: PipelineCaption.CaptionProvider, posters: seq<Poster>, database: PipelineDatabase.Database)
      ensures this.config == config && this.imageProvider == imageProvider && this.captionProvider == captionProvider
      ensures this.posters == posters && this.database == database
      ensures scheduler.None?
    {
      this.config := config;
      this.imageProvider := imageProvider;
      this.captionProvider := captionProvider;
      this.posters := posters;
      this.database := database;
      scheduler := None;
    }

    /** `start`: nothing when the pipeline is disabled; otherwise a running
        scheduler with one job per normalised slot. */
    method Start()
      modifies this
      ensures !config.enable ==> scheduler == old(scheduler)
      ensures config.enable ==> scheduler == Some(Jobs(Slots(config.postSlots), true))
    {
      if !config.enable {
        return;
      }
      var normalized := NormalizedSlots(config.postSlots);
      var jobs := Register(normalized);
      scheduler := Some(Jobs(jobs, true));
    }

    /** `shutdown`: stops a running scheduler and forgets it; otherwise
        nothing changes. */
    method Shutdown()
      modifies this
      ensures old(scheduler).Some? && old(scheduler).value.running ==> scheduler.None?
      ensures !(old(scheduler).Some? && old(scheduler).value.running) ==> scheduler == old(scheduler)
    {
      if scheduler.Some? && scheduler.value.running {
        scheduler := None;
      }
    }

    /** The `try` block of `_run_pipeline` that prepares the image and its
        caption, with what it leaves in the image provider's ready folder,
        in the caption provider's tiers and in the caption log. */
    method Prepare(cloud: PipelineImage.Cloud, sdk: seq<Json> -> PipelineCaption.SdkReply,
                   http: seq<Json> -> PipelineCaption.HttpReply, pick: nat, now: string)
      returns (image: Result<PipelineImage.ImageResult>, caption: Result<PipelineCaption.CaptionResult>)
      modifies imageProvider, captionProvider, captionProvider.database
      ensures image == PipelineImage.Served(imageProvider.config, old(imageProvider.readyEntries), old(imageProvider.Posted()), cloud)
      ensures caption == if image.Err? then Err(image.error)
        else PipelineCaption.Resolve(captionProvider.settings, old(captionProvider.CurrentTiers()), image.value.path,
                                     Some(config.captionStyle), sdk, http, pick).result
      ensures imageProvider.readyEntries == PipelineImage.ServedEntries(imageProvider.config, old(imageProvider.readyEntries),
        old(imageProvider.Posted()), cloud, old(imageProvider.placeholderExists))
      ensures (captionProvider.CurrentTiers(), captionProvider.database.captionLog) ==
        CaptionState(captionProvider.settings, old(captionProvider.CurrentTiers()), image, Some(config.captionStyle),
                     sdk, http, pick, now, old(captionProvider.database.captionLog))
      ensures database.postHistory == old(database.postHistory)
    {
      image := imageProvider.GetImage(cloud);
      if image.Err? {
        caption := Err(image.error);
        return;
      }
      caption := captionProvider.GetCaption(image.value.path, Some(config.captionStyle), sdk, http, pick, now);
    }

    /** `_run_pipeline`: prepare an image and a caption, post to every
        poster, and record exactly one row of the outcome; `Some` when an
        exception escapes, in which case no row is written. The ready
        folder, the caption tiers and the caption log end as the
        preparation leaves them. */
    method RunPipeline(cloud: PipelineImage.Cloud, sdk: seq<Json> -> PipelineCaption.SdkReply,
                       http: seq<Json> -> PipelineCaption.HttpReply, pick: nat, now: string)
      returns (raised: Option<string>)
      modifies imageProvider, captionProvider, captionProvider.database, database
      ensures var image := PipelineImage.Served(imageProvider.config, old(imageProvider.readyEntries), old(imageProvider.Posted()), cloud);
        var caption := if image.Err? then Err(image.error)
          else PipelineCaption.Resolve(captionProvider.settings, old(captionProvider.CurrentTiers()), image.value.path,
                                       Some(config.captionStyle), sdk, http, pick).result;
        var record := RunRecord(config, image, caption, posters);
        && (record.Ok? ==> database.postHistory == old(database.postHistory) + [RowOf(record.value, now)] && raised.None?)
        && (record.Err? ==> database.postHistory == old(database.postHistory) && raised == Some(record.error))
      ensures imageProvider.readyEntries == PipelineImage.ServedEntries(imageProvider.config, old(imageProvider.readyEntries),
        old(imageProvider.Posted()), cloud, old(imageProvider.placeholderExists))
      ensures var image := PipelineImage.Served(imageProvider.config, old(imageProvider.readyEntries), old(imageProvider.Posted()), cloud);
        (captionProvider.CurrentTiers(), captionProvider.database.captionLog) ==
        CaptionState(captionProvider.settings, old(captionProvider.CurrentTiers()), image, Some(config.captionStyle),
                     sdk, http, pick, now, old(captionProvider.database.captionLog))
    {
      var image, caption := Prepare(cloud, sdk, http, pick, now);
      if image.Err? || caption.Err? {
        var r := PrepareFailure(config, if image.Err? then image.error else caption.error);
        database.RecordPost(r.imagePath, r.caption, r.style, now, r.result, r.dryRun, r.error);
        return None;
      }
      var results, errors := PostToAll(posters, image.value.path, caption.value.text);
      var record := PublishRecord(image.value, caption.value, results, errors);
      if record.Err? {
        return Some(record.error);
      }
      var r := record.value;
      database.RecordPost(r.imagePath, r.caption, r.style, now, r.result, r.dryRun, r.error);
      raised := None;
    }
  }
}
