/** Image selection of the current pipeline
    (src/pipeline/image_provider.py): an unposted picture of the ready
    folder, else one generated in the cloud and downloaded into that
    folder, else the placeholder, which is written on first use. The
    folder is its listing (as in the legacy loop) and the placeholder is
    whether its file exists; every network exchange is the answer it
    produced, and the time stamp and uuid digits of a download's file
    name are parameters. */
module PipelineImage {
  import opened Wrappers
  import opened Text
  import opened Json
  import LegacyConfig
  import PipelineConfig
  import PipelineDatabase
  import LegacyImageSource

  type Entry = LegacyImageSource.Entry

  /** `ImageResult`. */
  datatype ImageResult = ImageResult(path: string, source: string, metadata: Json)

  /** The answer to a POST: an exception before a decoded body (no
      connection, timeout, undecodable JSON), or a status code and the
      decoded body. */
  datatype HttpAnswer = Raised | Answered(status: int, body: Json)

  /** How polling a pending Replicate prediction ended: an exception, or
      the body of the last poll. */
  datatype PollAnswer = PollRaised | PollFinished(body: Json)

  /** Everything outside the process that one call may consult. */
  datatype Cloud = Cloud(
    requestsInstalled: bool,
    replicate: HttpAnswer,
    poll: PollAnswer,
    leonardo: HttpAnswer,
    download: string -> bool,
    stamp: string,
    uuidHex: string)

  /** A generated image before its download: the provider, the URL and
      the metadata the result will carry. */
  datatype Generated = Generated(provider: string, url: string, extra: Json)

  // ---------------------------------------------------------------------
  // _pick_local
  // ---------------------------------------------------------------------

  const LocalMetadata := JObj([("reason", JStr("ready_to_post"))])
  const FallbackMetadata := JObj([("reason", JStr("fallback"))])

  /** The first path whose file name has not been posted. */
  function FirstNotPosted(paths: seq<string>, posted: set<string>): (r: Option<string>)
    ensures r.Some? ==> r.value in paths && PathName(r.value) !in posted
  {
    if paths == [] then None
    else if PathName(paths[0]) !in posted then Some(paths[0])
    else FirstNotPosted(paths[1..], posted)
  }

  /** `paths[i]` is `p` and every path before it has been posted. */
  predicate FirstUnpostedAt(paths: seq<string>, posted: set<string>, i: int, p: string) {
    0 <= i < |paths| && paths[i] == p && PathName(p) !in posted &&
    forall j :: 0 <= j < i ==> PathName(paths[j]) in posted
  }

  lemma {:induction false} FirstNotPostedIsFirst(paths: seq<string>, posted: set<string>)
    ensures FirstNotPosted(paths, posted).None? <==> forall i :: 0 <= i < |paths| ==> PathName(paths[i]) in posted
    ensures FirstNotPosted(paths, posted).Some? ==>
      exists i :: FirstUnpostedAt(paths, posted, i, FirstNotPosted(paths, posted).value)
  {
    if paths != [] {
      if PathName(paths[0]) !in posted {
        assert FirstUnpostedAt(paths, posted, 0, paths[0]);
      } else {
        FirstNotPostedIsFirst(paths[1..], posted);
        assert forall i :: 0 < i < |paths| ==> paths[i] == paths[1..][i - 1];
        var r := FirstNotPosted(paths[1..], posted);
        if r.Some? {
          var i :| FirstUnpostedAt(paths[1..], posted, i, r.value);
          assert FirstUnpostedAt(paths, posted, i + 1, r.value);
        }
      }
    }
  }

  /** The supported files of the ready folder, in sorted order. */
  function Candidates(readyDirectory: string, entries: seq<Entry>): seq<string> {
    LegacyImageSource.ListImages(LegacyImageSource.Directory(readyDirectory, true, entries))
  }

  /** `_pick_local(posted)`. */
  function PickLocal(readyDirectory: string, entries: seq<Entry>, posted: set<string>): (r: Option<ImageResult>)
    ensures r.Some? ==> r.value.source == "local" && r.value.metadata == LocalMetadata
    ensures r.Some? ==> r.value.path in Candidates(readyDirectory, entries) && PathName(r.value.path) !in posted
  {
    match FirstNotPosted(Candidates(readyDirectory, entries), posted)
    case None => None
    case Some(p) => Some(ImageResult(p, "local", LocalMetadata))
  }

  /** The local pick is the smallest supported file of the folder whose
      name has not been posted, with source "local"; there is none exactly
      when every candidate's name has been posted. */
  lemma PickLocalIsFirstUnposted(readyDirectory: string, entries: seq<Entry>, posted: set<string>)
    ensures var xs := Candidates(readyDirectory, entries);
      PickLocal(readyDirectory, entries, posted).None? <==> forall p :: p in xs ==> PathName(p) in posted
    ensures var xs := Candidates(readyDirectory, entries);
      var r := PickLocal(readyDirectory, entries, posted);
      r.Some? ==>
        && r.value.source == "local"
        && r.value.path in xs
        && PathName(r.value.path) !in posted
        && (exists e :: e in entries && LegacyImageSource.IsImage(e) && r.value.path == LegacyImageSource.Child(readyDirectory, e.name))
        && forall p :: p in xs && PathName(p) !in posted ==> LexLe(r.value.path, p)
  {
    var d := LegacyImageSource.Directory(readyDirectory, true, entries);
    var xs := Candidates(readyDirectory, entries);
    LegacyImageSource.ListImagesContents(d);
    FirstNotPostedIsFirst(xs, posted);
    var r := FirstNotPosted(xs, posted);
    if r.Some? {
      var i :| FirstUnpostedAt(xs, posted, i, r.value);
      forall p | p in xs && PathName(p) !in posted ensures LexLe(r.value, p) {
        var k :| 0 <= k < |xs| && xs[k] == p;
        if k == i { LexLeRefl(p); }
      }
    }
  }

  // ---------------------------------------------------------------------
  // _generate_with_replicate and _generate_with_leonardo, up to the
  // download
  // ---------------------------------------------------------------------

  /** `status in {"starting", "processing"}`; a list or dict status is
      unhashable and raises inside the try. */
  datatype StatusCheck = Pending | Settled | Unhashable

  function CheckStatus(status: Json): StatusCheck {
    if status.JList? || status.JObj? then Unhashable
    else if status == JStr("starting") || status == JStr("processing") then Pending
    else Settled
  }

  /** The end of `_generate_with_replicate` once polling is over: only a
      "succeeded" prediction with a truthy output yields a URL, the first
      element of a list output or the output itself. */
  function ReplicateFinish(status: Json, data: Json): (r: Option<Generated>)
    requires data.JObj?
    ensures status != JStr("succeeded") ==> r.None?
    ensures !Truthy(Get(data, "output")) ==> r.None?
    ensures r.Some? ==> r.value.provider == "replicate" && r.value.extra == JObj([("status", status)])
    ensures status == JStr("succeeded") && Get(data, "output").JList? && Get(data, "output").items != [] ==>
      r.Some? && r.value.url == PyStr(Get(data, "output").items[0])
    ensures status == JStr("succeeded") && Get(data, "output").JStr? && Get(data, "output").s != [] ==>
      r.Some? && r.value.url == Get(data, "output").s
  {
    if status != JStr("succeeded") then None
    else
      var output := Get(data, "output");
      if !Truthy(output) then None
      else
        var url := if output.JList? then output.items[0] else output;
        Some(Generated("replicate", PyStr(url), JObj([("status", status)])))
  }

  /** `_generate_with_replicate` before the download. `Err` is an
      exception the method does not catch (a body or `urls` value that is
      not a dict). */
  function ReplicateRequest(config: PipelineConfig.AIPipelineConfig, cloud: Cloud): (r: Result<Option<Generated>>)
    ensures r.Ok? && r.value.Some? ==> r.value.value.provider == "replicate"
  {
    if !cloud.requestsInstalled then Ok(None)
    else if !LegacyConfig.Filled(config.replicateToken) || !LegacyConfig.Filled(config.replicateModel) then Ok(None)
    else
      match cloud.replicate
      case Raised => Ok(None)
      case Answered(code, body) =>
        if code == 401 || code >= 400 then Ok(None)
        else if !body.JObj? then Err("AttributeError: prediction body is not a dict")
        else
          var urls := GetOr(body, "urls", JObj([]));
          if !urls.JObj? then Err("AttributeError: urls is not a dict")
          else if !Truthy(Get(urls, "get")) then Ok(None)
          else
            var status := Get(body, "status");
            match CheckStatus(status)
            case Unhashable => Ok(None)
            case Settled => Ok(ReplicateFinish(status, body))
            case Pending =>
              match cloud.poll
              case PollRaised => Ok(None)
              case PollFinished(last) =>
                if !last.JObj? then Ok(None)
                else
                  var lastStatus := Get(last, "status");
                  if CheckStatus(lastStatus).Unhashable? then Ok(None)
                  else Ok(ReplicateFinish(lastStatus, last))
  }

  /** `x[0]` on a truthy JSON value: the first element of a list, the
      first character of a string; a dict raises KeyError and a number
      TypeError. */
  function FirstOf(v: Json): Result<Json>
    requires Truthy(v)
  {
    match v
    case JList(items) => Ok(items[0])
    case JStr(s) => Ok(JStr([s[0]]))
    case JObj(_) => Err("KeyError: 0")
    case _ => Err("TypeError: object is not subscriptable")
  }

  /** `_generate_with_leonardo` before the download: the first
      generation's first image, under `url` or else `image`. */
  function LeonardoRequest(config: PipelineConfig.AIPipelineConfig, cloud: Cloud): (r: Result<Option<Generated>>)
    ensures r.Ok? && r.value.Some? ==> r.value.value.provider == "leonardo" && Truthy(r.value.value.extra)
  {
    if !cloud.requestsInstalled then Ok(None)
    else if !LegacyConfig.Filled(config.leonardoToken) || !LegacyConfig.Filled(config.leonardoModel) then Ok(None)
    else
      match cloud.leonardo
      case Raised => Ok(None)
      case Answered(code, data) =>
        if code >= 400 then Ok(None)
        else if !data.JObj? then Err("AttributeError: generation body is not a dict")
        else
          var generations := Or(Get(data, "generations"), Get(data, "data"));
          if !Truthy(generations) then Ok(None)
          else
            var first :- FirstOf(generations);
            if !first.JObj? then Err("AttributeError: generation is not a dict")
            else
              var images := Or(Or(Get(first, "generated_images"), Get(first, "images")), JList([]));
              if !Truthy(images) then Ok(None)
              else
                var image :- FirstOf(images);
                if !image.JObj? then Err("AttributeError: image is not a dict")
                else
                  var url := Or(Get(image, "url"), Get(image, "image"));
                  Ok(Some(Generated("leonardo", PyStr(url), JObj([("generation_id", Get(first, "id"))]))))
  }

  /** A well-formed Leonardo answer yields the first image's URL. */
  lemma LeonardoFirstImage(config: PipelineConfig.AIPipelineConfig, cloud: Cloud, url: string, id: Json, more: seq<Json>)
    requires cloud.requestsInstalled && LegacyConfig.Filled(config.leonardoToken) && LegacyConfig.Filled(config.leonardoModel)
    requires url != []
    requires var image := JObj([("url", JStr(url))]);
      var first := JObj([("id", id), ("generated_images", JList([image]))]);
      cloud.leonardo == Answered(200, JObj([("generations", JList([first] + more))]))
    ensures LeonardoRequest(config, cloud) == Ok(Some(Generated("leonardo", url, JObj([("generation_id", id)]))))
  {
    var image := JObj([("url", JStr(url))]);
    var first := JObj([("id", id), ("generated_images", JList([image]))]);
    var data := JObj([("generations", JList([first] + more))]);
    assert data.fields[0].0 == "generations";
    assert first.fields[0].0 == "id" && first.fields[1].0 == "generated_images";
    assert first.fields[1..][0].0 == "generated_images";
    assert image.fields[0].0 == "url";
    assert Get(data, "generations") == JList([first] + more);
    assert Get(first, "generated_images") == JList([image]);
    assert Get(first, "id") == id;
    assert Get(image, "url") == JStr(url);
  }

  // ---------------------------------------------------------------------
  // _generate_cloud_image
  // ---------------------------------------------------------------------

  /** The gate and the dispatch of `_generate_cloud_image`: nothing unless
      a cloud source is selected and either `force` or the pipeline is
      enabled; "leonardo" goes to Leonardo and every other source to
      Replicate. */
  function CloudRequest(config: PipelineConfig.AIPipelineConfig, force: bool, cloud: Cloud): Result<Option<Generated>> {
    if !PipelineConfig.IsCloudEnabled(config) then Ok(None)
    else if !force && !config.enable then Ok(None)
    else if config.imageSource == "leonardo" then LeonardoRequest(config, cloud)
    else ReplicateRequest(config, cloud)
  }

  /** Without a cloud source nothing is generated, forced or not; an
      unforced call on a disabled pipeline generates nothing either. */
  lemma CloudGate(config: PipelineConfig.AIPipelineConfig, force: bool, cloud: Cloud)
    ensures !PipelineConfig.IsCloudEnabled(config) ==> CloudRequest(config, force, cloud) == Ok(None)
    ensures !force && !config.enable ==> CloudRequest(config, force, cloud) == Ok(None)
    ensures PipelineConfig.IsCloudEnabled(config) && (force || config.enable) ==>
      CloudRequest(config, force, cloud) ==
        (if config.imageSource == "leonardo" then LeonardoRequest(config, cloud) else ReplicateRequest(config, cloud))
  {
  }

  /** A cloud source spelled other than "leonardo" in lower case (such as
      "Leonardo" or "REPLICATE") is served by Replicate. */
  lemma UnknownSourceIsReplicate(config: PipelineConfig.AIPipelineConfig, force: bool, cloud: Cloud)
    requires PipelineConfig.IsCloudEnabled(config) && (force || config.enable)
    requires config.imageSource != "leonardo"
    ensures CloudRequest(config, force, cloud) == ReplicateRequest(config, cloud)
  {
  }

  // ---------------------------------------------------------------------
  // _download_remote_image and _default_image
  // ---------------------------------------------------------------------

  /** `<provider>_<stamp>_<six hex digits>.png`. */
  function FileName(provider: string, cloud: Cloud): (r: string)
    ensures |r| > |provider| && r[..|provider| + 1] == provider + "_"
    ensures |r| >= 4 && r[|r| - 4..] == ".png"
  {
    var r := provider + "_" + cloud.stamp + "_" + PyTake(cloud.uuidHex, 6) + ".png";
    assert r == (provider + "_") + (cloud.stamp + "_" + PyTake(cloud.uuidHex, 6) + ".png");
    r
  }

  /** What `_download_remote_image` returns: the file in the ready folder,
      with the provider as its source and `extra or {}` as metadata. */
  function Downloaded(readyDirectory: string, g: Generated, cloud: Cloud): (r: Option<ImageResult>)
    ensures r.Some? ==> r.value.source == g.provider && r.value.path == LegacyImageSource.Child(readyDirectory, FileName(g.provider, cloud))
    ensures r.Some? <==> cloud.requestsInstalled && cloud.download(g.url)
  {
    if !cloud.requestsInstalled || !cloud.download(g.url) then None
    else Some(ImageResult(LegacyImageSource.Child(readyDirectory, FileName(g.provider, cloud)), g.provider, Or(g.extra, JObj([]))))
  }

  /** The listing after writing file `name`: a new regular file, unless
      the folder already holds that name. */
  function AddFile(entries: seq<Entry>, name: string): (r: seq<Entry>)
    ensures exists e :: e in r && e.name == name
    ensures forall e :: e in entries ==> e in r
    ensures (forall e :: e in entries ==> e.name != name) ==> r == entries + [LegacyImageSource.Entry(name, true)]
  {
    if exists e :: e in entries && e.name == name then entries
    else entries + [LegacyImageSource.Entry(name, true)]
  }

  /** The result of `_generate_cloud_image(force=...)`. */
  function CloudImage(config: PipelineConfig.AIPipelineConfig, force: bool, cloud: Cloud): (r: Result<Option<ImageResult>>)
    ensures !PipelineConfig.IsCloudEnabled(config) ==> r == Ok(None)
    ensures !force && !config.enable ==> r == Ok(None)
    ensures r.Ok? && r.value.Some? ==> r.value.value.path == LegacyImageSource.Child(config.readyDirectory, FileName(r.value.value.source, cloud))
  {
    match CloudRequest(config, force, cloud)
    case Err(e) => Err(e)
    case Ok(None) => Ok(None)
    case Ok(Some(g)) => Ok(Downloaded(config.readyDirectory, g, cloud))
  }

  /** The ready folder after `_generate_cloud_image(force=...)`. */
  function CloudEntries(config: PipelineConfig.AIPipelineConfig, force: bool, cloud: Cloud, entries: seq<Entry>): seq<Entry> {
    match CloudRequest(config, force, cloud)
    case Ok(Some(g)) =>
      if Downloaded(config.readyDirectory, g, cloud).Some? then AddFile(entries, FileName(g.provider, cloud)) else entries
    case _ => entries
  }

  /** A generated image has source "replicate" or "leonardo", names its
      provider in its file name, and is a file of the ready folder. */
  lemma CloudImageSource(config: PipelineConfig.AIPipelineConfig, force: bool, cloud: Cloud, entries: seq<Entry>)
    ensures var r := CloudImage(config, force, cloud);
      r.Ok? && r.value.Some? ==>
        && r.value.value.source in {"replicate", "leonardo"}
        && r.value.value.path == LegacyImageSource.Child(config.readyDirectory, FileName(r.value.value.source, cloud))
        && exists e :: e in CloudEntries(config, force, cloud, entries) && e.name == FileName(r.value.value.source, cloud)
  {
    var r := CloudImage(config, force, cloud);
    if r.Ok? && r.value.Some? {
      var g := CloudRequest(config, force, cloud).value.value;
      assert Downloaded(config.readyDirectory, g, cloud) == r.value;
      assert CloudEntries(config, force, cloud, entries) == AddFile(entries, FileName(g.provider, cloud));
    }
  }

  /** What `_default_image` returns. */
  function DefaultResult(config: PipelineConfig.AIPipelineConfig): ImageResult {
    ImageResult(config.defaultImage, "default", FallbackMetadata)
  }

  /** The placeholder file is a direct child of the ready folder, as the
      defaults `data/ready_to_post/default_test.png` and
      `data/ready_to_post` make it. */
  predicate InReadyFolder(config: PipelineConfig.AIPipelineConfig) {
    var name := PathName(config.defaultImage);
    name != [] && LegacyImageSource.Child(config.readyDirectory, name) == config.defaultImage
  }

  /** The ready folder after `_default_image`: a missing placeholder is
      written, and it shows in the listing when it lies in that folder. */
  function PlaceholderWritten(config: PipelineConfig.AIPipelineConfig, entries: seq<Entry>, placeholderExists: bool): seq<Entry> {
    if !placeholderExists && InReadyFolder(config) then AddFile(entries, PathName(config.defaultImage))
    else entries
  }

  // ---------------------------------------------------------------------
  // get_image and generate_image
  // ---------------------------------------------------------------------

  /** The specification of `get_image`: a local pick, else an unforced
      cloud image, else the placeholder. */
  function Served(config: PipelineConfig.AIPipelineConfig, entries: seq<Entry>, posted: set<string>, cloud: Cloud): (r: Result<ImageResult>)
    ensures PickLocal(config.readyDirectory, entries, posted).Some? ==> r == Ok(PickLocal(config.readyDirectory, entries, posted).value)
    ensures PickLocal(config.readyDirectory, entries, posted).None? && (!config.enable || !PipelineConfig.IsCloudEnabled(config)) ==>
      r == Ok(DefaultResult(config))
  {
    match PickLocal(config.readyDirectory, entries, posted)
    case Some(image) => Ok(image)
    case None =>
      match CloudImage(config, false, cloud)
      case Err(e) => Err(e)
      case Ok(Some(image)) => Ok(image)
      case Ok(None) => Ok(DefaultResult(config))
  }

  /** The specification of `generate_image`: a forced cloud image, else
      the placeholder. */
  function Regenerated(config: PipelineConfig.AIPipelineConfig, cloud: Cloud): (r: Result<ImageResult>)
    ensures !PipelineConfig.IsCloudEnabled(config) ==> r == Ok(DefaultResult(config))
  {
    match CloudImage(config, true, cloud)
    case Err(e) => Err(e)
    case Ok(Some(image)) => Ok(image)
    case Ok(None) => Ok(DefaultResult(config))
  }

  /** The ready folder after `get_image`. */
  function ServedEntries(config: PipelineConfig.AIPipelineConfig, entries: seq<Entry>, posted: set<string>,
                         cloud: Cloud, placeholderExists: bool): seq<Entry>
  {
    if PickLocal(config.readyDirectory, entries, posted).Some? then entries
    else if CloudImage(config, false, cloud) == Ok(None) then PlaceholderWritten(config, entries, placeholderExists)
    else CloudEntries(config, false, cloud, entries)
  }

  /** The ready folder after `generate_image`. */
  function RegeneratedEntries(config: PipelineConfig.AIPipelineConfig, entries: seq<Entry>, cloud: Cloud,
                              placeholderExists: bool): seq<Entry>
  {
    if CloudImage(config, true, cloud) == Ok(None) then PlaceholderWritten(config, entries, placeholderExists)
    else CloudEntries(config, true, cloud, entries)
  }

  /** A placeholder written into the ready folder is an ordinary image
      there: when `get_image` fell back to a missing placeholder whose name
      is a supported, unposted image name, the next `get_image` serves it
      as a local image, whatever the cloud does then. */
  lemma PlaceholderServedNext(config: PipelineConfig.AIPipelineConfig, entries: seq<Entry>, posted: set<string>,
                              cloud: Cloud, cloud2: Cloud)
    requires InReadyFolder(config)
    requires LegacyImageSource.IsImage(LegacyImageSource.Entry(PathName(config.defaultImage), true))
    requires PathName(config.defaultImage) !in posted
    requires forall e :: e in entries ==> e.name != PathName(config.defaultImage)
    requires Served(config, entries, posted, cloud) == Ok(DefaultResult(config))
    ensures var next := Served(config, ServedEntries(config, entries, posted, cloud, false), posted, cloud2);
      next.Ok? && next.value.source == "local"
  {
    var name := PathName(config.defaultImage);
    var after := ServedEntries(config, entries, posted, cloud, false);
    ServedOrder(config, entries, posted, cloud);
    assert after == entries + [LegacyImageSource.Entry(name, true)];
    var d := LegacyImageSource.Directory(config.readyDirectory, true, after);
    LegacyImageSource.ListImagesContents(d);
    assert config.defaultImage in Candidates(config.readyDirectory, after) by {
      assert LegacyImageSource.Entry(name, true) in after;
    }
    PickLocalIsFirstUnposted(config.readyDirectory, after, posted);
  }

  /** `get_image` takes a local image exactly when one is unposted, the
      placeholder only when neither a local nor a cloud image exists, and
      a cloud image otherwise. */
  lemma ServedOrder(config: PipelineConfig.AIPipelineConfig, entries: seq<Entry>, posted: set<string>, cloud: Cloud)
    ensures var r := Served(config, entries, posted, cloud);
      var local := PickLocal(config.readyDirectory, entries, posted);
      && (local.Some? ==> r == Ok(local.value))
      && (r.Ok? ==> r.value.source in {"local", "replicate", "leonardo", "default"})
      && (r.Ok? && r.value.source == "local" <==> local.Some?)
      && (r.Ok? && r.value.source == "default" <==> local.None? && CloudImage(config, false, cloud) == Ok(None))
  {
    CloudImageSource(config, false, cloud, entries);
    var local := PickLocal(config.readyDirectory, entries, posted);
    if local.Some? {
      PickLocalIsFirstUnposted(config.readyDirectory, entries, posted);
    }
  }

  /** A disabled pipeline never consults the cloud in `get_image`. */
  lemma DisabledServesOffline(config: PipelineConfig.AIPipelineConfig, entries: seq<Entry>, posted: set<string>, cloud: Cloud, cloud2: Cloud)
    requires !config.enable || !PipelineConfig.IsCloudEnabled(config)
    ensures Served(config, entries, posted, cloud) == Served(config, entries, posted, cloud2)
    ensures PickLocal(config.readyDirectory, entries, posted).None? ==> Served(config, entries, posted, cloud) == Ok(DefaultResult(config))
  {
  }

  /** `generate_image` never returns a local image. */
  lemma RegeneratedNeverLocal(config: PipelineConfig.AIPipelineConfig, cloud: Cloud)
    ensures var r := Regenerated(config, cloud);
      r.Ok? ==> r.value.source in {"replicate", "leonardo", "default"}
  {
    CloudImageSource(config, true, cloud, []);
  }

  /** `ImageProvider`: the configuration, the store whose history says
      what was posted, the listing of the ready folder and whether the
      placeholder file exists. */
  class ImageProvider {
    const config: PipelineConfig.AIPipelineConfig
    const database: PipelineDatabase.Database
    var readyEntries: seq<Entry>
    var placeholderExists: bool

    constructor (config: PipelineConfig.AIPipelineConfig, database: PipelineDatabase.Database,
                 readyEntries: seq<Entry>, placeholderExists: bool)
      ensures this.config == config && this.database == database
      ensures this.readyEntries == readyEntries && this.placeholderExists == placeholderExists
    {
      this.config := config;
      this.database := database;
      this.readyEntries := readyEntries;
      this.placeholderExists := placeholderExists;
    }

    /** The names `get_posted_images` returns, as a set. */
    function Posted(): set<string>
      reads database
    {
      set i | 0 <= i < |database.postHistory| :: database.postHistory[i].imageName
    }

    /** `_default_image`: the placeholder is written when missing, so a
        second call changes nothing. */
    method DefaultImage() returns (r: ImageResult)
      modifies this
      ensures r == DefaultResult(config)
      ensures placeholderExists && readyEntries == PlaceholderWritten(config, old(readyEntries), old(placeholderExists))
      ensures old(placeholderExists) ==> unchanged(this)
    {
      if !placeholderExists {
        if InReadyFolder(config) {
          readyEntries := AddFile(readyEntries, PathName(config.defaultImage));
        }
        placeholderExists := true;
      }
      r := DefaultResult(config);
    }

    /** `_download_remote_image(url, provider, extra)`. */
    method DownloadRemoteImage(g: Generated, cloud: Cloud) returns (r: Option<ImageResult>)
      modifies this
      ensures r == Downloaded(config.readyDirectory, g, cloud)
      ensures readyEntries == (if r.Some? then AddFile(old(readyEntries), FileName(g.provider, cloud)) else old(readyEntries))
      ensures placeholderExists == old(placeholderExists)
    {
      if !cloud.requestsInstalled {
        return None;
      }
      var filename := FileName(g.provider, cloud);
      var target := LegacyImageSource.Child(config.readyDirectory, filename);
      if !cloud.download(g.url) {
        return None;
      }
      readyEntries := AddFile(readyEntries, filename);
      r := Some(ImageResult(target, g.provider, Or(g.extra, JObj([]))));
    }

    /** `_generate_cloud_image(force=...)`. */
    method GenerateCloudImage(force: bool, cloud: Cloud) returns (r: Result<Option<ImageResult>>)
      modifies this
      ensures r == CloudImage(config, force, cloud)
      ensures readyEntries == CloudEntries(config, force, cloud, old(readyEntries))
      ensures placeholderExists == old(placeholderExists)
    {
      if !PipelineConfig.IsCloudEnabled(config) {
        return Ok(None);
      }
      if !force && !config.enable {
        return Ok(None);
      }
      var request := if config.imageSource == "leonardo" then LeonardoRequest(config, cloud) else ReplicateRequest(config, cloud);
      if request.Err? {
        return Err(request.error);
      }
      if request.value.None? {
        return Ok(None);
      }
      var generated := DownloadRemoteImage(request.value.value, cloud);
      r := Ok(generated);
    }

    /** `get_image`. */
    method GetImage(cloud: Cloud) returns (r: Result<ImageResult>)
      modifies this
      ensures r == Served(config, old(readyEntries), Posted(), cloud)
      ensures readyEntries == ServedEntries(config, old(readyEntries), Posted(), cloud, old(placeholderExists))
      ensures placeholderExists <==>
        old(placeholderExists) ||
        (PickLocal(config.readyDirectory, old(readyEntries), Posted()).None? && CloudImage(config, false, cloud) == Ok(None))
    {
      var posted := Posted();
      var local := PickLocal(config.readyDirectory, readyEntries, posted);
      if local.Some? {
        return Ok(local.value);
      }
      var generated := GenerateCloudImage(false, cloud);
      if generated.Err? {
        return Err(generated.error);
      }
      if generated.value.Some? {
        return Ok(generated.value.value);
      }
      var fallback := DefaultImage();
      r := Ok(fallback);
    }

    /** `generate_image`. */
    method GenerateImage(cloud: Cloud) returns (r: Result<ImageResult>)
      modifies this
      ensures r == Regenerated(config, cloud)
      ensures readyEntries == RegeneratedEntries(config, old(readyEntries), cloud, old(placeholderExists))
      ensures placeholderExists <==> old(placeholderExists) || CloudImage(config, true, cloud) == Ok(None)
    {
      var generated := GenerateCloudImage(true, cloud);
      if generated.Err? {
        return Err(generated.error);
      }
      if generated.value.Some? {
        return Ok(generated.value.value);
      }
      var fallback := DefaultImage();
      r := Ok(fallback);
    }
  }
}
