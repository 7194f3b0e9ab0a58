/** The configuration of the legacy posting loop
    (auto_ai_influencer/config.py): secret masking, the Twitter credential
    check and the default filling of `build_app_config`. */
module LegacyConfig {
  import opened Wrappers
  import opened Text
  import opened Json

  const PlaceholderValues: set<string> :=
    {"xxx", "your_openai_key", "your-openai-key", "please_replace", "your_api_key"}

  const NotConfigured := "未配置"
  const Stars := "***"

  // ---------------------------------------------------------------------
  // mask_sensitive_value
  // ---------------------------------------------------------------------

  /** The masked form keeps `k` leading and `m` trailing characters of `v`
      around the three stars. */
  predicate MaskedAs(v: string, r: string, k: nat, m: nat) {
    k + m <= |v| && r == v[..k] + Stars + v[|v| - m..]
  }

  /** `mask_sensitive_value`: "未配置" for a missing or empty value, else a
      few leading and trailing characters around "***". */
  function MaskSensitiveValue(value: Option<string>): (r: string)
    ensures value.None? || value.value == [] ==> r == NotConfigured
    ensures value.Some? && value.value != [] ==>
      exists k: nat, m: nat :: MaskedAs(value.value, r, k, m) && 1 <= k + m <= 8
        && (|value.value| >= 2 ==> k + m < |value.value|)
  {
    if value.None? || value.value == [] then NotConfigured
    else
      var v := value.value;
      if |v| <= 4 then
        assert MaskedAs(v, [v[0]] + Stars, 1, 0);
        [v[0]] + Stars
      else if |v| <= 8 then
        assert MaskedAs(v, v[..2] + Stars + v[|v| - 2..], 2, 2);
        v[..2] + Stars + v[|v| - 2..]
      else
        assert MaskedAs(v, v[..4] + Stars + v[|v| - 4..], 4, 4);
        v[..4] + Stars + v[|v| - 4..]
  }

  /** The exact shape for each length band. */
  lemma MaskBands(v: string)
    requires v != []
    ensures |v| <= 4 ==> MaskSensitiveValue(Some(v)) == [v[0]] + Stars
    ensures 4 < |v| <= 8 ==> MaskSensitiveValue(Some(v)) == v[..2] + Stars + v[|v| - 2..]
    ensures 8 < |v| ==> MaskSensitiveValue(Some(v)) == v[..4] + Stars + v[|v| - 4..]
  {
  }

  // ---------------------------------------------------------------------
  // TwitterCredentials
  // ---------------------------------------------------------------------

  datatype TwitterCredentials = TwitterCredentials(
    apiKey: Option<string>,
    apiKeySecret: Option<string>,
    accessToken: Option<string>,
    accessTokenSecret: Option<string>,
    bearerToken: Option<string>)
  {
    /** `is_configured`: the four read/write secrets are all non-empty. */
    predicate IsConfigured() {
      && Filled(apiKey) && Filled(apiKeySecret)
      && Filled(accessToken) && Filled(accessTokenSecret)
    }
  }

  /** Python truthiness of an optional string. */
  predicate Filled(v: Option<string>) { v.Some? && v.value != [] }

  /** The bearer token plays no part in `is_configured`, and blanking any
      one of the four secrets makes it false. */
  lemma IsConfiguredExactly(c: TwitterCredentials, bearer: Option<string>)
    ensures c.IsConfigured() == c.(bearerToken := bearer).IsConfigured()
    ensures !c.(apiKey := None).IsConfigured() && !c.(apiKeySecret := Some("")).IsConfigured()
    ensures !c.(accessToken := None).IsConfigured() && !c.(accessTokenSecret := Some("")).IsConfigured()
  {
  }

  // ---------------------------------------------------------------------
  // build_app_config
  // ---------------------------------------------------------------------

  datatype CaptionConfig = CaptionConfig(templates: seq<string>, prompt: string, model: string)
  datatype TweetConfig = TweetConfig(prefix: string, suffix: string, maxLength: int)
  datatype SchedulerConfig = SchedulerConfig(intervalMinutes: int, timezone: string, initialRun: bool)

  datatype AppConfig = AppConfig(
    imageDirectory: string,
    databasePath: string,
    logPath: string,
    dryRun: bool,
    caption: CaptionConfig,
    tweet: TweetConfig,
    scheduler: SchedulerConfig,
    twitter: TwitterCredentials,
    openaiApiKey: Option<string>,
    maxPostsPerCycle: int)

  const DefaultTemplates: seq<string> := [
    "今天的灵感来自這張圖：{filename}",
    "AI 小编上线，分享 {filename} 的精彩瞬间！"
  ]
  const DefaultPrompt := "请为一张社交媒体照片撰写不超过 100 字的中文推文文案，\n语气要友好、积极，并可适度使用 emoji。"
  const DefaultModel := "gpt-4o-mini"

  /** `int(v)`: integers as they are, booleans as 0 or 1, strings parsed;
      ValueError or TypeError otherwise. */
  function PyInt(v: Json): (r: Result<int>)
    ensures v.JInt? ==> r == Ok(v.i)
  {
    match v
    case JInt(i) => Ok(i)
    case JBool(b) => Ok(if b then 1 else 0)
    case JStr(s) => (match ParseInt(s) case Some(n) => Ok(n) case None => Err("ValueError: invalid literal for int()"))
    case _ => Err("TypeError: int() argument must be a string or a number")
  }

  /** A configuration value the code later uses as text. */
  function AsText(v: Json): Result<string> {
    if v.JStr? then Ok(v.s) else Err("TypeError: expected a string")
  }

  function AsTextList(xs: seq<Json>): (r: Result<seq<string>>)
    ensures r.Ok? ==> |r.value| == |xs|
  {
    if xs == [] then Ok([])
    else
      var head :- AsText(xs[0]);
      var tail :- AsTextList(xs[1..]);
      Ok([head] + tail)
  }

  /** `d.get(key, {})` where `d` must be a dict: AttributeError otherwise. */
  function Section(d: Json, key: string): Result<Json>
    requires d.JObj?
  {
    var v := GetOr(d, key, JObj([]));
    if v.JObj? then Ok(v) else Err("AttributeError: object has no attribute 'get'")
  }

  /** The path setting before it is made absolute: `value or fallback`. */
  function PathSetting(d: Json, key: string, fallback: string): (r: Result<string>)
    requires d.JObj? && fallback != []
    ensures r.Ok? ==> r.value != []
    ensures !HasKey(d.fields, key) ==> r == Ok(fallback)
  {
    var v := GetOr(d, key, JStr(""));
    if Truthy(v) then AsText(v) else Ok(fallback)
  }

  function EnvGet(env: map<string, string>, key: string): Option<string> {
    if key in env then Some(env[key]) else None
  }

  /** The OpenAI key read from the environment: a placeholder (compared
      stripped and lower-cased) is dropped, anything else is stripped. */
  function OpenAiKeyFromEnv(raw: Option<string>): Option<string> {
    var kept := if Filled(raw) && Lower(Strip(raw.value)) in PlaceholderValues then Some("") else raw;
    if Filled(kept) then Some(Strip(kept.value)) else None
  }

  /** `caption_data.get("templates") or _DEFAULT_TEMPLATES`. */
  function Templates(captionData: Json): (r: Result<seq<string>>)
    requires captionData.JObj?
    ensures r.Ok? ==> r.value != []
  {
    var raw := Get(captionData, "templates");
    if !Truthy(raw) then Ok(DefaultTemplates)
    else if raw.JList? then AsTextList(raw.items)
    else Err("TypeError: templates must be a list")
  }

  function BuildCaption(captionData: Json): Result<CaptionConfig>
    requires captionData.JObj?
  {
    var templates :- Templates(captionData);
    var prompt :- AsText(GetOr(captionData, "prompt", JStr(DefaultPrompt)));
    var model :- AsText(GetOr(captionData, "model", JStr(DefaultModel)));
    Ok(CaptionConfig(templates, prompt, model))
  }

  function BuildTweet(tweetData: Json): Result<TweetConfig>
    requires tweetData.JObj?
  {
    var prefix :- AsText(GetOr(tweetData, "prefix", JStr("")));
    var suffix :- AsText(GetOr(tweetData, "suffix", JStr("")));
    var maxLength :- PyInt(GetOr(tweetData, "max_length", JInt(280)));
    Ok(TweetConfig(prefix, suffix, maxLength))
  }

  /** `scheduler_data.get("interval_minutes", data.get("post_interval_minutes", 60))`. */
  function IntervalSetting(data: Json, schedulerData: Json): Json
    requires data.JObj? && schedulerData.JObj?
  {
    GetOr(schedulerData, "interval_minutes", GetOr(data, "post_interval_minutes", JInt(60)))
  }

  function BuildScheduler(data: Json, schedulerData: Json): Result<SchedulerConfig>
    requires data.JObj? && schedulerData.JObj?
  {
    var interval :- PyInt(IntervalSetting(data, schedulerData));
    var timezone :- AsText(GetOr(schedulerData, "timezone", JStr("Asia/Shanghai")));
    Ok(SchedulerConfig(interval, timezone, Truthy(GetOr(schedulerData, "initial_run", JBool(true)))))
  }

  function TwitterFromEnv(env: map<string, string>): TwitterCredentials {
    TwitterCredentials(
      EnvGet(env, "TWITTER_API_KEY"), EnvGet(env, "TWITTER_API_SECRET"),
      EnvGet(env, "TWITTER_ACCESS_TOKEN"), EnvGet(env, "TWITTER_ACCESS_TOKEN_SECRET"),
      EnvGet(env, "TWITTER_BEARER_TOKEN"))
  }

  /** The three path settings, each `value or fallback`. */
  function Paths(data: Json): (r: Result<(string, string, string)>)
    requires data.JObj?
    ensures r.Ok? ==> r.value.0 != [] && r.value.1 != [] && r.value.2 != []
  {
    var imageDirectory :- PathSetting(data, "image_directory", "images");
    var databasePath :- PathSetting(data, "database_path", "data/auto_ai.db");
    var logPath :- PathSetting(data, "log_path", "data/bot.log");
    Ok((imageDirectory, databasePath, logPath))
  }

  /** The caption, tweet and scheduler sections, each `data.get(key, {})`. */
  function Sections(data: Json): (r: Result<(CaptionConfig, TweetConfig, SchedulerConfig)>)
    requires data.JObj?
    ensures r.Ok? ==> r.value.0.templates != []
    ensures r.Ok? ==> Section(data, "scheduler").Ok?
    ensures r.Ok? ==> BuildScheduler(data, Section(data, "scheduler").value) == Ok(r.value.2)
  {
    var captionData :- Section(data, "caption");
    var caption :- BuildCaption(captionData);
    var tweetData :- Section(data, "tweet");
    var tweet :- BuildTweet(tweetData);
    var schedulerData :- Section(data, "scheduler");
    var scheduler :- BuildScheduler(data, schedulerData);
    Ok((caption, tweet, scheduler))
  }

  /** `build_app_config(data)` with the environment given as a map. */
  function BuildAppConfig(data: Json, env: map<string, string>): (r: Result<AppConfig>)
    ensures !data.JObj? ==> r.Err?
    ensures r.Ok? ==> r.value.imageDirectory != [] && r.value.databasePath != [] && r.value.logPath != []
    ensures r.Ok? ==> r.value.caption.templates != []
    ensures r.Ok? ==> r.value.twitter == TwitterFromEnv(env)
    ensures r.Ok? ==> r.value.openaiApiKey == OpenAiKeyFromEnv(EnvGet(env, "OPENAI_API_KEY"))
  {
    if !data.JObj? then Err("AttributeError: object has no attribute 'get'")
    else
      var paths :- Paths(data);
      var sections :- Sections(data);
      var dryRun := Truthy(GetOr(data, "dry_run", JBool(false)));
      var maxPosts :- PyInt(GetOr(data, "max_posts_per_cycle", JInt(1)));
      Ok(AppConfig(paths.0, paths.1, paths.2, dryRun, sections.0, sections.1, sections.2,
                   TwitterFromEnv(env), OpenAiKeyFromEnv(EnvGet(env, "OPENAI_API_KEY")), maxPosts))
  }

  /** A missing, null or empty template list falls back to the defaults;
      a non-empty list of strings is taken as it is. */
  lemma TemplatesFallback(captionData: Json)
    requires captionData.JObj?
    ensures !Truthy(Get(captionData, "templates")) ==> Templates(captionData) == Ok(DefaultTemplates)
    ensures forall xs: seq<string> ::
      (xs != [] && Get(captionData, "templates") == JList(seq(|xs|, i requires 0 <= i < |xs| => JStr(xs[i]))))
        ==> Templates(captionData) == Ok(xs)
  {
    forall xs: seq<string> | xs != [] && Get(captionData, "templates") == JList(seq(|xs|, i requires 0 <= i < |xs| => JStr(xs[i])))
      ensures Templates(captionData) == Ok(xs)
    {
      AsTextListOfStrings(xs);
    }
  }

  lemma {:induction false} AsTextListOfStrings(xs: seq<string>)
    ensures AsTextList(seq(|xs|, i requires 0 <= i < |xs| => JStr(xs[i]))) == Ok(xs)
  {
    if xs != [] {
      AsTextListOfStrings(xs[1..]);
      var js := seq(|xs|, i requires 0 <= i < |xs| => JStr(xs[i]));
      assert js[1..] == seq(|xs[1..]|, i requires 0 <= i < |xs[1..]| => JStr(xs[1..][i]));
      assert xs == [xs[0]] + xs[1..];
    }
  }

  /** The keys of the file that `build_app_config` reads. */
  const ReadKeys: set<string> := {
    "image_directory", "database_path", "log_path", "caption", "tweet", "scheduler",
    "post_interval_minutes", "dry_run", "max_posts_per_cycle"}

  /** The configuration every default gives, with the environment's secrets. */
  function Defaults(env: map<string, string>): AppConfig {
    AppConfig("images", "data/auto_ai.db", "data/bot.log", false,
              CaptionConfig(DefaultTemplates, DefaultPrompt, DefaultModel),
              TweetConfig("", "", 280), SchedulerConfig(60, "Asia/Shanghai", true),
              TwitterFromEnv(env), OpenAiKeyFromEnv(EnvGet(env, "OPENAI_API_KEY")), 1)
  }

  /** A dict that sets none of the keys the loader reads, whatever else it
      holds, gives every default: the two templates, 280 characters, one
      post per cycle, 60 minutes, no dry run. */
  lemma UnreadKeysGiveDefaults(data: Json, env: map<string, string>)
    requires data.JObj?
    requires forall k | k in ReadKeys :: !HasKey(data.fields, k)
    ensures BuildAppConfig(data, env) == Ok(Defaults(env))
  {
    var empty := JObj([]);
    assert !HasKey(empty.fields, "templates") && !HasKey(empty.fields, "max_length");
    assert !HasKey(data.fields, "caption") && !HasKey(data.fields, "scheduler");
    assert !HasKey(data.fields, "tweet") && !HasKey(data.fields, "post_interval_minutes");
    assert !HasKey(data.fields, "image_directory") && !HasKey(data.fields, "database_path");
    assert !HasKey(data.fields, "log_path") && !HasKey(data.fields, "dry_run");
    assert !HasKey(data.fields, "max_posts_per_cycle");
    assert Paths(data) == Ok(("images", "data/auto_ai.db", "data/bot.log"));
    assert BuildCaption(empty) == Ok(CaptionConfig(DefaultTemplates, DefaultPrompt, DefaultModel));
    assert BuildScheduler(data, empty) == Ok(SchedulerConfig(60, "Asia/Shanghai", true));
    assert Sections(data) == Ok((CaptionConfig(DefaultTemplates, DefaultPrompt, DefaultModel),
                                 TweetConfig("", "", 280), SchedulerConfig(60, "Asia/Shanghai", true)));
  }

  /** The interval of a built configuration is the scheduler section's
      `interval_minutes`, else the top-level `post_interval_minutes`,
      else 60. */
  lemma IntervalChosen(data: Json, env: map<string, string>)
    requires data.JObj? && BuildAppConfig(data, env).Ok?
    ensures var scheduler := GetOr(data, "scheduler", JObj([]));
      var interval := BuildAppConfig(data, env).value.scheduler.intervalMinutes;
      && scheduler.JObj?
      && (HasKey(scheduler.fields, "interval_minutes") ==>
            PyInt(Lookup(scheduler.fields, "interval_minutes")) == Ok(interval))
      && (!HasKey(scheduler.fields, "interval_minutes") && HasKey(data.fields, "post_interval_minutes") ==>
            PyInt(Lookup(data.fields, "post_interval_minutes")) == Ok(interval))
      && (!HasKey(scheduler.fields, "interval_minutes") && !HasKey(data.fields, "post_interval_minutes") ==>
            interval == 60)
  {
    assert Sections(data).Ok?;
  }

  /** A placeholder OpenAI key, in any case and with any surrounding
      whitespace, is read as no key; any other non-blank key is kept
      stripped. */
  lemma OpenAiPlaceholderDropped(raw: string)
    ensures Lower(Strip(raw)) in PlaceholderValues ==> OpenAiKeyFromEnv(Some(raw)).None?
    ensures raw != [] && Lower(Strip(raw)) !in PlaceholderValues ==> OpenAiKeyFromEnv(Some(raw)) == Some(Strip(raw))
  {
  }
}
