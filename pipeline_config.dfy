/** The settings of the current pipeline (src/config.py): the
    `AIPipelineConfig` record, secret clean-up with placeholder detection,
    the two forms of `post_slots` and the missing-secrets check of
    `load_settings`. The environment is a map; paths are kept as the
    configured text (`value or fallback`), not resolved against a base
    directory. */
module PipelineConfig {
  import opened Wrappers
  import opened Text
  import opened Json
  import LegacyConfig

  /** The three secrets `load_settings` checks. */
  datatype SecretName = OpenaiApiKey | ReplicateToken | LeonardoToken

  /** The name a secret has in the section and in the error message. */
  function Name(n: SecretName): string {
    match n
    case OpenaiApiKey => "openai_api_key"
    case ReplicateToken => "replicate_token"
    case LeonardoToken => "leonardo_token"
  }

  const MissingPrefix := "AI 流水线已启用，但缺少以下密钥："
  const PlaceholderHintOpen := "（检测到仍使用占位符："
  const MissingSuffix := "。请在 config.json 或环境变量中填写有效值后重试。"

  /** `AIPipelineConfig`. `post_slots` holds whatever the configuration
      held; the scheduler drops the entries it cannot read. */
  datatype AIPipelineConfig = AIPipelineConfig(
    enable: bool,
    postSlots: seq<Json>,
    imageSource: string,
    promptTemplate: string,
    captionStyle: string,
    openaiApiKey: Option<string>,
    replicateModel: Option<string>,
    replicateToken: Option<string>,
    leonardoModel: Option<string>,
    leonardoToken: Option<string>,
    readyDirectory: string,
    captionLogDirectory: string,
    timezone: string,
    defaultImage: string)

  /** `is_cloud_enabled`: the lower-cased image source names a cloud
      generator. */
  predicate IsCloudEnabled(c: AIPipelineConfig) {
    Lower(c.imageSource) == "replicate" || Lower(c.imageSource) == "leonardo"
  }

  // ---------------------------------------------------------------------
  // _normalize_secret
  // ---------------------------------------------------------------------

  /** The placeholder texts of this file (the same five as the legacy
      configuration's). The functions below take the list as `known`;
      `LoadSettings` passes this one. */
  const PlaceholderValues: seq<string> := ["xxx", "your_openai_key", "your-openai-key", "please_replace", "your_api_key"]

  /** A stripped text that, lower-cased, is one of the `known` placeholders. */
  predicate IsPlaceholderText(cleaned: string, known: seq<string>) {
    Listed(Lower(cleaned), known)
  }

  /** `t` is one of `xs`. */
  predicate Listed(t: string, xs: seq<string>) {
    xs != [] && (xs[0] == t || Listed(t, xs[1..]))
  }

  /** A text that, stripped and lower-cased, is a known placeholder. */
  predicate IsPlaceholder(s: string, known: seq<string>) {
    IsPlaceholderText(Strip(s), known)
  }

  /** The secret `_normalize_secret` keeps for a text. */
  function CleanSecret(s: string, known: seq<string>): Option<string> {
    var cleaned := Strip(s);
    if cleaned == [] then None
    else if IsPlaceholderText(cleaned, known) then None
    else Some(cleaned)
  }

  /** The kept secret is the stripped text, non-blank and not a
      placeholder; nothing is kept exactly for a blank text or a
      placeholder. */
  lemma CleanSecretMeaning(s: string, known: seq<string>)
    ensures CleanSecret(s, known).Some? ==>
      && CleanSecret(s, known).value == Strip(s) && CleanSecret(s, known).value != []
      && !IsPlaceholder(CleanSecret(s, known).value, known)
    ensures CleanSecret(s, known).None? <==> Strip(s) == [] || IsPlaceholder(s, known)
  {
    StripIdempotent(s);
  }

  /** A kept secret is kept unchanged when it is cleaned again. */
  lemma CleanSecretIdempotent(s: string, known: seq<string>)
    requires CleanSecret(s, known).Some?
    ensures CleanSecret(CleanSecret(s, known).value, known) == CleanSecret(s, known)
  {
    StripIdempotent(s);
  }

  /** `_normalize_secret(value)`: `None` stays `None`, a text is cleaned,
      anything else has no `strip` and raises. */
  function NormalizedSecret(value: Json, known: seq<string>): Result<Option<string>> {
    match value
    case JNull => Ok(None)
    case JStr(s) => Ok(CleanSecret(s, known))
    case _ => Err("AttributeError: object has no attribute 'strip'")
  }

  /** The value `_normalize_secret` reports as a placeholder: a text that
      is not blank (blank texts are dropped before the test) and is a
      placeholder. */
  predicate PlaceholderValue(value: Json, known: seq<string>) {
    value.JStr? && Strip(value.s) != [] && IsPlaceholder(value.s, known)
  }

  /** The name `_normalize_secret` adds to `placeholder_secrets` for `value`. */
  function PlaceholderSet(value: Json, name: SecretName, known: seq<string>): set<SecretName> {
    if PlaceholderValue(value, known) then {name} else {}
  }

  /** The `placeholder_secrets` set that `load_settings` fills while it
      normalises its secrets. */
  class SecretScan {
    /** The placeholder texts the scan looks for. */
    const known: seq<string>
    var placeholders: set<SecretName>

    constructor (known: seq<string>)
      ensures this.known == known && placeholders == {}
    {
      this.known := known;
      placeholders := {};
    }

    /** `_normalize_secret(value, name=name)`. */
    method Normalize(value: Json, name: SecretName) returns (r: Result<Option<string>>)
      modifies this
      ensures r == NormalizedSecret(value, known)
      ensures placeholders == old(placeholders) + PlaceholderSet(value, name, known)
    {
      if value.JNull? {
        return Ok(None);
      }
      if !value.JStr? {
        return Err("AttributeError: object has no attribute 'strip'");
      }
      var cleaned := Strip(value.s);
      if cleaned == [] {
        return Ok(None);
      }
      if IsPlaceholderText(cleaned, known) {
        placeholders := placeholders + {name};
        return Ok(None);
      }
      r := Ok(Some(cleaned));
    }
  }

  // ---------------------------------------------------------------------
  // post_slots
  // ---------------------------------------------------------------------

  /** `[item.strip() for item in parts if item.strip()]`. */
  function KeepStripped(parts: seq<string>): seq<string> {
    if parts == [] then []
    else if Strip(parts[0]) == [] then KeepStripped(parts[1..])
    else [Strip(parts[0])] + KeepStripped(parts[1..])
  }

  /** The kept items are stripped and non-blank. */
  lemma {:induction false} KeepStrippedClean(parts: seq<string>)
    ensures forall i :: 0 <= i < |KeepStripped(parts)| ==>
      KeepStripped(parts)[i] != [] && Strip(KeepStripped(parts)[i]) == KeepStripped(parts)[i]
  {
    if parts != [] {
      KeepStrippedClean(parts[1..]);
      var rest := KeepStripped(parts[1..]);
      if Strip(parts[0]) != [] {
        StripIdempotent(parts[0]);
        var r := [Strip(parts[0])] + rest;
        assert KeepStripped(parts) == r;
        forall i | 0 <= i < |r| ensures r[i] != [] && Strip(r[i]) == r[i] {
          if i > 0 {
            assert r[i] == rest[i - 1];
          }
        }
      } else {
        assert KeepStripped(parts) == rest;
      }
    }
  }

  /** Every non-blank part is kept. */
  lemma {:induction false} KeepStrippedComplete(parts: seq<string>)
    ensures forall j :: 0 <= j < |parts| && Strip(parts[j]) != [] ==> Strip(parts[j]) in KeepStripped(parts)
  {
    if parts != [] {
      KeepStrippedComplete(parts[1..]);
      var rest := KeepStripped(parts[1..]);
      assert forall x :: x in rest ==> x in KeepStripped(parts);
      forall j | 0 < j < |parts| && Strip(parts[j]) != [] ensures Strip(parts[j]) in KeepStripped(parts) {
        assert parts[j] == parts[1..][j - 1];
      }
    }
  }

  lemma {:induction false} KeepStrippedAvoids(parts: seq<string>, c: char)
    requires forall j :: 0 <= j < |parts| ==> c !in parts[j]
    ensures forall i :: 0 <= i < |KeepStripped(parts)| ==> c !in KeepStripped(parts)[i]
  {
    if parts != [] {
      KeepStrippedAvoids(parts[1..], c);
      StripSubstring(parts[0]);
      assert forall j :: 0 < j < |parts| ==> parts[j] == parts[1..][j - 1];
    }
  }

  /** The slot list `load_settings` keeps: a text is split on commas with
      blank parts dropped, a list is copied; `list()` of a dict gives its
      keys and of anything else raises. */
  function SlotList(raw: Json): (r: Result<seq<Json>>)
    ensures raw.JList? ==> r == Ok(raw.items)
    ensures raw.JStr? ==> r.Ok? && forall i :: 0 <= i < |r.value| ==>
      r.value[i].JStr? && r.value[i].s != [] && ',' !in r.value[i].s && Strip(r.value[i].s) == r.value[i].s
    ensures !raw.JStr? && !raw.JList? && !raw.JObj? ==> r.Err?
  {
    match raw
    case JStr(s) =>
      var parts := Split(s, ',');
      var kept := KeepStripped(parts);
      KeepStrippedClean(parts);
      KeepStrippedAvoids(parts, ',');
      Ok(seq(|kept|, i requires 0 <= i < |kept| => JStr(kept[i])))
    case JList(items) => Ok(items)
    case JObj(fs) => Ok(seq(|fs|, i requires 0 <= i < |fs| => JStr(fs[i].0)))
    case _ => Err("TypeError: object is not iterable")
  }

  /** Every character of `Strip(s)` is a character of `s`. */
  lemma StripSubstring(s: string)
    ensures forall c :: c in Strip(s) ==> c in s
  {
    var l := LStrip(s);
    var r := RStrip(l);
    assert forall k :: 0 <= k < |r| ==> r[k] == l[k];
    assert forall k :: 0 <= k < |l| ==> l[k] == s[|s| - |l| + k];
  }

  /** A text without commas gives itself, stripped, as the single slot. */
  lemma KeepOne(t: string)
    requires Strip(t) != []
    ensures KeepStripped([t]) == [Strip(t)]
  {
    var ts := [t];
    assert ts[0] == t && ts[1..] == [];
    assert KeepStripped(ts) == [Strip(ts[0])] + KeepStripped(ts[1..]);
  }

  lemma SingleSlot(s: string)
    requires ',' !in s && Strip(s) != []
    ensures SlotList(JStr(s)) == Ok([JStr(Strip(s))])
  {
    assert Split(s, ',') == [s];
    KeepOne(s);
    var kept := KeepStripped([s]);
    var r := seq(|kept|, i requires 0 <= i < |kept| => JStr(kept[i]));
    assert |r| == 1 && r[0] == JStr(Strip(s));
    assert r == [JStr(Strip(s))];
  }

  // ---------------------------------------------------------------------
  // load_settings
  // ---------------------------------------------------------------------

  /** `os.getenv(key)` as a value. */
  function EnvValue(env: map<string, string>, key: string): Json {
    if key in env then JStr(env[key]) else JNull
  }

  function OptionValue(v: Option<string>): Json {
    if v.Some? then JStr(v.value) else JNull
  }

  /** A text setting read with `d.get(key, default)`; a non-text value is
      carried as its `str()`. */
  function TextSetting(d: Json, key: string, default: string): string
    requires d.JObj?
  {
    PyStr(GetOr(d, key, JStr(default)))
  }

  /** An optional text setting read with `d.get(key)`. */
  function OptionalSetting(d: Json, key: string): Option<string>
    requires d.JObj?
  {
    var v := Get(d, key);
    if v.JNull? then None else Some(PyStr(v))
  }

  /** The secrets the check needs, in the order `load_settings` appends
      their names. */
  function Missing(c: AIPipelineConfig): (r: seq<SecretName>)
    ensures !c.enable ==> r == []
    ensures |r| <= 2
  {
    (if c.enable && !LegacyConfig.Filled(c.openaiApiKey) then [OpenaiApiKey] else [])
    + (if c.enable && IsCloudEnabled(c) && c.imageSource == "replicate" && !LegacyConfig.Filled(c.replicateToken)
       then [ReplicateToken] else [])
    + (if c.enable && IsCloudEnabled(c) && c.imageSource == "leonardo" && !LegacyConfig.Filled(c.leonardoToken)
       then [LeonardoToken] else [])
  }

  /** Nothing is missing while the pipeline is disabled; the OpenAI key is
      needed whenever it is enabled, and a generator's token only when
      cloud generation is on and that generator is the image source. */
  lemma MissingSecretsNamed(c: AIPipelineConfig)
    ensures !c.enable ==> Missing(c) == []
    ensures OpenaiApiKey in Missing(c) <==> c.enable && !LegacyConfig.Filled(c.openaiApiKey)
    ensures ReplicateToken in Missing(c) <==>
      c.enable && IsCloudEnabled(c) && c.imageSource == "replicate" && !LegacyConfig.Filled(c.replicateToken)
    ensures LeonardoToken in Missing(c) <==>
      c.enable && IsCloudEnabled(c) && c.imageSource == "leonardo" && !LegacyConfig.Filled(c.leonardoToken)
    ensures forall i, j :: 0 <= i < j < |Missing(c)| ==> Missing(c)[i] != Missing(c)[j]
  {
  }

  /** For a lower-case image source the check passes exactly when the
      pipeline is disabled, or the OpenAI key is set and the selected
      generator, if any, has its token. */
  lemma NothingMissingExactly(c: AIPipelineConfig)
    requires HasNoUpper(c.imageSource)
    ensures Missing(c) == [] <==>
      !c.enable || (LegacyConfig.Filled(c.openaiApiKey)
                    && (c.imageSource == "replicate" ==> LegacyConfig.Filled(c.replicateToken))
                    && (c.imageSource == "leonardo" ==> LegacyConfig.Filled(c.leonardoToken)))
  {
    LowerCloudSource(c);
    MissingSecretsNamed(c);
  }

  /** Naming either generator turns cloud generation on, so the token
      check depends on the image source alone; for a lower-case source
      nothing else does. */
  lemma CloudSourceSelected(c: AIPipelineConfig)
    ensures c.imageSource == "replicate" ==> IsCloudEnabled(c)
    ensures c.imageSource == "leonardo" ==> IsCloudEnabled(c)
  {
    if c.imageSource == "replicate" {
      LowerOfLower("replicate");
    } else if c.imageSource == "leonardo" {
      LowerOfLower("leonardo");
    }
  }

  lemma LowerCloudSource(c: AIPipelineConfig)
    requires HasNoUpper(c.imageSource)
    ensures IsCloudEnabled(c) <==> c.imageSource == "replicate" || c.imageSource == "leonardo"
  {
    LowerOfLower(c.imageSource);
    CloudSourceSelected(c);
  }

  /** The position of a secret's name in alphabetical order. */
  function Rank(n: SecretName): nat {
    match n
    case LeonardoToken => 0
    case OpenaiApiKey => 1
    case ReplicateToken => 2
  }

  /** Names compare as their ranks do: they differ in their first letter. */
  lemma NameOrder(m: SecretName, n: SecretName)
    requires Rank(m) < Rank(n)
    ensures LexLe(Name(m), Name(n)) && Name(m) != Name(n)
  {
    assert Name(m)[0] < Name(n)[0];
  }

  /** The secrets of `names` by increasing rank. */
  function Ordered(names: set<SecretName>): (r: seq<SecretName>)
    ensures forall n :: n in r <==> n in names
    ensures forall i, j :: 0 <= i < j < |r| ==> Rank(r[i]) < Rank(r[j])
  {
    var r := (if LeonardoToken in names then [LeonardoToken] else [])
      + (if OpenaiApiKey in names then [OpenaiApiKey] else [])
      + (if ReplicateToken in names then [ReplicateToken] else []);
    assert forall n :: n in r <==> n in names by {
      forall n ensures n in r <==> n in names {
        assert n.LeonardoToken? || n.OpenaiApiKey? || n.ReplicateToken?;
      }
    }
    r
  }

  /** `sorted(names)` for a set of secret names. */
  function SortedNames(names: set<SecretName>): seq<string>
  {
    var o := Ordered(names);
    seq(|o|, i requires 0 <= i < |o| => Name(o[i]))
  }

  /** The sorted list names each secret of the set once, in increasing
      order, and nothing else. */
  lemma SortedNamesExact(names: set<SecretName>)
    ensures forall n :: Name(n) in SortedNames(names) <==> n in names
    ensures forall i, j :: 0 <= i < j < |SortedNames(names)| ==>
      LexLe(SortedNames(names)[i], SortedNames(names)[j]) && SortedNames(names)[i] != SortedNames(names)[j]
  {
    forall m, n | Name(m) == Name(n) ensures m == n {
      assert Name(m)[0] == Name(n)[0];
    }
    var o := Ordered(names);
    var r := SortedNames(names);
    forall n ensures Name(n) in r <==> n in names {
      if n in names {
        var k :| 0 <= k < |o| && o[k] == n;
        assert r[k] == Name(n);
      }
    }
    forall i, j | 0 <= i < j < |r| ensures LexLe(r[i], r[j]) && r[i] != r[j] {
      NameOrder(o[i], o[j]);
    }
  }

  /** The message text for the secrets `missing`; the hint lists the
      secrets whose value was a placeholder. */
  function MissingMessage(missing: seq<SecretName>, placeholders: set<SecretName>): string {
    var names := set n | n in missing;
    var hint := if placeholders != {} then PlaceholderHintOpen + Join("、", SortedNames(placeholders)) + "）" else "";
    MissingPrefix + Join("、", SortedNames(names)) + hint + MissingSuffix
  }

  /** The message lists exactly the secrets that are missing, each once
      and in alphabetical order. */
  lemma MissingNamesListed(missing: seq<SecretName>)
    ensures forall n :: Name(n) in SortedNames(set m | m in missing) <==> n in missing
  {
    SortedNamesExact(set m | m in missing);
  }

  /** The section `load_settings` reads its settings from. */
  function AiSection(raw: Json): Json
    requires raw.JObj?
  {
    GetOr(raw, "ai_pipeline", JObj([]))
  }

  /** The values `load_settings` hands to `_normalize_secret`: the
      section's entry, then the environment, and for the OpenAI key
      finally the base configuration's key. */
  function OpenaiInput(ai: Json, env: map<string, string>, appOpenaiKey: Option<string>): Json
    requires ai.JObj?
  {
    Or(Or(Or(Get(ai, Name(OpenaiApiKey)), EnvValue(env, "AI_PIPELINE_OPENAI_API_KEY")),
          EnvValue(env, "OPENAI_API_KEY")), OptionValue(appOpenaiKey))
  }

  function ReplicateInput(ai: Json, env: map<string, string>): Json
    requires ai.JObj?
  {
    Or(Get(ai, Name(ReplicateToken)), EnvValue(env, "REPLICATE_API_TOKEN"))
  }

  function LeonardoInput(ai: Json, env: map<string, string>): Json
    requires ai.JObj?
  {
    Or(Get(ai, Name(LeonardoToken)), EnvValue(env, "LEONARDO_API_TOKEN"))
  }

  /** The names whose value was a placeholder. */
  function PlaceholderNames(openaiInput: Json, replicateInput: Json, leonardoInput: Json, known: seq<string>): set<SecretName>
  {
    PlaceholderSet(openaiInput, OpenaiApiKey, known) + PlaceholderSet(replicateInput, ReplicateToken, known)
    + PlaceholderSet(leonardoInput, LeonardoToken, known)
  }

  /** A secret as `load_settings` keeps it: absent, or a stripped,
      non-blank text that is not a placeholder. */
  predicate CleanOption(v: Option<string>, known: seq<string>) {
    v.Some? ==> v.value != [] && Strip(v.value) == v.value && !IsPlaceholder(v.value, known)
  }

  lemma NormalizedIsClean(value: Json, known: seq<string>)
    requires NormalizedSecret(value, known).Ok?
    ensures CleanOption(NormalizedSecret(value, known).value, known)
  {
    if value.JStr? {
      CleanSecretMeaning(value.s, known);
      StripIdempotent(value.s);
    }
  }

  /** The three secrets in the order `load_settings` normalises them. */
  datatype Secrets = Secrets(openaiApiKey: Option<string>, replicateToken: Option<string>, leonardoToken: Option<string>)

  /** The three `_normalize_secret` calls of `load_settings` on the
      values chosen for the OpenAI key, the Replicate token and the
      Leonardo token; the first one that raises ends the load. */
  method ReadSecrets(scan: SecretScan, openaiInput: Json, replicateInput: Json, leonardoInput: Json)
    returns (r: Result<Secrets>)
    modifies scan
    ensures r.Ok? <==>
      && NormalizedSecret(openaiInput, scan.known).Ok?
      && NormalizedSecret(replicateInput, scan.known).Ok?
      && NormalizedSecret(leonardoInput, scan.known).Ok?
    ensures r.Ok? ==> NormalizedSecret(openaiInput, scan.known) == Ok(r.value.openaiApiKey)
    ensures r.Ok? ==> NormalizedSecret(replicateInput, scan.known) == Ok(r.value.replicateToken)
    ensures r.Ok? ==> NormalizedSecret(leonardoInput, scan.known) == Ok(r.value.leonardoToken)
    ensures r.Ok? ==>
      scan.placeholders == old(scan.placeholders) + PlaceholderSet(openaiInput, OpenaiApiKey, scan.known)
        + PlaceholderSet(replicateInput, ReplicateToken, scan.known) + PlaceholderSet(leonardoInput, LeonardoToken, scan.known)
  {
    var openaiKey :- scan.Normalize(openaiInput, OpenaiApiKey);
    var replicateToken :- scan.Normalize(replicateInput, ReplicateToken);
    var leonardoToken :- scan.Normalize(leonardoInput, LeonardoToken);
    r := Ok(Secrets(openaiKey, replicateToken, leonardoToken));
  }

  /** The record `load_settings` builds from its section `ai`, the
      scheduler section, the slot list, the three paths and the secrets. */
  function BuildConfig(ai: Json, scheduler: Json, slots: seq<Json>, ready: string, logDirectory: string,
                       defaultImage: string, secrets: Secrets): (c: AIPipelineConfig)
    requires ai.JObj? && scheduler.JObj?
    ensures HasNoUpper(c.imageSource)
    ensures c.enable == Truthy(GetOr(ai, "enable", JBool(false)))
    ensures (c.openaiApiKey, c.replicateToken, c.leonardoToken) == (secrets.openaiApiKey, secrets.replicateToken, secrets.leonardoToken)
  {
    LowerHasNoUpper(TextSetting(ai, "image_source", "local"));
    AIPipelineConfig(
      Truthy(GetOr(ai, "enable", JBool(false))),
      slots,
      Lower(TextSetting(ai, "image_source", "local")),
      TextSetting(ai, "prompt_template", ""),
      TextSetting(ai, "caption_style", "default"),
      secrets.openaiApiKey,
      OptionalSetting(ai, "replicate_model"),
      secrets.replicateToken,
      OptionalSetting(ai, "leonardo_model"),
      secrets.leonardoToken,
      ready,
      logDirectory,
      PyStr(GetOr(ai, "timezone", JStr(TextSetting(scheduler, "timezone", "Asia/Shanghai")))),
      defaultImage)
  }

  /** What `load_settings` guarantees of every record it builds: a
      lower-case image source and clean secrets. */
  predicate ConfigClean(c: AIPipelineConfig, known: seq<string>) {
    && HasNoUpper(c.imageSource)
    && CleanOption(c.openaiApiKey, known) && CleanOption(c.replicateToken, known) && CleanOption(c.leonardoToken, known)
  }

  /** The secrets whose configured value was a placeholder. */
  function Placeholders(raw: Json, env: map<string, string>, appOpenaiKey: Option<string>, known: seq<string>): set<SecretName>
    requires raw.JObj? && AiSection(raw).JObj?
  {
    var ai := AiSection(raw);
    PlaceholderNames(OpenaiInput(ai, env, appOpenaiKey), ReplicateInput(ai, env), LeonardoInput(ai, env), known)
  }

  /** The value `load_settings` hands to `_normalize_secret` for the
      secret `n`. */
  function InputOf(n: SecretName, ai: Json, env: map<string, string>, appOpenaiKey: Option<string>): Json
    requires ai.JObj?
  {
    match n
    case OpenaiApiKey => OpenaiInput(ai, env, appOpenaiKey)
    case ReplicateToken => ReplicateInput(ai, env)
    case LeonardoToken => LeonardoInput(ai, env)
  }

  /** A secret is reported as a placeholder exactly when the value chosen
      for it is a text that is not blank once stripped and that, stripped
      and lower-cased, is one of the known placeholders. */
  lemma PlaceholdersMeaning(raw: Json, env: map<string, string>, appOpenaiKey: Option<string>, known: seq<string>,
                            n: SecretName)
    requires raw.JObj? && AiSection(raw).JObj?
    ensures n in Placeholders(raw, env, appOpenaiKey, known) <==>
      var v := InputOf(n, AiSection(raw), env, appOpenaiKey);
      v.JStr? && Strip(v.s) != [] && Listed(Lower(Strip(v.s)), known)
  {
  }

  /** The three path settings of the section; the first that is not a
      text raises. */
  function SettingPaths(ai: Json): Result<(string, string, string)>
    requires ai.JObj?
  {
    var ready :- LegacyConfig.PathSetting(ai, "ready_directory", "data/ready_to_post");
    var logDirectory :- LegacyConfig.PathSetting(ai, "caption_log_directory", "logs");
    var defaultImage :- LegacyConfig.PathSetting(ai, "default_image", "data/ready_to_post/default_test.png");
    Ok((ready, logDirectory, defaultImage))
  }

  predicate SecretsClean(secrets: Secrets, known: seq<string>) {
    CleanOption(secrets.openaiApiKey, known) && CleanOption(secrets.replicateToken, known) && CleanOption(secrets.leonardoToken, known)
  }

  lemma SecretsAreClean(openaiInput: Json, replicateInput: Json, leonardoInput: Json, secrets: Secrets, known: seq<string>)
    requires NormalizedSecret(openaiInput, known) == Ok(secrets.openaiApiKey)
    requires NormalizedSecret(replicateInput, known) == Ok(secrets.replicateToken)
    requires NormalizedSecret(leonardoInput, known) == Ok(secrets.leonardoToken)
    ensures SecretsClean(secrets, known)
  {
    NormalizedIsClean(openaiInput, known);
    NormalizedIsClean(replicateInput, known);
    NormalizedIsClean(leonardoInput, known);
  }

  /** The record built once the secrets are read: the slot list and the
      scheduler section can still raise. */
  method Assemble(raw: Json, paths: (string, string, string), secrets: Secrets, known: seq<string>)
    returns (r: Result<AIPipelineConfig>)
    requires raw.JObj? && AiSection(raw).JObj? && SecretsClean(secrets, known)
    ensures r.Ok? <==> SlotList(GetOr(AiSection(raw), "post_slots", JList([]))).Ok? && LegacyConfig.Section(raw, "scheduler").Ok?
    ensures r.Ok? ==> r.value == BuildConfig(AiSection(raw), LegacyConfig.Section(raw, "scheduler").value,
      SlotList(GetOr(AiSection(raw), "post_slots", JList([]))).value, paths.0, paths.1, paths.2, secrets)
    ensures r.Ok? ==> r.value.enable == Truthy(GetOr(AiSection(raw), "enable", JBool(false)))
    ensures r.Ok? ==> ConfigClean(r.value, known)
  {
    var ai := AiSection(raw);
    var slots :- SlotList(GetOr(ai, "post_slots", JList([])));
    var scheduler :- LegacyConfig.Section(raw, "scheduler");
    r := Ok(BuildConfig(ai, scheduler, slots, paths.0, paths.1, paths.2, secrets));
  }

  /** What a successful read yields: the section was a dict, `enable` was
      read from it, the record is clean and the placeholder set names the
      secrets whose value was a placeholder. */
  predicate Loaded(raw: Json, env: map<string, string>, appOpenaiKey: Option<string>, known: seq<string>,
                   c: AIPipelineConfig, placeholders: set<SecretName>) {
    && raw.JObj? && AiSection(raw).JObj?
    && c.enable == Truthy(GetOr(AiSection(raw), "enable", JBool(false)))
    && ConfigClean(c, known)
    && placeholders == Placeholders(raw, env, appOpenaiKey, known)
  }

  /** Every step of reading the settings succeeds: the file holds a dict
      whose `ai_pipeline` section is a dict, the three paths are texts,
      the three secrets are texts or absent, `post_slots` can be listed
      and the `scheduler` section is a dict. */
  predicate ReadOk(raw: Json, env: map<string, string>, appOpenaiKey: Option<string>, known: seq<string>) {
    && raw.JObj? && AiSection(raw).JObj?
    && SettingPaths(AiSection(raw)).Ok?
    && NormalizedSecret(OpenaiInput(AiSection(raw), env, appOpenaiKey), known).Ok?
    && NormalizedSecret(ReplicateInput(AiSection(raw), env), known).Ok?
    && NormalizedSecret(LeonardoInput(AiSection(raw), env), known).Ok?
    && SlotList(GetOr(AiSection(raw), "post_slots", JList([]))).Ok?
    && LegacyConfig.Section(raw, "scheduler").Ok?
  }

  /** The record such a read builds from the section, the environment and
      the base configuration's OpenAI key. */
  function ReadConfig(raw: Json, env: map<string, string>, appOpenaiKey: Option<string>, known: seq<string>): AIPipelineConfig
    requires ReadOk(raw, env, appOpenaiKey, known)
  {
    var ai := AiSection(raw);
    var paths := SettingPaths(ai).value;
    BuildConfig(ai, LegacyConfig.Section(raw, "scheduler").value, SlotList(GetOr(ai, "post_slots", JList([]))).value,
      paths.0, paths.1, paths.2,
      Secrets(NormalizedSecret(OpenaiInput(ai, env, appOpenaiKey), known).value,
              NormalizedSecret(ReplicateInput(ai, env), known).value,
              NormalizedSecret(LeonardoInput(ai, env), known).value))
  }

  /** The record read is clean: a lower-case image source and secrets that
      are absent or stripped, non-blank and not placeholders. */
  lemma ReadConfigClean(raw: Json, env: map<string, string>, appOpenaiKey: Option<string>, known: seq<string>)
    requires ReadOk(raw, env, appOpenaiKey, known)
    ensures ConfigClean(ReadConfig(raw, env, appOpenaiKey, known), known)
    ensures ReadConfig(raw, env, appOpenaiKey, known).enable == Truthy(GetOr(AiSection(raw), "enable", JBool(false)))
  {
    var ai := AiSection(raw);
    NormalizedIsClean(OpenaiInput(ai, env, appOpenaiKey), known);
    NormalizedIsClean(ReplicateInput(ai, env), known);
    NormalizedIsClean(LeonardoInput(ai, env), known);
  }

  /** Once the paths and the secrets are read, the read succeeds exactly
      when the slot list and the scheduler section do, and builds the
      record of those parts. */
  lemma ReadFromParts(raw: Json, env: map<string, string>, appOpenaiKey: Option<string>, known: seq<string>,
                      paths: (string, string, string), secrets: Secrets)
    requires raw.JObj? && AiSection(raw).JObj? && SettingPaths(AiSection(raw)) == Ok(paths)
    requires NormalizedSecret(OpenaiInput(AiSection(raw), env, appOpenaiKey), known) == Ok(secrets.openaiApiKey)
    requires NormalizedSecret(ReplicateInput(AiSection(raw), env), known) == Ok(secrets.replicateToken)
    requires NormalizedSecret(LeonardoInput(AiSection(raw), env), known) == Ok(secrets.leonardoToken)
    ensures ReadOk(raw, env, appOpenaiKey, known) <==>
      SlotList(GetOr(AiSection(raw), "post_slots", JList([]))).Ok? && LegacyConfig.Section(raw, "scheduler").Ok?
    ensures ReadOk(raw, env, appOpenaiKey, known) ==>
      ReadConfig(raw, env, appOpenaiKey, known) == BuildConfig(AiSection(raw), LegacyConfig.Section(raw, "scheduler").value,
        SlotList(GetOr(AiSection(raw), "post_slots", JList([]))).value, paths.0, paths.1, paths.2, secrets)
  {
  }

  /** The paths and the secrets of the section `ai`, read in that order;
      `placeholders` is the scan's set once the secrets are read. */
  method ReadParts(ai: Json, env: map<string, string>, appOpenaiKey: Option<string>, known: seq<string>)
    returns (r: Result<((string, string, string), Secrets)>, placeholders: set<SecretName>)
    requires ai.JObj?
    ensures r.Ok? <==>
      && SettingPaths(ai).Ok?
      && NormalizedSecret(OpenaiInput(ai, env, appOpenaiKey), known).Ok?
      && NormalizedSecret(ReplicateInput(ai, env), known).Ok?
      && NormalizedSecret(LeonardoInput(ai, env), known).Ok?
    ensures r.Ok? ==> SettingPaths(ai) == Ok(r.value.0)
    ensures r.Ok? ==> NormalizedSecret(OpenaiInput(ai, env, appOpenaiKey), known) == Ok(r.value.1.openaiApiKey)
    ensures r.Ok? ==> NormalizedSecret(ReplicateInput(ai, env), known) == Ok(r.value.1.replicateToken)
    ensures r.Ok? ==> NormalizedSecret(LeonardoInput(ai, env), known) == Ok(r.value.1.leonardoToken)
    ensures r.Ok? ==> placeholders == PlaceholderNames(OpenaiInput(ai, env, appOpenaiKey), ReplicateInput(ai, env),
      LeonardoInput(ai, env), known)
  {
    placeholders := {};
    var paths :- SettingPaths(ai);
    var scan := new SecretScan(known);
    var secrets :- ReadSecrets(scan, OpenaiInput(ai, env, appOpenaiKey), ReplicateInput(ai, env), LeonardoInput(ai, env));
    placeholders := scan.placeholders;
    r := Ok((paths, secrets));
  }

  /** The part of `load_settings` that reads the configuration and builds
      the record, up to the missing-secrets check. */
  method ReadSettings(raw: Json, env: map<string, string>, appOpenaiKey: Option<string>, known: seq<string>)
    returns (r: Result<AIPipelineConfig>, placeholders: set<SecretName>)
    ensures r.Ok? <==> ReadOk(raw, env, appOpenaiKey, known)
    ensures r.Ok? ==> r.value == ReadConfig(raw, env, appOpenaiKey, known)
    ensures r.Ok? ==> Loaded(raw, env, appOpenaiKey, known, r.value, placeholders)
  {
    placeholders := {};
    if !raw.JObj? || !AiSection(raw).JObj? {
      r := Err("AttributeError: object has no attribute 'get'");
      return;
    }
    var parts;
    parts, placeholders := ReadParts(AiSection(raw), env, appOpenaiKey, known);
    if parts.Err? {
      r := Err(parts.error);
      return;
    }
    var (paths, secrets) := parts.value;
    SecretsAreClean(OpenaiInput(AiSection(raw), env, appOpenaiKey), ReplicateInput(AiSection(raw), env),
      LeonardoInput(AiSection(raw), env), secrets, known);
    ReadFromParts(raw, env, appOpenaiKey, known, paths, secrets);
    r := Assemble(raw, paths, secrets, known);
  }

  /** The OpenAI key of the base configuration `load_config` builds from
      the same file, or none when that build fails. */
  function BaseKey(raw: Json, env: map<string, string>): (r: Option<string>)
    ensures LegacyConfig.BuildAppConfig(raw, env).Ok? ==>
      r == LegacyConfig.OpenAiKeyFromEnv(LegacyConfig.EnvGet(env, "OPENAI_API_KEY"))
  {
    var app := LegacyConfig.BuildAppConfig(raw, env);
    if app.Ok? then app.value.openaiApiKey else None
  }

  /** `load_settings` gets past reading: the base configuration builds
      and the `ai_pipeline` section reads with the base key. */
  predicate LoadOk(raw: Json, env: map<string, string>) {
    LegacyConfig.BuildAppConfig(raw, env).Ok? && ReadOk(raw, env, BaseKey(raw, env), PlaceholderValues)
  }

  /** The record `load_settings` reads once it gets past reading. */
  function LoadConfig(raw: Json, env: map<string, string>): AIPipelineConfig
    requires LoadOk(raw, env)
  {
    ReadConfig(raw, env, BaseKey(raw, env), PlaceholderValues)
  }

  /** `load_settings` for the configuration `raw` and the environment
      `env`: `load_config` builds the base configuration from the same
      file first, and its OpenAI key is the last fallback of the pipeline's
      key. `missing` and `placeholders` are the lists it builds for its
      error message. */
  method LoadSettings(raw: Json, env: map<string, string>)
    returns (r: Result<AIPipelineConfig>, missing: seq<SecretName>, placeholders: set<SecretName>)
    ensures LegacyConfig.BuildAppConfig(raw, env).Err? ==> r.Err? && missing == []
    ensures missing == if LoadOk(raw, env) then Missing(LoadConfig(raw, env)) else []
    ensures r.Ok? <==> LoadOk(raw, env) && missing == []
    ensures r.Ok? ==> r.value == LoadConfig(raw, env)
    ensures r.Ok? ==> Missing(r.value) == [] && ConfigClean(r.value, PlaceholderValues)
    ensures r.Ok? ==> (IsCloudEnabled(r.value) <==> r.value.imageSource == "replicate" || r.value.imageSource == "leonardo")
    ensures missing != [] ==> r == Err(MissingMessage(missing, placeholders))
    ensures missing != [] ==> Truthy(GetOr(AiSection(raw), "enable", JBool(false)))
    ensures missing != [] ==> placeholders == Placeholders(raw, env, BaseKey(raw, env), PlaceholderValues)
  {
    missing := [];
    placeholders := {};
    var app := LegacyConfig.BuildAppConfig(raw, env);
    if app.Err? {
      r := Err(app.error);
      return;
    }
    r, placeholders := ReadSettings(raw, env, app.value.openaiApiKey, PlaceholderValues);
    if r.Err? {
      return;
    }
    var config := r.value;
    MissingSecretsNamed(config);
    LowerCloudSource(config);
    missing := Missing(config);
    if missing != [] {
      r := Err(MissingMessage(missing, placeholders));
    }
  }
}
