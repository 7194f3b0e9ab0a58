/** Caption resolution of the current pipeline
    (src/pipeline/caption_provider.py): the OpenAI SDK tier, the direct
    HTTP tier and the template tier, tried in that order, with a switch
    that turns both cloud tiers off for good once OpenAI answers
    "unauthorized". Each cloud call is the outcome it produced, as a
    function of the messages it sent; `random.choice` is the index `pick`
    taken modulo the number of templates; the clock reading stored with a
    caption row is a parameter. */
module PipelineCaption {
  import opened Wrappers
  import opened Text
  import opened Json
  import LegacyConfig
  import PipelineConfig
  import PipelineDatabase

  const ProviderOpenai := "openai"
  const ProviderOpenaiHttp := "openai_http"
  const ProviderTemplate := "template"

  const SystemPrompt := "你是一名资深新媒体编辑。"

  /** `CaptionResult`. */
  datatype CaptionResult = CaptionResult(text: string, provider: string, metadata: Json)

  /** What the SDK call did: returned a response whose extracted text is
      given, raised the SDK's `AuthenticationError`, or raised anything
      else. */
  datatype SdkReply = SdkText(text: string) | SdkAuthError | SdkRaised(message: string)

  /** What the HTTP call did: returned a decoded JSON body, failed
      `raise_for_status` with a status code, or raised anything else
      (connection error, timeout, undecodable body). */
  datatype HttpReply = HttpBody(data: Json) | HttpStatusError(status: int) | HttpRaised(message: string)

  /** The interface the installed SDK's client offers. */
  datatype ClientApi = ChatCompletions | Responses | NoInterface

  /** How one cloud tier ended. */
  datatype TierOutcome = Text(text: string) | Unauthorized | Failed

  /** Whether the SDK tier (`_client is not None`) and the HTTP tier
      (`_http_fallback_enabled`) are on. */
  datatype Tiers = Tiers(client: bool, http: bool)

  const Disabled := Tiers(false, false)

  /** What `__init__` reads from the raw configuration: the `caption`
      section's `templates` and `prompt`, plus the client's interface. */
  datatype Settings = Settings(config: PipelineConfig.AIPipelineConfig, templates: Json, prompt: Json, api: ClientApi)

  /** The settings `__init__` reads; a `caption` entry that is not a dict
      raises on `.get`. */
  function SettingsOf(config: PipelineConfig.AIPipelineConfig, rawConfig: Json, api: ClientApi): (r: Result<Settings>)
    requires rawConfig.JObj?
    ensures r.Ok? <==> GetOr(rawConfig, "caption", JObj([])).JObj?
    ensures !HasKey(rawConfig.fields, "caption") ==> r == Ok(Settings(config, JList([]), JStr(""), api))
  {
    var caption := GetOr(rawConfig, "caption", JObj([]));
    if !caption.JObj? then Err("AttributeError: caption section is not a dict")
    else Ok(Settings(config, GetOr(caption, "templates", JList([])), GetOr(caption, "prompt", JStr("")), api))
  }

  // ---------------------------------------------------------------------
  // Style, metadata and prompt
  // ---------------------------------------------------------------------

  /** `style or self._config.caption_style`. */
  function EffectiveStyle(config: PipelineConfig.AIPipelineConfig, style: Option<string>): (r: string)
    ensures style.Some? && style.value != [] ==> r == style.value
    ensures style.None? || style.value == [] ==> r == config.captionStyle
  {
    if style.Some? && style.value != [] then style.value else config.captionStyle
  }

  /** The metadata dict: the style and the image name. */
  function Metadata(style: string, name: string): (r: Json)
    ensures r.JObj? && Truthy(r)
    ensures Get(r, "style") == JStr(style) && Get(r, "image") == JStr(name)
  {
    var r := JObj([("style", JStr(style)), ("image", JStr(name))]);
    assert r.fields[0].0 == "style";
    assert r.fields[1].0 == "image" && r.fields[1..][0].0 == "image";
    r
  }

  function TaskPrompt(name: string, style: string): string {
    "请为文件名为 " + name + " 的图片编写一段适合 X 平台的中文文案，" +
    "整体风格为 " + style + "，需要包含 2-3 个 emoji 与至少 2 个话题标签，" +
    "总长度控制在 100 字以内。"
  }

  /** The user prompt both cloud tiers send: the configured prompt, a
      blank line and the instruction, or the instruction alone when no prompt is set. */
  function UserPrompt(prompt: Json, name: string, style: string): (r: string)
    ensures !Truthy(prompt) ==> r == TaskPrompt(name, style)
    ensures |r| >= |TaskPrompt(name, style)|
    ensures Truthy(prompt) ==> |r| >= |PyStr(prompt)| && r[..|PyStr(prompt)|] == PyStr(prompt)
    ensures r[|r| - |TaskPrompt(name, style)|..] == TaskPrompt(name, style)
  {
    var task := TaskPrompt(name, style);
    var r := if Truthy(prompt) then PyStr(prompt) + "\n\n" + task else task;
    assert r == r[..|r| - |task|] + task;
    r
  }

  /** The chat messages: the editor persona, then the user prompt. */
  function Messages(prompt: string): seq<Json> {
    [JObj([("role", JStr("system")), ("content", JStr(SystemPrompt))]),
     JObj([("role", JStr("user")), ("content", JStr(prompt))])]
  }

  // ---------------------------------------------------------------------
  // _convert_messages_to_responses
  // ---------------------------------------------------------------------

  /** One message in the Responses format: a string content becomes a
      one-part `text` list under the same role (`user` when missing);
      any other message is passed on unchanged. */
  function ConvertedMessage(message: Json): Json
    requires message.JObj?
  {
    var role := GetOr(message, "role", JStr("user"));
    var content := GetOr(message, "content", JStr(""));
    if content.JStr? then
      JObj([("role", role), ("content", JList([JObj([("type", JStr("text")), ("text", content)])]))])
    else message
  }

  predicate AllDicts(messages: seq<Json>) {
    forall i :: 0 <= i < |messages| ==> messages[i].JObj?
  }

  /** The converted list, message by message. */
  function ResponsesInput(messages: seq<Json>): (r: seq<Json>)
    requires AllDicts(messages)
    ensures |r| == |messages|
  {
    seq(|messages|, i requires 0 <= i < |messages| && AllDicts(messages) => ConvertedMessage(messages[i]))
  }

  /** A converted message keeps its role and its text, and a message
      whose content is not a string is left as it was. */
  lemma ConvertedKeepsRoleAndText(message: Json)
    requires message.JObj?
    ensures var c := GetOr(message, "content", JStr(""));
      c.JStr? ==> Get(ConvertedMessage(message), "role") == GetOr(message, "role", JStr("user")) &&
                  Get(ConvertedMessage(message), "content") == JList([JObj([("type", JStr("text")), ("text", c)])])
    ensures !GetOr(message, "content", JStr("")).JStr? ==> ConvertedMessage(message) == message
  {
    var c := GetOr(message, "content", JStr(""));
    if c.JStr? {
      var m := ConvertedMessage(message);
      assert m.fields[0].0 == "role";
      assert m.fields[1].0 == "content";
    }
  }

  /** `_convert_messages_to_responses`: one converted message per input
      message, in the same order. */
  method ConvertMessagesToResponses(messages: seq<Json>) returns (converted: seq<Json>)
    requires AllDicts(messages)
    ensures |converted| == |messages|
    ensures forall i :: 0 <= i < |messages| ==> converted[i] == ConvertedMessage(messages[i])
    ensures converted == ResponsesInput(messages)
  {
    converted := [];
    var i := 0;
    while i < |messages|
      invariant 0 <= i <= |messages|
      invariant |converted| == i
      invariant forall k :: 0 <= k < i ==> converted[k] == ConvertedMessage(messages[k])
    {
      var message := messages[i];
      var role := GetOr(message, "role", JStr("user"));
      var content := GetOr(message, "content", JStr(""));
      if content.JStr? {
        converted := converted + [JObj([("role", role), ("content", JList([JObj([("type", JStr("text")), ("text", content)])]))])];
      } else {
        converted := converted + [message];
      }
      i := i + 1;
    }
  }

  // ---------------------------------------------------------------------
  // _normalize_openai_content
  // ---------------------------------------------------------------------

  /** What one item of a content list contributes: the `str()` of a
      dict's truthy `text or content`; nothing for other items, which have
      no `text` attribute. */
  function ItemText(item: Json): seq<string> {
    if item.JObj? then
      var text := Or(Get(item, "text"), Get(item, "content"));
      if Truthy(text) then [PyStr(text)] else []
    else []
  }

  /** The texts collected from a content list, in item order. */
  function ItemTexts(items: seq<Json>): seq<string> {
    if items == [] then [] else ItemTexts(items[..|items| - 1]) + ItemText(items[|items| - 1])
  }

  /** The specification of `_normalize_openai_content`. */
  function NormalizeContent(content: Json): (r: string)
    ensures r != [] ==> !IsSpace(r[0]) && !IsSpace(r[|r| - 1])
    ensures !content.JStr? && !content.JList? ==> r == []
  {
    match content
    case JStr(s) => Strip(s)
    case JList(items) => Strip(Join("", ItemTexts(items)))
    case _ => ""
  }

  /** Every collected text comes from a dict item with a truthy `text` or
      `content`, so a list without dicts normalises to "". */
  lemma {:induction false} ItemTextsFromDicts(items: seq<Json>)
    ensures |ItemTexts(items)| <= |items|
    ensures (forall i :: 0 <= i < |items| ==> !items[i].JObj?) ==> ItemTexts(items) == []
  {
    if items != [] {
      ItemTextsFromDicts(items[..|items| - 1]);
    }
  }

  /** The result carries no surrounding white space: normalising it again
      as a string changes nothing. */
  lemma NormalizeContentStripped(content: Json)
    ensures NormalizeContent(JStr(NormalizeContent(content))) == NormalizeContent(content)
  {
    var text := NormalizeContent(content);
    StripOfUnpadded(text);
    assert NormalizeContent(JStr(text)) == Strip(text);
  }

  /** `_normalize_openai_content`: a string is stripped, a list has the
      texts of its items concatenated and stripped, anything else is "". */
  method NormalizeOpenaiContent(content: Json) returns (r: string)
    ensures r == NormalizeContent(content)
    ensures !content.JStr? && !content.JList? ==> r == []
  {
    if content.JStr? {
      return Strip(content.s);
    }
    if content.JList? {
      var items := content.items;
      var texts: seq<string> := [];
      var i := 0;
      while i < |items|
        invariant 0 <= i <= |items|
        invariant texts == ItemTexts(items[..i])
      {
        var item := items[i];
        if item.JObj? {
          var text := Or(Get(item, "text"), Get(item, "content"));
          if Truthy(text) {
            texts := texts + [PyStr(text)];
          }
        }
        assert items[..i + 1][..i] == items[..i];
        i := i + 1;
      }
      assert items[..i] == items;
      return Strip(Join("", texts));
    }
    return "";
  }

  // ---------------------------------------------------------------------
  // The cloud tiers
  // ---------------------------------------------------------------------

  /** How the SDK tier ends for a reply: an empty text is a failure. */
  function SdkOutcome(reply: SdkReply): (r: TierOutcome)
    ensures r.Text? ==> r.text != []
    ensures r.Unauthorized? <==> reply.SdkAuthError?
  {
    match reply
    case SdkText(t) => if t == [] then Failed else Text(t)
    case SdkAuthError => Unauthorized
    case SdkRaised(_) => Failed
  }

  /** `_call_openai` inside the try of `get_caption`: chat completions
      receive the messages, the Responses interface their converted form,
      and a client with neither raises. */
  function SdkTier(s: Settings, name: string, style: string, sdk: seq<Json> -> SdkReply): TierOutcome {
    var messages := Messages(UserPrompt(s.prompt, name, style));
    match s.api
    case ChatCompletions => SdkOutcome(sdk(messages))
    case Responses => SdkOutcome(sdk(ResponsesInput(messages)))
    case NoInterface => Failed
  }

  /** The text `_call_openai_http` takes from a decoded body: the
      normalised content of the first choice's message; `None` where the
      code raises (no choices, a malformed choice, an empty text). */
  function HttpText(data: Json): (r: Option<string>)
    ensures r.Some? ==> r.value != [] && r.value == Strip(r.value)
  {
    if !data.JObj? then None
    else
      var choices := GetOr(data, "choices", JList([]));
      if !Truthy(choices) then None
      else
        var first := match choices
          case JList(items) => items[0]
          case JStr(s) => JStr([s[0]])
          case _ => JNull;
        if !first.JObj? then None
        else
          var message := GetOr(first, "message", JObj([]));
          if !message.JObj? then None
          else
            var text := NormalizeContent(Get(message, "content"));
            NormalizeContentStripped(Get(message, "content"));
            if text == [] then None else Some(text)
  }

  /** `d.get(key, ...)` on a one-field dict holding `key`. */
  lemma SingleFieldGet(key: string, v: Json, default: Json)
    ensures GetOr(JObj([(key, v)]), key, default) == v
    ensures Get(JObj([(key, v)]), key) == v
  {
    assert JObj([(key, v)]).fields[0].0 == key;
  }

  /** A body whose first choice carries a string content yields that
      content stripped, or nothing when it is blank. */
  lemma HttpTextOfStringContent(content: string, rest: seq<Json>)
    ensures var data := JObj([("choices", JList([JObj([("message", JObj([("content", JStr(content))]))])] + rest))]);
      HttpText(data) == (if Blank(content) then None else Some(Strip(content)))
  {
    var message := JObj([("content", JStr(content))]);
    var first := JObj([("message", message)]);
    var choices := JList([first] + rest);
    SingleFieldGet("choices", choices, JList([]));
    SingleFieldGet("message", message, JObj([]));
    SingleFieldGet("content", JStr(content), JNull);
    assert choices.items[0] == first;
  }

  /** How the HTTP tier ends for a reply: a 401 is unauthorized, any
      other error or an empty text is a failure. */
  function HttpTier(s: Settings, name: string, style: string, http: seq<Json> -> HttpReply): (r: TierOutcome)
    ensures r.Text? ==> r.text != []
  {
    match http(Messages(UserPrompt(s.prompt, name, style)))
    case HttpBody(data) => (match HttpText(data) case Some(t) => Text(t) case None => Failed)
    case HttpStatusError(status) => if status == 401 then Unauthorized else Failed
    case HttpRaised(_) => Failed
  }

  // ---------------------------------------------------------------------
  // _generate_from_template
  // ---------------------------------------------------------------------

  const DefaultCaptionHead := "今天的主角是 "
  const DefaultCaptionTail := "，欢迎在评论区分享你的看法！ #AI #虚拟人"

  /** The caption used when no template is configured. */
  function DefaultCaption(stem: string): (r: string)
    ensures |r| == |DefaultCaptionHead| + |stem| + |DefaultCaptionTail|
    ensures r[|DefaultCaptionHead|..|DefaultCaptionHead| + |stem|] == stem
  {
    DefaultCaptionHead + stem + DefaultCaptionTail
  }

  function TemplateEnv(name: string, style: string): map<string, string> {
    map["filename" := name, "style" := style]
  }

  /** `_generate_from_template`: a randomly chosen template formatted
      with the image name and the style, or the default caption with the
      image stem when no template is configured. A chosen value that is
      not a string, or a template naming another field, raises. */
  function TemplateCaption(templates: Json, name: string, style: string, pick: nat): (r: Result<string>)
    ensures !Truthy(templates) ==> r == Ok(DefaultCaption(Stem(name)))
    ensures templates.JList? && templates.items != [] && r.Ok? ==>
      exists i :: 0 <= i < |templates.items| && templates.items[i].JStr? &&
        Format(templates.items[i].s, TemplateEnv(name, style)) == Some(r.value)
  {
    if !Truthy(templates) then Ok(DefaultCaption(Stem(name)))
    else
      var chosen := match templates
        case JList(items) => Ok(items[pick % |items|])
        case JStr(s) => Ok(JStr([s[pick % |s|]]))
        case _ => Err("TypeError: templates cannot be chosen from");
      match chosen
      case Err(e) => Err(e)
      case Ok(t) =>
        if !t.JStr? then Err("AttributeError: template is not a string")
        else
          match Format(t.s, TemplateEnv(name, style))
          case None => Err("KeyError: template names an unknown field")
          case Some(caption) => Ok(caption)
  }

  /** A template whose fields are only `filename` and `style`. */
  predicate WellFormedTemplate(t: Json) {
    t.JStr? && ParseFormat(t.s).Some? &&
    forall i :: 0 <= i < |ParseFormat(t.s).value| && ParseFormat(t.s).value[i].Field? ==>
      ParseFormat(t.s).value[i].name in {"filename", "style"}
  }

  lemma {:induction false} RenderKnownFields(ps: seq<Piece>, env: map<string, string>)
    requires forall i :: 0 <= i < |ps| && ps[i].Field? ==> ps[i].name in env
    ensures Render(ps, env).Some?
  {
    if ps != [] {
      RenderKnownFields(ps[1..], env);
    }
  }

  /** The template tier never fails when every template is a string
      naming only `filename` and `style`. */
  lemma TemplateNeverFails(templates: Json, name: string, style: string, pick: nat)
    requires templates.JList? || !Truthy(templates)
    requires templates.JList? ==> forall i :: 0 <= i < |templates.items| ==> WellFormedTemplate(templates.items[i])
    ensures TemplateCaption(templates, name, style, pick).Ok?
  {
    if Truthy(templates) {
      var t := templates.items[pick % |templates.items|];
      assert WellFormedTemplate(t);
      RenderKnownFields(ParseFormat(t.s).value, TemplateEnv(name, style));
    }
  }

  /** Every template can be the one chosen. */
  lemma EveryTemplateReachable(templates: seq<Json>, name: string, style: string, i: nat)
    requires i < |templates| && templates[i].JStr? && Format(templates[i].s, TemplateEnv(name, style)).Some?
    ensures TemplateCaption(JList(templates), name, style, i) == Ok(Format(templates[i].s, TemplateEnv(name, style)).value)
  {
  }

  // ---------------------------------------------------------------------
  // get_caption
  // ---------------------------------------------------------------------

  /** What one `get_caption` call returns, and the tiers left on after it. */
  datatype Resolution = Resolution(result: Result<CaptionResult>, tiers: Tiers)

  /** The specification of `get_caption`: the SDK tier when the client
      exists, then the HTTP tier when it is on and a key is set, then the
      templates; an unauthorized answer turns both cloud tiers off before
      the next tier is considered. */
  function Resolve(s: Settings, tiers: Tiers, imagePath: string, style: Option<string>,
                   sdk: seq<Json> -> SdkReply, http: seq<Json> -> HttpReply, pick: nat): (r: Resolution)
    ensures !tiers.client && !tiers.http ==>
      r.tiers == tiers && (r.result.Ok? ==> r.result.value.provider == ProviderTemplate)
    ensures r.result.Err? ==> TemplateCaption(s.templates, PathName(imagePath), EffectiveStyle(s.config, style), pick).Err?
  {
    var st := EffectiveStyle(s.config, style);
    var name := PathName(imagePath);
    var md := Metadata(st, name);
    var first := if tiers.client then SdkTier(s, name, st, sdk) else Failed;
    if first.Text? then Resolution(Ok(CaptionResult(first.text, ProviderOpenai, md)), tiers)
    else
      var t1 := if first.Unauthorized? then Disabled else tiers;
      var second := if t1.http && LegacyConfig.Filled(s.config.openaiApiKey) then HttpTier(s, name, st, http) else Failed;
      if second.Text? then Resolution(Ok(CaptionResult(second.text, ProviderOpenaiHttp, md)), t1)
      else
        var t2 := if second.Unauthorized? then Disabled else t1;
        match TemplateCaption(s.templates, name, st, pick)
        case Ok(caption) => Resolution(Ok(CaptionResult(caption, ProviderTemplate, md)), t2)
        case Err(e) => Resolution(Err(e), t2)
  }

  /** The provider is one of the three tiers, the first tier that
      produced a text wins, and a cloud caption is never empty. */
  lemma ResolveTierOrder(s: Settings, tiers: Tiers, imagePath: string, style: Option<string>,
                         sdk: seq<Json> -> SdkReply, http: seq<Json> -> HttpReply, pick: nat)
    ensures var r := Resolve(s, tiers, imagePath, style, sdk, http, pick).result;
      var st := EffectiveStyle(s.config, style);
      var name := PathName(imagePath);
      var sdkText := tiers.client && SdkTier(s, name, st, sdk).Text?;
      (r.Ok? ==> r.value.provider in {ProviderOpenai, ProviderOpenaiHttp, ProviderTemplate}) &&
      (sdkText <==> r.Ok? && r.value.provider == ProviderOpenai) &&
      (r.Ok? && r.value.provider == ProviderOpenaiHttp ==>
        !sdkText && tiers.http && LegacyConfig.Filled(s.config.openaiApiKey) && HttpTier(s, name, st, http).Text?) &&
      (r.Ok? && r.value.provider != ProviderTemplate ==> r.value.text != []) &&
      (r.Ok? && r.value.provider == ProviderTemplate ==> TemplateCaption(s.templates, name, st, pick) == Ok(r.value.text))
  {
  }

  /** The metadata always names the effective style and the image. */
  lemma ResolveMetadata(s: Settings, tiers: Tiers, imagePath: string, style: Option<string>,
                        sdk: seq<Json> -> SdkReply, http: seq<Json> -> HttpReply, pick: nat)
    ensures var r := Resolve(s, tiers, imagePath, style, sdk, http, pick).result;
      r.Ok? ==> r.value.metadata == Metadata(EffectiveStyle(s.config, style), PathName(imagePath))
  {
  }

  /** A call only ever turns tiers off. */
  lemma ResolveOnlyDisables(s: Settings, tiers: Tiers, imagePath: string, style: Option<string>,
                            sdk: seq<Json> -> SdkReply, http: seq<Json> -> HttpReply, pick: nat)
    ensures var t := Resolve(s, tiers, imagePath, style, sdk, http, pick).tiers;
      (t.client ==> tiers.client) && (t.http ==> tiers.http) && (t == tiers || t == Disabled)
  {
  }

  /** An SDK authentication error turns both tiers off, and the HTTP tier
      is not tried in the same call: whatever HTTP would answer, the
      result is the template's. */
  lemma SdkAuthErrorDisables(s: Settings, tiers: Tiers, imagePath: string, style: Option<string>,
                             sdk: seq<Json> -> SdkReply, http: seq<Json> -> HttpReply, http2: seq<Json> -> HttpReply, pick: nat)
    requires tiers.client && SdkTier(s, PathName(imagePath), EffectiveStyle(s.config, style), sdk).Unauthorized?
    ensures Resolve(s, tiers, imagePath, style, sdk, http, pick).tiers == Disabled
    ensures Resolve(s, tiers, imagePath, style, sdk, http, pick) == Resolve(s, tiers, imagePath, style, sdk, http2, pick)
    ensures var r := Resolve(s, tiers, imagePath, style, sdk, http, pick).result;
      r.Ok? ==> r.value.provider == ProviderTemplate
  {
  }

  /** An HTTP 401 turns both tiers off; any other HTTP status leaves the
      HTTP tier on. */
  lemma HttpStatusEffect(s: Settings, tiers: Tiers, imagePath: string, style: Option<string>,
                         sdk: seq<Json> -> SdkReply, http: seq<Json> -> HttpReply, pick: nat, status: int)
    requires var name := PathName(imagePath);
      var st := EffectiveStyle(s.config, style);
      (tiers.client ==> SdkTier(s, name, st, sdk).Failed?) && tiers.http && LegacyConfig.Filled(s.config.openaiApiKey) &&
      http(Messages(UserPrompt(s.prompt, name, st))) == HttpStatusError(status)
    ensures status == 401 ==> Resolve(s, tiers, imagePath, style, sdk, http, pick).tiers == Disabled
    ensures status != 401 ==> Resolve(s, tiers, imagePath, style, sdk, http, pick).tiers == tiers
    ensures var r := Resolve(s, tiers, imagePath, style, sdk, http, pick).result;
      r.Ok? ==> r.value.provider == ProviderTemplate
  {
  }

  /** Once both tiers are off, a call consults neither cloud service and
      returns the template caption, leaving the tiers off. */
  lemma DisabledUsesTemplates(s: Settings, imagePath: string, style: Option<string>,
                              sdk: seq<Json> -> SdkReply, http: seq<Json> -> HttpReply,
                              sdk2: seq<Json> -> SdkReply, http2: seq<Json> -> HttpReply, pick: nat)
    ensures Resolve(s, Disabled, imagePath, style, sdk, http, pick) == Resolve(s, Disabled, imagePath, style, sdk2, http2, pick)
    ensures Resolve(s, Disabled, imagePath, style, sdk, http, pick).tiers == Disabled
    ensures var r := Resolve(s, Disabled, imagePath, style, sdk, http, pick).result;
      var st := EffectiveStyle(s.config, style);
      match TemplateCaption(s.templates, PathName(imagePath), st, pick)
      case Ok(c) => r == Ok(CaptionResult(c, ProviderTemplate, Metadata(st, PathName(imagePath))))
      case Err(e) => r == Err(e)
  {
  }

  /** An empty SDK text counts as a failure: the call continues exactly
      as if the SDK had raised. */
  lemma EmptySdkTextFallsThrough(s: Settings, tiers: Tiers, imagePath: string, style: Option<string>,
                                 sdk: seq<Json> -> SdkReply, http: seq<Json> -> HttpReply, pick: nat, message: string)
    requires s.api.ChatCompletions?
    requires forall m :: sdk(m) == SdkText([])
    ensures Resolve(s, tiers, imagePath, style, sdk, http, pick) ==
            Resolve(s, tiers, imagePath, style, (m: seq<Json>) => SdkRaised(message), http, pick)
  {
  }

  /** The caption row `_log_caption` adds for a result. */
  function LogRow(imagePath: string, style: string, result: CaptionResult, now: string): PipelineDatabase.CaptionRow {
    PipelineDatabase.CaptionRow(PathName(imagePath), style, result.text, result.provider, result.metadata, now)
  }

  /** `CaptionProvider`: the settings, the store it logs to, and the two
      tier switches. */
  class CaptionProvider {
    const settings: Settings
    const database: PipelineDatabase.Database
    var client: bool
    var httpFallbackEnabled: bool

    /** `__init__`: the HTTP tier is on exactly when a key is set; the SDK
        tier also needs the library installed and the client created. */
    constructor (settings: Settings, database: PipelineDatabase.Database, sdkInstalled: bool, clientCreated: bool)
      ensures this.settings == settings && this.database == database
      ensures client <==> LegacyConfig.Filled(settings.config.openaiApiKey) && sdkInstalled && clientCreated
      ensures httpFallbackEnabled <==> LegacyConfig.Filled(settings.config.openaiApiKey)
    {
      this.settings := settings;
      this.database := database;
      httpFallbackEnabled := LegacyConfig.Filled(settings.config.openaiApiKey);
      client := LegacyConfig.Filled(settings.config.openaiApiKey) && sdkInstalled && clientCreated;
    }

    function CurrentTiers(): Tiers
      reads this
    {
      Tiers(client, httpFallbackEnabled)
    }

    /** `_handle_openai_auth_error`: both cloud tiers off. */
    method HandleOpenaiAuthError()
      modifies this
      ensures CurrentTiers() == Disabled
    {
      client := false;
      httpFallbackEnabled := false;
    }

    /** `_call_openai`, with the outcome `get_caption` sees. */
    method CallOpenai(name: string, style: string, sdk: seq<Json> -> SdkReply) returns (r: TierOutcome)
      ensures r == SdkTier(settings, name, style, sdk)
    {
      var messages := Messages(UserPrompt(settings.prompt, name, style));
      var reply: SdkReply;
      match settings.api {
        case ChatCompletions =>
          reply := sdk(messages);
        case Responses =>
          var input := ConvertMessagesToResponses(messages);
          reply := sdk(input);
        case NoInterface =>
          return Failed;
      }
      match reply {
        case SdkText(t) => r := if t == [] then Failed else Text(t);
        case SdkAuthError => r := Unauthorized;
        case SdkRaised(_) => r := Failed;
      }
    }

    /** `_call_openai_http`, with the outcome `get_caption` sees. */
    method CallOpenaiHttp(name: string, style: string, http: seq<Json> -> HttpReply) returns (r: TierOutcome)
      ensures r == HttpTier(settings, name, style, http)
    {
      match http(Messages(UserPrompt(settings.prompt, name, style)))
      case HttpStatusError(status) =>
        r := if status == 401 then Unauthorized else Failed;
      case HttpRaised(_) =>
        r := Failed;
      case HttpBody(data) =>
        r := Failed;
        if data.JObj? {
          var choices := GetOr(data, "choices", JList([]));
          if Truthy(choices) && (choices.JList? || choices.JStr?) {
            var first := if choices.JList? then choices.items[0] else JStr([choices.s[0]]);
            if first.JObj? {
              var message := GetOr(first, "message", JObj([]));
              if message.JObj? {
                var text := NormalizeOpenaiContent(Get(message, "content"));
                if text != [] {
                  r := Text(text);
                }
              }
            }
          }
        }
    }

    /** `_log_caption`: one caption row in the store; the log file is not
        part of this model. */
    method LogCaption(imagePath: string, style: string, result: CaptionResult, now: string)
      requires result.metadata.JObj? && Truthy(result.metadata)
      modifies database
      ensures database.captionLog == old(database.captionLog) + [LogRow(imagePath, style, result, now)]
      ensures database.postHistory == old(database.postHistory)
    {
      database.LogCaption(imagePath, result.text, style, result.provider, result.metadata, now);
    }

    /** `get_caption`: the result and the tiers left on are those of
        `Resolve`, and a returned caption is logged exactly once, with its
        provider. */
    method GetCaption(imagePath: string, style: Option<string>, sdk: seq<Json> -> SdkReply,
                      http: seq<Json> -> HttpReply, pick: nat, now: string) returns (r: Result<CaptionResult>)
      modifies this, database
      ensures Resolution(r, CurrentTiers()) == Resolve(settings, old(CurrentTiers()), imagePath, style, sdk, http, pick)
      ensures r.Ok? ==>
        database.captionLog == old(database.captionLog) + [LogRow(imagePath, EffectiveStyle(settings.config, style), r.value, now)]
      ensures r.Err? ==> database.captionLog == old(database.captionLog)
      ensures database.postHistory == old(database.postHistory)
    {
      var st := EffectiveStyle(settings.config, style);
      var name := PathName(imagePath);
      var metadata := Metadata(st, name);

      if client {
        var outcome := CallOpenai(name, st, sdk);
        if outcome.Text? {
          r := Ok(CaptionResult(outcome.text, ProviderOpenai, metadata));
          LogCaption(imagePath, st, r.value, now);
          return;
        } else if outcome.Unauthorized? {
          HandleOpenaiAuthError();
        }
      }

      if httpFallbackEnabled && LegacyConfig.Filled(settings.config.openaiApiKey) {
        var outcome := CallOpenaiHttp(name, st, http);
        if outcome.Text? {
          r := Ok(CaptionResult(outcome.text, ProviderOpenaiHttp, metadata));
          LogCaption(imagePath, st, r.value, now);
          return;
        } else if outcome.Unauthorized? {
          HandleOpenaiAuthError();
        }
      }

      var caption := TemplateCaption(settings.templates, name, st, pick);
      if caption.Err? {
        return Err(caption.error);
      }
      r := Ok(CaptionResult(caption.value, ProviderTemplate, metadata));
      LogCaption(imagePath, st, r.value, now);
    }
  }
}
