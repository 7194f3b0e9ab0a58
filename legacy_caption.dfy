/** Caption generation of the legacy loop (auto_ai_influencer/caption.py):
    the chat model when a key is configured, a randomly chosen template
    otherwise or when the call fails. The random choice is an index
    `pick` taken modulo the number of templates; the chat call is the
    outcome it produced. */
module LegacyCaption {
  import opened Wrappers
  import opened Text
  import opened LegacyConfig

  datatype CaptionResult = CaptionResult(text: string, usedTemplate: Option<string>, model: Option<string>)

  /** What `chat.completions.create` did: raised, or returned choices
      whose message contents are given (`None` for a null content). */
  datatype ChatOutcome = ChatRaised(message: string) | ChatReply(contents: seq<Option<string>>)

  /** A `CaptionGenerator`: its caption settings and API key. */
  datatype CaptionGenerator = CaptionGenerator(config: CaptionConfig, apiKey: Option<string>)
  {
    /** `self._client is not None`. */
    predicate HasClient() { Filled(apiKey) }
  }

  /** A generator has a client exactly when the key is a non-empty string. */
  lemma ClientExactlyWithKey(config: CaptionConfig, key: string)
    ensures !CaptionGenerator(config, None).HasClient()
    ensures CaptionGenerator(config, Some(key)).HasClient() <==> key != []
  {
  }

  const PromptLabel := "\n文件名："

  /** `_build_prompt`: the configured prompt, then the label and the file name. */
  function BuildPrompt(config: CaptionConfig, imagePath: string): (r: string)
    ensures |r| == |config.prompt| + |PromptLabel| + |PathName(imagePath)|
    ensures r[..|config.prompt|] == config.prompt
    ensures r[|config.prompt|..|config.prompt| + |PromptLabel|] == PromptLabel
    ensures r[|r| - |PathName(imagePath)|..] == PathName(imagePath)
  {
    config.prompt + PromptLabel + PathName(imagePath)
  }

  /** The environment of the template: `filename` is the image stem. */
  function TemplateEnv(imagePath: string): map<string, string> {
    map["filename" := Stem(PathName(imagePath))]
  }

  /** The template path: `random.choice(templates).format(filename=stem)`;
      an empty list or a template naming another field raises. */
  function FromTemplate(config: CaptionConfig, imagePath: string, pick: nat): (r: Result<CaptionResult>)
    ensures config.templates == [] ==> r.Err?
    ensures r.Ok? ==> r.value.model.None? && r.value.usedTemplate.Some?
    ensures r.Ok? ==> r.value.usedTemplate.value in config.templates
    ensures r.Ok? ==> Format(r.value.usedTemplate.value, TemplateEnv(imagePath)) == Some(r.value.text)
  {
    if config.templates == [] then Err("IndexError: Cannot choose from an empty sequence")
    else
      var template := config.templates[pick % |config.templates|];
      match Format(template, TemplateEnv(imagePath))
      case None => Err("KeyError: template names an unknown field")
      case Some(text) => Ok(CaptionResult(text, Some(template), None))
  }

  /** Every template can be the one chosen. */
  lemma EveryTemplateReachable(config: CaptionConfig, imagePath: string, i: nat)
    requires i < |config.templates| && Format(config.templates[i], TemplateEnv(imagePath)).Some?
    ensures FromTemplate(config, imagePath, i).Ok?
    ensures FromTemplate(config, imagePath, i).value.usedTemplate == Some(config.templates[i])
  {
  }

  /** `generate(image_path)`: the model's stripped answer, or the template
      path when there is no client or the call raised. */
  function Generate(g: CaptionGenerator, imagePath: string, pick: nat, outcome: ChatOutcome): (r: Result<CaptionResult>)
    ensures !g.HasClient() || outcome.ChatRaised? ==> r == FromTemplate(g.config, imagePath, pick)
    ensures g.HasClient() && outcome.ChatReply? && outcome.contents != [] && outcome.contents[0].Some? ==>
      r == Ok(CaptionResult(Strip(outcome.contents[0].value), None, Some(g.config.model)))
    ensures r.Ok? ==> (r.value.usedTemplate.None? <==> r.value.model.Some?)
  {
    if !g.HasClient() then FromTemplate(g.config, imagePath, pick)
    else
      match outcome
      case ChatRaised(_) => FromTemplate(g.config, imagePath, pick)
      case ChatReply(contents) =>
        if contents == [] then Err("IndexError: list index out of range")
        else if contents[0].None? then Err("AttributeError: 'NoneType' object has no attribute 'strip'")
        else Ok(CaptionResult(Strip(contents[0].value), None, Some(g.config.model)))
  }

  const FirstLead := "今天的灵感来自這張圖："
  const SecondLead := "AI 小编上线，分享 "
  const SecondTail := " 的精彩瞬间！"

  /** The default templates are a lead, the `{filename}` field and a
      tail. */
  lemma DefaultTemplatesShape()
    ensures DefaultTemplates[0] == FirstLead + "{filename}"
    ensures DefaultTemplates[1] == SecondLead + "{filename}" + SecondTail
  {
  }

  lemma DefaultPiecesPlain()
    ensures NoBraces(FirstLead) && NoBraces(SecondLead) && NoBraces(SecondTail) && NoBraces("filename")
  {
  }

  lemma FirstDefaultFormats(env: map<string, string>)
    requires "filename" in env
    ensures Format(DefaultTemplates[0], env) == Some(FirstLead + env["filename"])
  {
    DefaultTemplatesShape();
    DefaultPiecesPlain();
    FormatPlain("", env);
    FormatField("filename", "", env);
    assert "{" + "filename" + "}" + "" == "{filename}";
    FormatLiteralPrefix(FirstLead, "{filename}", env);
    assert env["filename"] + "" == env["filename"];
  }

  lemma SecondDefaultFormats(env: map<string, string>)
    requires "filename" in env
    ensures Format(DefaultTemplates[1], env) == Some(SecondLead + env["filename"] + SecondTail)
  {
    DefaultTemplatesShape();
    DefaultPiecesPlain();
    var field := "{filename}" + SecondTail;
    FieldThenTail(env);
    FormatLiteralPrefix(SecondLead, field, env);
    assert SecondLead + "{filename}" + SecondTail == SecondLead + field;
    assert SecondLead + (env["filename"] + SecondTail) == SecondLead + env["filename"] + SecondTail;
  }

  lemma FieldThenTail(env: map<string, string>)
    requires "filename" in env
    ensures Format("{filename}" + SecondTail, env) == Some(env["filename"] + SecondTail)
  {
    DefaultPiecesPlain();
    FormatPlain(SecondTail, env);
    FormatField("filename", SecondTail, env);
    assert "{" + "filename" + "}" + SecondTail == "{filename}" + SecondTail;
  }

  /** With the default templates the template path never fails, and the
      caption carries the image stem. */
  lemma DefaultTemplatesAlwaysFormat(imagePath: string, pick: nat)
    ensures var r := FromTemplate(CaptionConfig(DefaultTemplates, DefaultPrompt, DefaultModel), imagePath, pick);
      r.Ok? && (r.value.text == FirstLead + Stem(PathName(imagePath))
             || r.value.text == SecondLead + Stem(PathName(imagePath)) + SecondTail)
  {
    var env := TemplateEnv(imagePath);
    FirstDefaultFormats(env);
    SecondDefaultFormats(env);
    assert pick % 2 == 0 || pick % 2 == 1;
  }
}
