/** The posters of the legacy loop (auto_ai_influencer/poster.py): the
    platform result, the Twitter poster's dry-run switch and error text,
    MIME normalisation, and the Xiaohongshu poster's title, note id and
    access-token cache. Every HTTP exchange is an explicit reply value. */
module LegacyPoster {
  import opened Wrappers
  import opened Text
  import opened Json
  import opened LegacyConfig

  // ---------------------------------------------------------------------
  // PostResult
  // ---------------------------------------------------------------------

  const Twitter := "twitter"
  const Xiaohongshu := "xiaohongshu"

  /** What one platform reports after `post`. */
  datatype PostResult = PostResult(platform: string, postId: Option<string>, text: string, dryRun: bool)
  {
    /** `tweet_id`: the post id of a Twitter result, `None` for any other platform. */
    function TweetId(): (r: Option<string>)
      ensures platform == Twitter ==> r == postId
      ensures platform != Twitter ==> r.None?
    {
      if platform == Twitter then postId else None
    }
  }

  // ---------------------------------------------------------------------
  // TweetPoster
  // ---------------------------------------------------------------------

  /** What a `TweetPoster` keeps after `__init__`; nothing changes it later. */
  datatype TweetPoster = TweetPoster(credentials: TwitterCredentials, dryRun: bool)

  /** `TweetPoster(credentials, dry_run)`: dry-run when asked to be, or
      when the credentials are incomplete. */
  function NewTweetPoster(credentials: TwitterCredentials, dryRun: bool): (p: TweetPoster)
    ensures p.credentials == credentials
    ensures p.dryRun <==> dryRun || !credentials.IsConfigured()
  {
    TweetPoster(credentials, dryRun || !credentials.IsConfigured())
  }

  /** A tweepy exception: its `str()` and the JSON body of its response
      (`None` when it has no response or the body is not JSON). */
  datatype TwitterException = TwitterException(text: string, payload: Option<Json>)

  /** What the upload and `create_tweet` did. */
  datatype TweetOutcome =
    | Created(data: Json)                                // response.data
    | ApiError(forbidden: bool, exc: TwitterException)   // tweepy.errors.Forbidden or another TweepyException
    | Unexpected(message: string)                        // any other exception

  /** The error text of one entry of the `errors` list: "code: message",
      or the message alone; nothing for a non-dict or a message-less entry. */
  function ItemPiece(item: Json): (r: Option<string>)
    ensures r.Some? ==> item.JObj? && Truthy(Or(Get(item, "message"), Get(item, "detail")))
  {
    if !item.JObj? then None
    else
      var code := Or(Get(item, "code"), Get(item, "title"));
      var message := Or(Get(item, "message"), Get(item, "detail"));
      if Truthy(code) && Truthy(message) then Some(PyStr(code) + ": " + PyStr(message))
      else if Truthy(message) then Some(PyStr(message))
      else None
  }

  /** The values `f` gives for `items`, in order, skipping `None`: what a
      loop that appends each present value builds. */
  function Collect<T>(items: seq<T>, f: T -> Option<string>): seq<string> {
    if items == [] then []
    else
      var init := Collect(items[..|items| - 1], f);
      match f(items[|items| - 1])
      case Some(p) => init + [p]
      case None => init
  }

  /** The pieces of a list of error entries, in list order. */
  function Pieces(items: seq<Json>): seq<string> {
    Collect(items, ItemPiece)
  }

  lemma {:induction false} CollectAppend<T>(xs: seq<T>, ys: seq<T>, f: T -> Option<string>)
    ensures Collect(xs + ys, f) == Collect(xs, f) + Collect(ys, f)
    decreases |ys|
  {
    if ys == [] {
      assert xs + ys == xs;
    } else {
      var zs := xs + ys;
      assert zs[..|zs| - 1] == xs + ys[..|ys| - 1];
      assert zs[|zs| - 1] == ys[|ys| - 1];
      CollectAppend(xs, ys[..|ys| - 1], f);
    }
  }

  /** One value per item at most; when every item has one, the values
      are exactly those of the items, in order. */
  lemma {:induction false} CollectInOrder<T>(items: seq<T>, f: T -> Option<string>)
    ensures |Collect(items, f)| <= |items|
    ensures (forall i :: 0 <= i < |items| ==> f(items[i]).Some?) ==>
      Collect(items, f) == seq(|items|, i requires 0 <= i < |items| && f(items[i]).Some? => f(items[i]).value)
  {
    if items != [] {
      var init := items[..|items| - 1];
      CollectInOrder(init, f);
      if forall i :: 0 <= i < |items| ==> f(items[i]).Some? {
        assert forall i :: 0 <= i < |init| ==> init[i] == items[i];
      }
    }
  }

  /** The pieces of the error entries follow the entries: one text per
      entry that has a message, in list order. */
  lemma PiecesInOrder(items: seq<Json>)
    ensures |Pieces(items)| <= |items|
    ensures (forall i :: 0 <= i < |items| ==> ItemPiece(items[i]).Some?) ==>
      Pieces(items) == seq(|items|, i requires 0 <= i < |items| && ItemPiece(items[i]).Some? => ItemPiece(items[i]).value)
    ensures forall ys :: Pieces(items + ys) == Pieces(items) + Pieces(ys)
  {
    CollectInOrder(items, ItemPiece);
    forall ys ensures Pieces(items + ys) == Pieces(items) + Pieces(ys) {
      CollectAppend(items, ys, ItemPiece);
    }
  }

  /** The detail text of `_extract_twitter_error_detail`. */
  function ErrorDetail(exc: TwitterException): string {
    match exc.payload
    case None => exc.text
    case Some(payload) =>
      if !payload.JObj? then exc.text
      else
        var errors := Get(payload, "errors");
        var items := if errors.JList? then errors.items else [];
        var detailText := Get(payload, "detail");
        var details := Pieces(items) + (if Truthy(detailText) then [PyStr(detailText)] else []);
        if details != [] then Join("；", details) else Dumps(payload)
  }

  /** `_extract_twitter_error_detail`: walks the `errors` list collecting
      the pieces, then adds the top-level `detail`. */
  method ExtractTwitterErrorDetail(exc: TwitterException) returns (detail: string)
    ensures detail == ErrorDetail(exc)
  {
    if exc.payload.None? || !exc.payload.value.JObj? {
      return exc.text;
    }
    var payload := exc.payload.value;
    var errors := Get(payload, "errors");
    var details: seq<string> := [];
    if errors.JList? {
      var i := 0;
      while i < |errors.items|
        invariant 0 <= i <= |errors.items|
        invariant details == Collect(errors.items[..i], ItemPiece)
      {
        var item := errors.items[i];
        assert errors.items[..i + 1][..i] == errors.items[..i];
        var piece := ItemPiece(item);
        if piece.Some? {
          details := details + [piece.value];
        }
        i := i + 1;
      }
      assert errors.items[..i] == errors.items;
    }
    assert details == Pieces(if errors.JList? then errors.items else []);
    assert exc.payload == Some(payload);
    ghost var expected := Pieces(if errors.JList? then errors.items else [])
      + (if Truthy(Get(payload, "detail")) then [PyStr(Get(payload, "detail"))] else []);
    assert ErrorDetail(exc) == if expected != [] then Join("；", expected) else Dumps(payload);
    var detailText := Get(payload, "detail");
    if Truthy(detailText) {
      details := details + [PyStr(detailText)];
    }
    assert details == expected;
    if details != [] {
      return Join("；", details);
    }
    return Dumps(payload);
  }

  /** Without a dict body the detail is the exception's text; a dict body
      with no `errors` list and no truthy `detail` reads as its JSON dump. */
  lemma ErrorDetailFallbacks(exc: TwitterException)
    ensures exc.payload.None? || !exc.payload.value.JObj? ==> ErrorDetail(exc) == exc.text
    ensures
      (exc.payload.Some? && exc.payload.value.JObj? && !Get(exc.payload.value, "errors").JList?
       && !Truthy(Get(exc.payload.value, "detail"))) ==> ErrorDetail(exc) == Dumps(exc.payload.value)
  {
    if exc.payload.Some? && exc.payload.value.JObj? && !Get(exc.payload.value, "errors").JList? {
      assert Pieces([]) == [];
    }
  }

  /** A body with one entry holding a code and a message and a top-level
      detail reads "code: message；detail", for any non-empty texts. */
  lemma CodedErrorWithDetail(text: string, code: string, message: string, detail: string)
    requires code != [] && message != [] && detail != []
    ensures var item := JObj([("code", JStr(code)), ("message", JStr(message))]);
      var payload := JObj([("errors", JList([item])), ("detail", JStr(detail))]);
      ErrorDetail(TwitterException(text, Some(payload))) == code + ": " + message + "；" + detail
  {
    var item := JObj([("code", JStr(code)), ("message", JStr(message))]);
    var payload := JObj([("errors", JList([item])), ("detail", JStr(detail))]);
    assert item.fields[0].0 == "code" && item.fields[1].0 == "message";
    assert payload.fields[0].0 == "errors" && payload.fields[1].0 == "detail";
    assert ItemPiece(item) == Some(code + ": " + message);
    assert [item][..0] == [] && [item][0] == item;
    assert Collect([], ItemPiece) == [];
    assert Pieces([item]) == [code + ": " + message];
    assert [code + ": " + message] + [detail] == [code + ": " + message, detail];
    assert Join("；", [code + ": " + message, detail]) == code + ": " + message + "；" + detail;
  }

  const ForbiddenHint := "X API 返回 403 Forbidden，通常表示当前应用或访问令牌缺少写权限或媒体上传权限。请在 X Developer Portal 中确认应用权限已启用 Read 与 Write，并重新生成 Access Token / Secret。"

  /** `TweetPoster.post`: a dry-run poster returns at once with no post id;
      otherwise the outcome of the upload decides. */
  function TweetPost(p: TweetPoster, text: string, outcome: TweetOutcome): (r: Result<PostResult>)
    ensures p.dryRun ==> r == Ok(PostResult(Twitter, None, text, true))
    ensures r.Ok? ==> r.value.platform == Twitter && r.value.text == text && r.value.dryRun == p.dryRun
    ensures !p.dryRun && outcome.Created? && outcome.data.JObj? && outcome.data.fields != [] ==>
      r == Ok(PostResult(Twitter, Some(PyStr(Get(outcome.data, "id"))), text, false))
    ensures !p.dryRun && !outcome.Created? ==> r.Err?
  {
    if p.dryRun then Ok(PostResult(Twitter, None, text, true))
    else
      match outcome
      case Created(data) =>
        if !Truthy(data) then Ok(PostResult(Twitter, None, text, false))
        else if data.JObj? then Ok(PostResult(Twitter, Some(PyStr(Get(data, "id"))), text, false))
        else Err("AttributeError: object has no attribute 'get'")
      case ApiError(forbidden, exc) =>
        if forbidden then Err(ForbiddenHint + " 详细信息：" + ErrorDetail(exc))
        else Err("调用 X API 失败：" + ErrorDetail(exc))
      case Unexpected(message) => Err("发布推文时发生未知错误：" + message)
  }

  // ---------------------------------------------------------------------
  // _normalize_mime_type
  // ---------------------------------------------------------------------

  const AllowedMime: set<string> := {"image/png", "image/jpeg", "image/gif"}
  const MimeAliases: map<string, string> :=
    map["image/x-png" := "image/png", "image/pjpeg" := "image/jpeg", "image/jpg" := "image/jpeg"]

  /** `_normalize_mime_type`: an allowed type (compared lower-case) or the
      allowed type an alias stands for; `None` otherwise. */
  function NormalizeMimeType(mime: Option<string>): (r: Option<string>)
    ensures mime.None? || mime.value == [] ==> r.None?
    ensures r.Some? ==> r.value in AllowedMime
    ensures r.Some? ==> Lower(mime.value) == r.value || (Lower(mime.value) in MimeAliases && MimeAliases[Lower(mime.value)] == r.value)
    ensures mime.Some? && Lower(mime.value) in AllowedMime ==> r == Some(Lower(mime.value))
    ensures mime.Some? && Lower(mime.value) in MimeAliases ==> r == Some(MimeAliases[Lower(mime.value)])
  {
    if mime.None? || mime.value == [] then None
    else
      var normalized := Lower(mime.value);
      if normalized in AllowedMime then Some(normalized)
      else if normalized in MimeAliases && MimeAliases[normalized] in AllowedMime then Some(MimeAliases[normalized])
      else None
  }

  /** Normalising twice changes nothing. */
  lemma NormalizeMimeIdempotent(mime: Option<string>)
    ensures NormalizeMimeType(mime).Some? ==> NormalizeMimeType(NormalizeMimeType(mime)) == NormalizeMimeType(mime)
  {
    var r := NormalizeMimeType(mime);
    if r.Some? {
      LowerOfLower(r.value);
    }
  }

  /** The case of the input does not matter. */
  lemma NormalizeMimeIgnoresCase(s: string)
    ensures NormalizeMimeType(Some(s)) == NormalizeMimeType(Some(Lower(s)))
  {
    LowerIdempotent(s);
  }

  // ---------------------------------------------------------------------
  // XiaohongshuPoster
  // ---------------------------------------------------------------------

  /** The settings of the Xiaohongshu channel the poster reads. */
  datatype XiaohongshuSettings = XiaohongshuSettings(
    enable: bool, isConfigured: bool, titleMaxLength: int, titleTemplate: string)

  /** One HTTP exchange: the request failed, or a reply with its status,
      its text and its JSON body (`None` when the body is not JSON). */
  datatype HttpReply = RequestFailed(message: string) | Reply(status: int, text: string, body: Option<Json>)

  const DefaultSummary := "AI 灵感"

  /** Cutting a line that starts with a non-space to a positive length
      and stripping its end leaves a non-empty prefix within the length. */
  lemma CutLine(line: string, n: int)
    requires line != [] && !IsSpace(line[0]) && n > 0
    ensures var cut := RStrip(PyTake(line, n));
      cut != [] && |cut| <= n && |cut| <= |line| && cut == line[..|cut|]
  {
    var t := PyTake(line, n);
    assert t[0] == line[0];
  }

  /** The summary `_build_title` puts into the template: the first line of
      the stripped text cut to `title_max_length`, or "AI 灵感". */
  function Summary(text: string, maxLength: int): (r: string)
    ensures r != []
    ensures maxLength > 0 ==> |r| <= maxLength
    ensures Blank(text) ==> |r| <= |DefaultSummary| && r == DefaultSummary[..|r|]
    ensures !Blank(text) ==> SplitLines(Strip(text)) != []
    ensures !Blank(text) && maxLength > 0 ==>
      var line := SplitLines(Strip(text))[0];
      |r| <= |line| && r == line[..|r|]
  {
    var stripped := Strip(text);
    if stripped != [] then
      FirstLine(stripped);
      var first := SplitLines(stripped)[0];
      assert first[0] == stripped[0];
      var cut := RStrip(PyTake(first, maxLength));
      if maxLength > 0 then CutLine(first, maxLength); cut
      else if cut == [] then DefaultSummary else cut
    else
      var cut := RStrip(PyTake(DefaultSummary, maxLength));
      if maxLength > 0 then CutLine(DefaultSummary, maxLength); cut
      else if cut == [] then DefaultSummary
      else
        assert PyTake(DefaultSummary, maxLength) == DefaultSummary[..|PyTake(DefaultSummary, maxLength)|];
        cut
  }

  /** `_build_title`: the template formatted with the summary and the text
      (the summary alone when formatting fails), cut to the maximum. */
  function BuildTitle(settings: XiaohongshuSettings, text: string): (r: string)
    ensures settings.titleMaxLength > 0 ==> |r| <= settings.titleMaxLength
  {
    var summary := Summary(text, settings.titleMaxLength);
    var title := match Format(settings.titleTemplate, map["summary" := summary, "text" := text])
      case Some(t) => t
      case None => summary;
    if settings.titleMaxLength > 0 then PyTake(title, settings.titleMaxLength) else title
  }

  lemma FormatSummaryField(env: map<string, string>)
    requires "summary" in env
    ensures Format("{summary}", env) == Some(env["summary"])
  {
    var t := "{summary}";
    assert t[1..] == "summary}";
    assert t[1..][7] == '}';
    assert '}' !in t[1..][..7] by { assert t[1..][..7] == "summary"; }
    assert IndexOf(t[1..], '}') == 7;
    assert t[1..1 + 7] == "summary";
    assert t[7 + 2..] == "";
    assert ParseFormat(t) == PrependPiece(Field("summary"), ParseFormat(""));
    assert ParseFormat("") == Some([]);
    assert [Field("summary")] + [] == [Field("summary")];
    assert [Field("summary")][1..] == [];
    assert Render([Field("summary")], env) == Some(env["summary"] + []);
    assert env["summary"] + [] == env["summary"];
    assert Format(t, env) == Render([Field("summary")], env);
  }

  lemma FormatUnknownField(env: map<string, string>)
    requires "title" !in env
    ensures Format("{title}", env).None?
  {
    var t := "{title}";
    assert t[1..] == "title}";
    assert t[1..][5] == '}';
    assert '}' !in t[1..][..5] by { assert t[1..][..5] == "title"; }
    assert IndexOf(t[1..], '}') == 5;
    assert t[1..1 + 5] == "title";
    assert t[5 + 2..] == "";
    assert ParseFormat(t) == PrependPiece(Field("title"), ParseFormat(""));
  }

  /** A `{summary}` template gives the summary itself; a template naming an
      unknown field falls back to the summary too. */
  lemma TitleFromSummary(settings: XiaohongshuSettings, text: string)
    requires settings.titleTemplate == "{summary}" || settings.titleTemplate == "{title}"
    ensures BuildTitle(settings, text) == Summary(text, settings.titleMaxLength)
  {
    var summary := Summary(text, settings.titleMaxLength);
    var env := map["summary" := summary, "text" := text];
    if settings.titleTemplate == "{summary}" {
      FormatSummaryField(env);
    } else {
      FormatUnknownField(env);
    }
    TitleIsSummary(settings, text);
  }

  /** A template that formats to the summary, or fails to format, gives
      the summary as the title. */
  lemma TitleIsSummary(settings: XiaohongshuSettings, text: string)
    requires var summary := Summary(text, settings.titleMaxLength);
      var f := Format(settings.titleTemplate, map["summary" := summary, "text" := text]);
      f.None? || f == Some(summary)
    ensures BuildTitle(settings, text) == Summary(text, settings.titleMaxLength)
  {
    var summary := Summary(text, settings.titleMaxLength);
    assert settings.titleMaxLength > 0 ==> PyTake(summary, settings.titleMaxLength) == summary;
  }

  /** A blank text with room for the whole default gives "AI 灵感". */
  lemma BlankTextTitle(settings: XiaohongshuSettings, text: string)
    requires Blank(text) && settings.titleTemplate == "{summary}"
    requires settings.titleMaxLength >= |DefaultSummary|
    ensures BuildTitle(settings, text) == DefaultSummary
  {
    TitleFromSummary(settings, text);
    StripBlank(text);
  }

  lemma StripBlank(text: string)
    requires Blank(text)
    ensures Strip(text) == []
  {
  }

  /** `_extract_note_id` over the remaining keys. */
  function NoteIdFrom(data: Json, keys: seq<string>): (r: Option<string>)
    requires data.JObj?
    ensures r.Some? <==> exists i :: 0 <= i < |keys| && NoteIdAt(data, keys[i]).Some?
    ensures r.Some? ==> exists i :: FirstHit(data, keys, i, r)
  {
    if keys == [] then None
    else
      var here := NoteIdAt(data, keys[0]);
      var rest := NoteIdFrom(data, keys[1..]);
      assert forall i :: 0 < i < |keys| ==> keys[i] == keys[1..][i - 1];
      if here.Some? then
        assert FirstHit(data, keys, 0, here);
        here
      else
        assert rest.Some? ==> exists i :: FirstHit(data, keys, i, rest) by {
          if rest.Some? {
            var i :| FirstHit(data, keys[1..], i, rest);
            assert FirstHit(data, keys, i + 1, rest);
          }
        }
        rest
  }

  /** Key `i` is the first of `keys` that gives a note id, and it gives `r`. */
  predicate FirstHit(data: Json, keys: seq<string>, i: int, r: Option<string>)
    requires data.JObj?
  {
    0 <= i < |keys| && NoteIdAt(data, keys[i]) == r && forall j :: 0 <= j < i ==> NoteIdAt(data, keys[j]).None?
  }

  /** What one key contributes: the nested `note_id or id` of a dict, the
      `str()` of a truthy scalar, nothing for a missing key or a falsy value. */
  function NoteIdAt(data: Json, key: string): Option<string>
    requires data.JObj?
  {
    if !HasKey(data.fields, key) then None
    else
      var value := Lookup(data.fields, key);
      if value.JObj? then
        var noteId := Or(Get(value, "note_id"), Get(value, "id"));
        if Truthy(noteId) then Some(PyStr(noteId)) else None
      else if Truthy(value) then Some(PyStr(value))
      else None
  }

  const NoteIdKeys := ["note_id", "id", "data"]

  /** `_extract_note_id`: "note_id", "id" and "data" in that order. */
  function ExtractNoteId(data: Json): (r: Option<string>)
    requires data.JObj?
    ensures !HasKey(data.fields, "note_id") && !HasKey(data.fields, "id") && !HasKey(data.fields, "data") ==> r.None?
    ensures HasKey(data.fields, "note_id") && Lookup(data.fields, "note_id").JStr? && Lookup(data.fields, "note_id").s != [] ==>
      r == Some(Lookup(data.fields, "note_id").s)
  {
    NoteIdFrom(data, NoteIdKeys)
  }

  /** A dict under "data" is searched for its own id only after the
      top-level keys; a dict without one falls through to the next key. */
  lemma NoteIdOrder(data: Json)
    requires data.JObj?
    ensures NoteIdAt(data, "note_id").Some? ==> ExtractNoteId(data) == NoteIdAt(data, "note_id")
    ensures NoteIdAt(data, "note_id").None? && NoteIdAt(data, "id").Some? ==> ExtractNoteId(data) == NoteIdAt(data, "id")
    ensures ExtractNoteId(data).None? <==>
      NoteIdAt(data, "note_id").None? && NoteIdAt(data, "id").None? && NoteIdAt(data, "data").None?
  {
    assert NoteIdKeys[1..] == ["id", "data"];
    assert NoteIdKeys[1..][1..] == ["data"];
    assert ["data"][1..] == [];
    var last := NoteIdFrom(data, ["data"]);
    assert last == NoteIdAt(data, "data");
    var second := NoteIdFrom(data, ["id", "data"]);
    assert second == if NoteIdAt(data, "id").Some? then NoteIdAt(data, "id") else last;
    assert ExtractNoteId(data) == if NoteIdAt(data, "note_id").Some? then NoteIdAt(data, "note_id") else second;
  }

  /** `_safe_extract_error`: the body's `error_description or message`,
      else the reply text. */
  function SafeExtractError(text: string, body: Option<Json>): (r: string)
    ensures body.None? || !body.value.JObj? ==> r == text
    ensures body.Some? && body.value.JObj? && Get(body.value, "error_description").JStr? && Get(body.value, "error_description").s != [] ==>
      r == Get(body.value, "error_description").s
    ensures body.Some? && body.value.JObj? && !Truthy(Get(body.value, "error_description")) && !Truthy(Get(body.value, "message")) ==>
      r == text
  {
    if body.Some? && body.value.JObj? then
      var message := Or(Get(body.value, "error_description"), Get(body.value, "message"));
      if Truthy(message) then PyStr(message) else text
    else text
  }

  /** `_safe_json`: the body when it is a JSON object. */
  function SafeJson(body: Option<Json>): (r: Result<Json>)
    ensures r.Ok? ==> r.value.JObj?
  {
    if body.None? then Err("解析小红书响应失败")
    else if !body.value.JObj? then Err("小红书响应格式异常，期望为对象。")
    else Ok(body.value)
  }

  /** The token and `expires_in` of a token reply, or the error it raises. */
  function TokenGrant(reply: HttpReply): (r: Result<(Json, int)>)
    ensures r.Ok? ==> Truthy(r.value.0)
  {
    match reply
    case RequestFailed(message) => Err("获取小红书访问令牌失败：" + message)
    case Reply(status, text, body) =>
      if status >= 400 then
        Err("获取小红书访问令牌失败：HTTP " + IntToString(status) + " - " + SafeExtractError(text, body))
      else
        var data :- SafeJson(body);
        var token := Get(data, "access_token");
        var expiresIn :- PyInt(GetOr(data, "expires_in", JInt(3600)));
        if !Truthy(token) then Err("令牌响应中缺少 access_token 字段。")
        else Ok((token, expiresIn))
  }

  /** `max(expires_in - 30, 60)`. */
  function Lifetime(expiresIn: int): (r: int)
    ensures r >= 60 && r >= expiresIn - 30
    ensures r == 60 || r == expiresIn - 30
  {
    if expiresIn - 30 > 60 then expiresIn - 30 else 60
  }

  /** The cache test of `_ensure_access_token`. */
  predicate CacheValid(token: Json, expireAt: real, now: real) {
    Truthy(token) && now < expireAt - 30.0
  }

  /** A token just fetched stays valid for the next thirty seconds at least. */
  lemma FreshTokenIsCached(token: Json, now: real, expiresIn: int, later: real)
    requires Truthy(token) && now <= later < now + 30.0
    ensures CacheValid(token, now + Lifetime(expiresIn) as real, later)
  {
  }

  /** The publish reply turned into the note id, or the error it raises. */
  function PublishOutcome(reply: HttpReply): (r: Result<Option<string>>)
    ensures r.Ok? <==> reply.Reply? && reply.status < 400 && reply.body.Some? && reply.body.value.JObj?
    ensures r.Ok? ==> r.value == ExtractNoteId(reply.body.value)
  {
    match reply
    case RequestFailed(message) => Err("调用小红书 MCP 接口失败：" + message)
    case Reply(status, text, body) =>
      if status >= 400 then
        Err("小红书 MCP 返回错误：HTTP " + IntToString(status) + " - " + SafeExtractError(text, body))
      else
        var data :- SafeJson(body);
        Ok(ExtractNoteId(data))
  }

  /** `XiaohongshuPoster`: the channel settings, the dry-run switch and the
      cached access token with its expiry time. */
  class XiaohongshuPoster {
    const settings: XiaohongshuSettings
    const dryRun: bool
    var accessToken: Json
    var expireAt: real

    /** A disabled or incomplete channel is dry-run; no token is cached. */
    constructor (settings: XiaohongshuSettings, dryRun: bool)
      ensures this.settings == settings
      ensures this.dryRun <==> dryRun || !settings.isConfigured || !settings.enable
      ensures accessToken == JNull && expireAt == 0.0
    {
      this.settings := settings;
      this.dryRun := dryRun || !settings.isConfigured || !settings.enable;
      accessToken := JNull;
      expireAt := 0.0;
    }

    /** `_ensure_access_token` at time `now`, with the reply the token
        endpoint would give: a valid cached token is returned with no
        request; otherwise a granted token replaces the cache, and a
        failed request leaves the cache as it was. */
    method EnsureAccessToken(now: real, reply: HttpReply) returns (r: Result<Json>)
      modifies this
      ensures CacheValid(old(accessToken), old(expireAt), now) ==>
        r == Ok(old(accessToken)) && accessToken == old(accessToken) && expireAt == old(expireAt)
      ensures !CacheValid(old(accessToken), old(expireAt), now) && TokenGrant(reply).Ok? ==>
        var grant := TokenGrant(reply).value;
        r == Ok(grant.0) && accessToken == grant.0 && expireAt == now + Lifetime(grant.1) as real
      ensures !CacheValid(old(accessToken), old(expireAt), now) && TokenGrant(reply).Err? ==>
        r.Err? && accessToken == old(accessToken) && expireAt == old(expireAt)
    {
      if Truthy(accessToken) && now < expireAt - 30.0 {
        return Ok(accessToken);
      }
      var grant := TokenGrant(reply);
      if grant.Err? {
        return Err(grant.error);
      }
      accessToken := grant.value.0;
      expireAt := now + Lifetime(grant.value.1) as real;
      return Ok(grant.value.0);
    }

    /** `post`: a dry-run poster returns at once; otherwise the token is
        ensured and the publish reply gives the note id. */
    method Post(text: string, now: real, tokenReply: HttpReply, publishReply: HttpReply)
      returns (r: Result<PostResult>)
      modifies this
      ensures dryRun ==> r == Ok(PostResult(Xiaohongshu, None, text, true))
      ensures dryRun ==> accessToken == old(accessToken) && expireAt == old(expireAt)
      ensures !dryRun ==>
        var tokenOk := CacheValid(old(accessToken), old(expireAt), now) || TokenGrant(tokenReply).Ok?;
        (r.Ok? <==> tokenOk && PublishOutcome(publishReply).Ok?)
        && (r.Ok? ==> r.value == PostResult(Xiaohongshu, PublishOutcome(publishReply).value, text, false))
      ensures !dryRun && CacheValid(old(accessToken), old(expireAt), now) ==>
        accessToken == old(accessToken) && expireAt == old(expireAt)
      ensures !dryRun && !CacheValid(old(accessToken), old(expireAt), now) && TokenGrant(tokenReply).Ok? ==>
        accessToken == TokenGrant(tokenReply).value.0 && expireAt == now + Lifetime(TokenGrant(tokenReply).value.1) as real
      ensures !dryRun && !CacheValid(old(accessToken), old(expireAt), now) && TokenGrant(tokenReply).Err? ==>
        accessToken == old(accessToken) && expireAt == old(expireAt)
    {
      if dryRun {
        return Ok(PostResult(Xiaohongshu, None, text, true));
      }
      var token := EnsureAccessToken(now, tokenReply);
      if token.Err? {
        return Err(token.error);
      }
      var published := PublishOutcome(publishReply);
      if published.Err? {
        return Err(published.error);
      }
      return Ok(PostResult(Xiaohongshu, published.value, text, false));
    }
  }
}
