/** The pure pieces of the web application context (src/main.py): cleaning
    caption templates, resolving the prompt and template files, merging a
    settings update into the override file, reading a boolean environment
    variable and listing the ready folder. Reading a file, `json.loads`
    and `os.getenv` are parameters: a `FileRead` outcome, a `loads`
    function and an optional value. */
module PipelineApp {
  import opened Wrappers
  import opened Text
  import opened Json
  import LegacyImageSource
  import PipelineDatabase

  // ---------------------------------------------------------------------
  // _clean_template_items
  // ---------------------------------------------------------------------

  /** Non-empty strings with no surrounding whitespace. */
  predicate AllStripped(xs: seq<string>) {
    forall k :: 0 <= k < |xs| ==> xs[k] != [] && Strip(xs[k]) == xs[k]
  }

  lemma AllStrippedAppend(a: seq<string>, b: seq<string>)
    requires AllStripped(a) && AllStripped(b)
    ensures AllStripped(a + b)
  {
    assert forall k :: |a| <= k < |a + b| ==> (a + b)[k] == b[k - |a|];
  }

  /** The concatenation of what `keep` keeps of each element, in order:
      the shape of a filtering comprehension or an appending loop. */
  function Collect<T>(xs: seq<T>, keep: T -> seq<string>): seq<string> {
    if xs == [] then [] else Collect(xs[..|xs| - 1], keep) + keep(xs[|xs| - 1])
  }

  /** Collecting works element by element, so the order is kept. */
  lemma {:induction false} CollectAppend<T>(a: seq<T>, b: seq<T>, keep: T -> seq<string>)
    ensures Collect(a + b, keep) == Collect(a, keep) + Collect(b, keep)
    decreases |b|
  {
    if b == [] {
      assert a + b == a;
    } else {
      var b' := b[..|b| - 1];
      CollectAppend(a, b', keep);
      assert (a + b)[..|a + b| - 1] == a + b';
      assert (a + b)[|a + b| - 1] == b[|b| - 1];
    }
  }

  /** Two collections agree when they keep the same of corresponding
      elements. */
  lemma {:induction false} CollectAgree<S, T>(xs: seq<S>, ys: seq<T>, keepX: S -> seq<string>, keepY: T -> seq<string>)
    requires |xs| == |ys| && forall i :: 0 <= i < |xs| ==> keepX(xs[i]) == keepY(ys[i])
    ensures Collect(xs, keepX) == Collect(ys, keepY)
    decreases |xs|
  {
    if xs != [] {
      CollectAgree(xs[..|xs| - 1], ys[..|ys| - 1], keepX, keepY);
    }
  }

  /** A collected string is one some element's `keep` holds. */
  lemma {:induction false} CollectMembers<T>(xs: seq<T>, keep: T -> seq<string>)
    ensures forall t :: t in Collect(xs, keep) <==> exists i :: 0 <= i < |xs| && t in keep(xs[i])
    decreases |xs|
  {
    if xs != [] {
      var init := xs[..|xs| - 1];
      CollectMembers(init, keep);
      assert forall i :: 0 <= i < |init| ==> init[i] == xs[i];
    }
  }

  /** What `_clean_template_items` keeps of one item: `str(item).strip()`
      unless the item is `None` or that text is empty. */
  function Kept(item: Json): (r: seq<string>)
    ensures |r| <= 1
  {
    var text := Strip(PyStr(item));
    if item.JNull? || text == [] then [] else [text]
  }

  /** What `_clean_template_items` keeps of the items, in order. */
  function CleanedItems(values: seq<Json>): seq<string> {
    Collect(values, Kept)
  }

  /** Cleaning works item by item: the cleaned concatenation is the
      concatenation of the cleaned parts, so the order is kept. */
  lemma CleanedItemsAppend(a: seq<Json>, b: seq<Json>)
    ensures CleanedItems(a + b) == CleanedItems(a) + CleanedItems(b)
  {
    CollectAppend(a, b, Kept);
  }

  /** Every kept item is stripped and not empty. */
  lemma {:induction false} CleanedItemsStripped(values: seq<Json>)
    ensures AllStripped(CleanedItems(values))
  {
    if values != [] {
      var last := values[|values| - 1];
      CleanedItemsStripped(values[..|values| - 1]);
      StripIdempotent(PyStr(last));
      AllStrippedAppend(CleanedItems(values[..|values| - 1]), Kept(last));
    }
  }

  /** Every kept item is the stripped text of a non-`None` input item. */
  lemma CleanedItemsSound(values: seq<Json>, t: string)
    requires t in CleanedItems(values)
    ensures exists v :: v in values && !v.JNull? && t == Strip(PyStr(v))
  {
    CollectMembers(values, Kept);
    var i :| 0 <= i < |values| && t in Kept(values[i]);
    var v := values[i];
    assert Kept(v) != [];
    assert !v.JNull? && t == Strip(PyStr(v));
  }

  /** Every non-`None` input item that is not blank is kept. */
  lemma CleanedItemsComplete(values: seq<Json>, i: int)
    requires 0 <= i < |values| && !values[i].JNull? && !Blank(PyStr(values[i]))
    ensures Strip(PyStr(values[i])) in CleanedItems(values)
  {
    CollectMembers(values, Kept);
    assert Kept(values[i]) == [Strip(PyStr(values[i]))];
  }

  /** `_clean_template_items`. */
  method CleanTemplateItems(values: seq<Json>) returns (items: seq<string>)
    ensures items == CleanedItems(values)
  {
    items := [];
    var i := 0;
    while i < |values|
      invariant 0 <= i <= |values|
      invariant items == CleanedItems(values[..i])
    {
      assert values[..i + 1][..i] == values[..i];
      var item := values[i];
      if !item.JNull? {
        var text := Strip(PyStr(item));
        if text != [] {
          items := items + [text];
        }
      }
      i := i + 1;
    }
    assert values[..i] == values;
  }

  /** `[x.strip() for x in xs if x.strip()]`, the comprehension the
      settings update applies to new templates (its extra `item and` test
      changes nothing: the empty string strips to itself) and the template
      file applies to its lines. */
  function StripBlankOut(xs: seq<string>): seq<string> {
    Collect(xs, KeptText)
  }

  /** What the comprehension keeps of one string. */
  function KeptText(x: string): (r: seq<string>)
    ensures |r| <= 1
  {
    if x != [] && Strip(x) != [] then [Strip(x)] else []
  }

  /** The comprehension keeps only stripped, non-empty strings. */
  lemma {:induction false} StripBlankOutStripped(xs: seq<string>)
    ensures AllStripped(StripBlankOut(xs))
  {
    if xs != [] {
      var init := xs[..|xs| - 1];
      var last := xs[|xs| - 1];
      StripBlankOutStripped(init);
      StripIdempotent(last);
      AllStrippedAppend(StripBlankOut(init), KeptText(last));
    }
  }

  /** A string that is not blank leaves something behind. */
  lemma StripBlankOutNonEmpty(xs: seq<string>, i: int)
    requires 0 <= i < |xs| && !Blank(xs[i])
    ensures StripBlankOut(xs) != []
  {
    CollectMembers(xs, KeptText);
    assert xs[i] != [] && Strip(xs[i]) != [];
    assert KeptText(xs[i]) == [Strip(xs[i])];
    assert Strip(xs[i]) in StripBlankOut(xs);
  }

  /** The strings of a list of strings as JSON values. */
  function Strs(xs: seq<string>): (r: seq<Json>)
    ensures |r| == |xs| && forall k :: 0 <= k < |xs| ==> r[k] == JStr(xs[k])
  {
    seq(|xs|, k requires 0 <= k < |xs| => JStr(xs[k]))
  }

  /** On strings the comprehension and `_clean_template_items` agree. */
  lemma StripBlankOutIsCleaning(xs: seq<string>)
    ensures StripBlankOut(xs) == CleanedItems(Strs(xs))
  {
    forall i | 0 <= i < |xs| ensures KeptText(xs[i]) == Kept(Strs(xs)[i]) {
      assert PyStr(Strs(xs)[i]) == xs[i];
    }
    CollectAgree(xs, Strs(xs), KeptText, Kept);
  }

  // ---------------------------------------------------------------------
  // _resolve_prompt_content / _resolve_templates
  // ---------------------------------------------------------------------

  /** The outcome of `path.read_text()`. */
  datatype FileRead = Content(text: string) | NotFound | ReadFailed(error: string)

  /** `str(caption.get("prompt", "") or "").strip()`. */
  function InlinePrompt(caption: Json): (r: string)
    requires caption.JObj?
    ensures Strip(r) == r
  {
    var p := PyStr(Or(Get(caption, "prompt"), JStr("")));
    StripIdempotent(p);
    Strip(p)
  }

  /** `_resolve_prompt_content`, where `file` is what reading the
      configured `prompt_file` gives. */
  function ResolvePromptContent(caption: Json, file: FileRead): (r: string)
    requires caption.JObj?
    ensures Strip(r) == r
    ensures !Truthy(Get(caption, "prompt_file")) ==> r == InlinePrompt(caption)
    ensures !file.Content? || Blank(file.text) ==> r == InlinePrompt(caption)
    ensures r != InlinePrompt(caption) ==> file.Content? && r == Strip(file.text) && r != []
  {
    if !Truthy(Get(caption, "prompt_file")) then InlinePrompt(caption)
    else match file
      case NotFound => InlinePrompt(caption)
      case ReadFailed(_) => InlinePrompt(caption)
      case Content(text) =>
        var stripped := Strip(text);
        StripIdempotent(text);
        if stripped == [] then InlinePrompt(caption) else stripped
  }

  /** `for item in v`: a list yields its items, a string its characters,
      a dict its keys; anything else raises `TypeError`. */
  function Iterated(v: Json): (r: Result<seq<Json>>)
    ensures v.JList? ==> r == Ok(v.items)
    ensures r.Err? <==> !(v.JList? || v.JStr? || v.JObj?)
  {
    match v
    case JList(items) => Ok(items)
    case JStr(s) => Ok(seq(|s|, k requires 0 <= k < |s| => JStr([s[k]])))
    case JObj(fs) => Ok(seq(|fs|, k requires 0 <= k < |fs| => JStr(fs[k].0)))
    case _ => Err("TypeError: object is not iterable")
  }

  /** The inline templates: `_clean_template_items(caption.get("templates", []))`. */
  function InlineTemplates(caption: Json): Result<seq<string>>
    requires caption.JObj?
  {
    match Iterated(GetOr(caption, "templates", JList([])))
    case Err(e) => Err(e)
    case Ok(values) => Ok(CleanedItems(values))
  }

  /** The templates a template file with content `text` supplies, `None`
      where `_resolve_templates` falls back to the inline ones: a JSON list
      gives its cleaned items, other content its non-blank stripped
      lines. */
  function FileTemplates(text: string, loads: string -> Option<Json>): Option<seq<string>> {
    var stripped := Strip(text);
    if stripped == [] then None
    else match loads(stripped)
      case Some(JList(items)) =>
        var cleaned := CleanedItems(items);
        if cleaned != [] then Some(cleaned) else None
      case _ =>
        var lines := StripBlankOut(SplitLines(stripped));
        if lines != [] then Some(lines) else None
  }

  /** `_resolve_templates`, where `file` is what reading the configured
      `templates_file` gives and `loads` is `json.loads` (`None` where it
      raises). */
  function ResolveTemplates(caption: Json, file: FileRead, loads: string -> Option<Json>): (r: Result<seq<string>>)
    requires caption.JObj?
    ensures r.Err? <==> InlineTemplates(caption).Err?
  {
    match InlineTemplates(caption)
    case Err(e) => Err(e)
    case Ok(inline) =>
      if !Truthy(Get(caption, "templates_file")) then Ok(inline)
      else match file
        case NotFound => Ok(inline)
        case ReadFailed(_) => Ok(inline)
        case Content(text) =>
          match FileTemplates(text, loads)
          case None => Ok(inline)
          case Some(templates) => Ok(templates)
  }

  /** No template file, or one that is missing, unreadable or blank,
      gives the inline templates. */
  lemma TemplatesFallBack(caption: Json, file: FileRead, loads: string -> Option<Json>)
    requires caption.JObj? && InlineTemplates(caption).Ok?
    requires !Truthy(Get(caption, "templates_file")) || !file.Content? || Blank(file.text)
    ensures ResolveTemplates(caption, file, loads) == InlineTemplates(caption)
  {
    if Truthy(Get(caption, "templates_file")) && file.Content? {
      assert FileTemplates(file.text, loads) == None;
    }
  }

  /** A template file holding a JSON list gives its cleaned items, or the
      inline templates when no item survives cleaning. */
  lemma TemplatesFromJsonList(caption: Json, text: string, loads: string -> Option<Json>, items: seq<Json>)
    requires caption.JObj? && InlineTemplates(caption).Ok?
    requires Truthy(Get(caption, "templates_file")) && !Blank(text)
    requires loads(Strip(text)) == Some(JList(items))
    ensures ResolveTemplates(caption, Content(text), loads)
            == if CleanedItems(items) != [] then Ok(CleanedItems(items)) else InlineTemplates(caption)
  {
    assert Strip(text) != [];
    assert FileTemplates(text, loads) == if CleanedItems(items) != [] then Some(CleanedItems(items)) else None;
  }

  /** A template file whose content is not a JSON list gives its
      non-blank lines, stripped. */
  lemma TemplatesFromLines(caption: Json, text: string, loads: string -> Option<Json>)
    requires caption.JObj? && InlineTemplates(caption).Ok?
    requires Truthy(Get(caption, "templates_file")) && !Blank(text)
    requires !(loads(Strip(text)).Some? && loads(Strip(text)).value.JList?)
    ensures ResolveTemplates(caption, Content(text), loads) == Ok(StripBlankOut(SplitLines(Strip(text))))
  {
    NonJsonTemplatesNeverFallBack(text, loads);
  }

  /** Content that is not a JSON list always yields at least one line:
      its stripped text starts with a character that is neither a line
      boundary nor whitespace, so the last fallback of `_resolve_templates`
      is never reached. */
  lemma NonJsonTemplatesNeverFallBack(text: string, loads: string -> Option<Json>)
    requires !Blank(text)
    ensures !(loads(Strip(text)).Some? && loads(Strip(text)).value.JList?)
      ==> FileTemplates(text, loads) == Some(StripBlankOut(SplitLines(Strip(text))))
  {
    var stripped := Strip(text);
    assert !IsLineBreak(stripped[0]);
    FirstLine(stripped);
    var first := SplitLines(stripped)[0];
    assert first[0] == stripped[0];
    assert !Blank(first);
    StripBlankOutNonEmpty(SplitLines(stripped), 0);
  }

  /** Whichever source wins, every resolved template is stripped and not
      empty. */
  lemma ResolveTemplatesStripped(caption: Json, file: FileRead, loads: string -> Option<Json>)
    requires caption.JObj?
    ensures ResolveTemplates(caption, file, loads).Ok? ==> AllStripped(ResolveTemplates(caption, file, loads).value)
  {
    InlineTemplatesStripped(caption);
    if file.Content? {
      FileTemplatesStripped(file.text, loads);
    }
  }

  lemma InlineTemplatesStripped(caption: Json)
    requires caption.JObj?
    ensures InlineTemplates(caption).Ok? ==> AllStripped(InlineTemplates(caption).value)
  {
    var inline := GetOr(caption, "templates", JList([]));
    if Iterated(inline).Ok? {
      CleanedItemsStripped(Iterated(inline).value);
    }
  }

  lemma FileTemplatesStripped(text: string, loads: string -> Option<Json>)
    ensures FileTemplates(text, loads).Some? ==> AllStripped(FileTemplates(text, loads).value)
  {
    var stripped := Strip(text);
    if loads(stripped).Some? && loads(stripped).value.JList? {
      CleanedItemsStripped(loads(stripped).value.items);
    } else {
      StripBlankOutStripped(SplitLines(stripped));
    }
  }

  // ---------------------------------------------------------------------
  // Dicts as association lists
  // ---------------------------------------------------------------------

  /** `d.get(k)` with a missing key told apart from a `None` value: the
      first binding of `k`. */
  function At(fs: seq<(string, Json)>, k: string): Option<Json> {
    if fs == [] then None
    else if fs[0].0 == k then Some(fs[0].1)
    else At(fs[1..], k)
  }

  /** `At` and `Get` read a dict the same way. */
  lemma {:induction false} AtIsGet(fs: seq<(string, Json)>, k: string)
    ensures At(fs, k) == if HasKey(fs, k) then Some(Lookup(fs, k)) else None
    ensures Get(JObj(fs), k) == if At(fs, k).Some? then At(fs, k).value else JNull
  {
    if fs != [] {
      AtIsGet(fs[1..], k);
      if fs[0].0 != k {
        assert HasKey(fs, k) <==> HasKey(fs[1..], k) by {
          if HasKey(fs, k) {
            var i :| 0 <= i < |fs| && fs[i].0 == k;
            assert fs[1..][i - 1].0 == k;
          }
          if HasKey(fs[1..], k) {
            var i :| 0 <= i < |fs[1..]| && fs[1..][i].0 == k;
            assert fs[i + 1].0 == k;
          }
        }
      } else {
        assert HasKey(fs, k) by { assert fs[0].0 == k; }
      }
    }
  }

  /** `d[k] = v`: an existing binding is replaced where it stands, a new
      one goes last. */
  function Set(fs: seq<(string, Json)>, k: string, v: Json): seq<(string, Json)> {
    if fs == [] then [(k, v)]
    else if fs[0].0 == k then [(k, v)] + fs[1..]
    else [fs[0]] + Set(fs[1..], k, v)
  }

  /** `d.pop(k, None)`. */
  function Pop(fs: seq<(string, Json)>, k: string): seq<(string, Json)> {
    if fs == [] then []
    else if fs[0].0 == k then Pop(fs[1..], k)
    else [fs[0]] + Pop(fs[1..], k)
  }

  /** The first binding decides `At`. */
  lemma AtCons(f: (string, Json), fs: seq<(string, Json)>, j: string)
    ensures At([f] + fs, j) == if f.0 == j then Some(f.1) else At(fs, j)
  {
    assert ([f] + fs)[0] == f && ([f] + fs)[1..] == fs;
  }

  /** After `d[k] = v`, `k` is bound to `v` and every other key is as it
      was. */
  lemma {:induction false} SetAt(fs: seq<(string, Json)>, k: string, v: Json)
    ensures forall j :: At(Set(fs, k, v), j) == if j == k then Some(v) else At(fs, j)
    decreases |fs|
  {
    forall j ensures At(Set(fs, k, v), j) == if j == k then Some(v) else At(fs, j) {
      if fs == [] {
        AtCons((k, v), [], j);
      } else if fs[0].0 == k {
        AtCons((k, v), fs[1..], j);
      } else {
        SetAt(fs[1..], k, v);
        AtCons(fs[0], Set(fs[1..], k, v), j);
      }
    }
  }

  /** After `d.pop(k, None)`, `k` is missing and every other key is as it
      was. */
  lemma {:induction false} PopAt(fs: seq<(string, Json)>, k: string)
    ensures forall j :: At(Pop(fs, k), j) == if j == k then None else At(fs, j)
    decreases |fs|
  {
    forall j ensures At(Pop(fs, k), j) == if j == k then None else At(fs, j) {
      if fs != [] {
        PopAt(fs[1..], k);
        if fs[0].0 != k {
          AtCons(fs[0], Pop(fs[1..], k), j);
        }
      }
    }
  }

  /** A dict: no key is bound twice. */
  predicate DistinctKeys(fs: seq<(string, Json)>) {
    forall i, j :: 0 <= i < j < |fs| ==> fs[i].0 != fs[j].0
  }

  /** A key `At` finds is bound at some position. */
  lemma {:induction false} AtIndex(fs: seq<(string, Json)>, k: string) returns (i: int)
    requires At(fs, k).Some?
    ensures 0 <= i < |fs| && fs[i] == (k, At(fs, k).value)
  {
    if fs[0].0 == k {
      i := 0;
    } else {
      var i' := AtIndex(fs[1..], k);
      i := i' + 1;
    }
  }

  /** In a dict, each binding is the one `At` finds. */
  lemma {:induction false} AtDistinct(fs: seq<(string, Json)>, i: int)
    requires DistinctKeys(fs) && 0 <= i < |fs|
    ensures At(fs, fs[i].0) == Some(fs[i].1)
    decreases i
  {
    if i > 0 {
      assert fs[0].0 != fs[i].0;
      assert fs[1..][i - 1] == fs[i];
      AtDistinct(fs[1..], i - 1);
    }
  }

  // ---------------------------------------------------------------------
  // apply_settings_update
  // ---------------------------------------------------------------------

  /** How an `ai_pipeline` update value is stored: strings stripped, the
      rest as is. */
  function StoredValue(v: Json): (r: Json)
    ensures v.JStr? ==> r == JStr(Strip(v.s))
    ensures !v.JStr? ==> r == v
  {
    if v.JStr? then JStr(Strip(v.s)) else v
  }

  /** The `ai_pipeline` section after the payload's items are written in
      order. */
  function AiMerged(stored: seq<(string, Json)>, payload: seq<(string, Json)>): seq<(string, Json)> {
    if payload == [] then stored
    else
      var last := payload[|payload| - 1];
      Set(AiMerged(stored, payload[..|payload| - 1]), last.0, StoredValue(last.1))
  }

  /** What a key holds after the update: its stored payload value when
      the payload has it, else what it held. */
  function AfterUpdate(held: Option<Json>, given: Option<Json>): Option<Json> {
    if given.Some? then Some(StoredValue(given.value)) else held
  }

  /** The new `ai_pipeline` section: every payload key holds its stored
      value, every other key what it held before. */
  ghost predicate AiUpdated(stored: seq<(string, Json)>, payload: seq<(string, Json)>, r: seq<(string, Json)>) {
    forall j :: At(r, j) == AfterUpdate(At(stored, j), At(payload, j))
  }

  /** A key of the front part is found there; any other is looked up in
      the back part. */
  lemma {:induction false} AtConcat(a: seq<(string, Json)>, b: seq<(string, Json)>, j: string)
    ensures At(a + b, j) == if At(a, j).Some? then At(a, j) else At(b, j)
  {
    if a == [] {
      assert a + b == b;
    } else {
      AtConcat(a[1..], b, j);
      assert (a + b)[0] == a[0] && (a + b)[1..] == a[1..] + b;
    }
  }

  /** Writing the payload's items one by one performs the update. */
  lemma {:induction false} AiMergedUpdates(stored: seq<(string, Json)>, payload: seq<(string, Json)>)
    requires DistinctKeys(payload)
    ensures AiUpdated(stored, payload, AiMerged(stored, payload))
    decreases |payload|
  {
    if payload != [] {
      var n := |payload| - 1;
      var init := payload[..n];
      var last := payload[n];
      assert payload == init + [last];
      assert DistinctKeys(init);
      AiMergedUpdates(stored, init);
      SetAt(AiMerged(stored, init), last.0, StoredValue(last.1));
      AtDistinct(payload, n);
      forall j ensures At(AiMerged(stored, payload), j) == AfterUpdate(At(stored, j), At(payload, j)) {
        AtConcat(init, [last], j);
        AtCons(last, [], j);
        if At(init, j).Some? {
          var i := AtIndex(init, j);
          assert payload[i] == init[i];
        }
      }
    }
  }

  /** The `for key, value in ai_payload.items()` loop. */
  method MergeAiPayload(stored: seq<(string, Json)>, payload: seq<(string, Json)>) returns (r: seq<(string, Json)>)
    ensures r == AiMerged(stored, payload)
  {
    r := stored;
    var i := 0;
    while i < |payload|
      invariant 0 <= i <= |payload|
      invariant r == AiMerged(stored, payload[..i])
    {
      assert payload[..i + 1][..i] == payload[..i];
      var (key, value) := payload[i];
      if value.JStr? {
        r := Set(r, key, JStr(Strip(value.s)));
      } else {
        r := Set(r, key, value);
      }
      i := i + 1;
    }
    assert payload[..i] == payload;
  }

  /** One field of the caption update: left out, given as `None`, or
      given a value. */
  datatype Field<T> = Absent | Null | Given(value: T)

  /** The `caption` part of a settings update. */
  datatype CaptionUpdate = CaptionUpdate(
    model: Field<string>,
    prompt: Field<string>,
    templates: Field<seq<string>>,
    promptFile: Field<string>,
    templatesFile: Field<string>)

  /** `bool(caption_payload)`: at least one key present. */
  predicate CaptionGiven(p: CaptionUpdate) {
    !p.model.Absent? || !p.prompt.Absent? || !p.templates.Absent? || !p.promptFile.Absent? || !p.templatesFile.Absent?
  }

  /** The templates stored for a templates update: `None` counts as no
      items. */
  function NewTemplates(f: Field<seq<string>>): Json {
    JList(Strs(StripBlankOut(if f.Given? then f.value else [])))
  }

  /** The stored value of a file setting after an update of it: `None`
      or a blank name removes it, anything else is stored stripped. */
  function FileSetting(f: Field<string>, current: Option<Json>): Option<Json> {
    match f
    case Absent => current
    case Null => None
    case Given(name) => if Blank(name) then None else Some(JStr(Strip(name)))
  }

  /** The keys a caption update may touch. */
  const CaptionKeys: set<string> := {"templates", "prompt", "model", "prompt_file", "templates_file"}

  /** The new `caption` section: templates replaced by the cleaned list
      when given, prompt and model stored stripped unless `None`, the file
      settings as `FileSetting` says, and every other key kept. */
  ghost predicate CaptionUpdated(stored: seq<(string, Json)>, p: CaptionUpdate, r: seq<(string, Json)>) {
    && At(r, "templates") == (if p.templates.Absent? then At(stored, "templates") else Some(NewTemplates(p.templates)))
    && At(r, "prompt") == (if p.prompt.Given? then Some(JStr(Strip(p.prompt.value))) else At(stored, "prompt"))
    && At(r, "model") == (if p.model.Given? then Some(JStr(Strip(p.model.value))) else At(stored, "model"))
    && At(r, "prompt_file") == FileSetting(p.promptFile, At(stored, "prompt_file"))
    && At(r, "templates_file") == FileSetting(p.templatesFile, At(stored, "templates_file"))
    && forall j :: j !in CaptionKeys ==> At(r, j) == At(stored, j)
  }

  /** The `if "prompt_file" in caption_payload` block, for either file
      key. */
  method UpdateFileSetting(stored: seq<(string, Json)>, key: string, f: Field<string>) returns (r: seq<(string, Json)>)
    ensures At(r, key) == FileSetting(f, At(stored, key))
    ensures forall j :: j != key ==> At(r, j) == At(stored, j)
  {
    r := stored;
    match f {
      case Absent =>
      case Null =>
        PopAt(r, key);
        r := Pop(r, key);
      case Given(name) =>
        var value := Strip(name);
        if value != [] {
          SetAt(r, key, JStr(value));
          r := Set(r, key, JStr(value));
        } else {
          PopAt(r, key);
          r := Pop(r, key);
        }
    }
  }

  /** The `if "templates" in caption_payload` block. */
  method UpdateTemplates(stored: seq<(string, Json)>, f: Field<seq<string>>) returns (r: seq<(string, Json)>)
    ensures At(r, "templates") == if f.Absent? then At(stored, "templates") else Some(NewTemplates(f))
    ensures forall j :: j != "templates" ==> At(r, j) == At(stored, j)
  {
    r := stored;
    if !f.Absent? {
      var templates := NewTemplates(f);
      SetAt(r, "templates", templates);
      r := Set(r, "templates", templates);
    }
  }

  /** The `prompt` and `model` blocks: a value that is not `None` is
      stored stripped. */
  method UpdateText(stored: seq<(string, Json)>, key: string, f: Field<string>) returns (r: seq<(string, Json)>)
    ensures At(r, key) == if f.Given? then Some(JStr(Strip(f.value))) else At(stored, key)
    ensures forall j :: j != key ==> At(r, j) == At(stored, j)
  {
    r := stored;
    if f.Given? {
      var value := JStr(Strip(f.value));
      SetAt(r, key, value);
      r := Set(r, key, value);
    }
  }

  /** The `if caption_payload:` block on a copy of the stored section. */
  method MergeCaptionPayload(stored: seq<(string, Json)>, p: CaptionUpdate) returns (r: seq<(string, Json)>)
    ensures CaptionUpdated(stored, p, r)
  {
    var r1 := UpdateTemplates(stored, p.templates);
    var r2 := UpdateText(r1, "prompt", p.prompt);
    var r3 := UpdateText(r2, "model", p.model);
    var r4 := UpdateFileSetting(r3, "prompt_file", p.promptFile);
    r := UpdateFileSetting(r4, "templates_file", p.templatesFile);
  }

  /** `existing.get(key, {}).copy()` when that is a dict; `None` where the
      later item assignment raises. */
  function Section(fields: seq<(string, Json)>, key: string): Option<seq<(string, Json)>> {
    match At(fields, key)
    case None => Some([])
    case Some(JObj(fs)) => Some(fs)
    case Some(_) => None
  }

  /** Every key outside `keys` is bound alike in `a` and `b`. */
  ghost predicate SameOutside(a: seq<(string, Json)>, b: seq<(string, Json)>, keys: set<string>) {
    forall j :: j !in keys ==> At(a, j) == At(b, j)
  }

  /** The override dict `after` holds `before`'s `ai_pipeline` section
      updated by `ai`. */
  ghost predicate AiWritten(before: seq<(string, Json)>, after: seq<(string, Json)>, ai: seq<(string, Json)>) {
    && Section(before, "ai_pipeline").Some?
    && At(after, "ai_pipeline").Some? && At(after, "ai_pipeline").value.JObj?
    && AiUpdated(Section(before, "ai_pipeline").value, ai, At(after, "ai_pipeline").value.fields)
  }

  /** The override dict `after` holds `before`'s `caption` section
      updated by `caption`. */
  ghost predicate CaptionWritten(before: seq<(string, Json)>, after: seq<(string, Json)>, caption: CaptionUpdate) {
    && Section(before, "caption").Some?
    && At(after, "caption").Some? && At(after, "caption").value.JObj?
    && CaptionUpdated(Section(before, "caption").value, caption, At(after, "caption").value.fields)
  }

  lemma SameOutsideTrans(a: seq<(string, Json)>, b: seq<(string, Json)>, c: seq<(string, Json)>, k1: string, k2: string)
    requires SameOutside(a, b, {k1}) && SameOutside(b, c, {k2})
    ensures SameOutside(a, c, {k1, k2})
  {
  }

  /** A later write that leaves `ai_pipeline` alone keeps it written. */
  lemma AiWrittenKept(before: seq<(string, Json)>, mid: seq<(string, Json)>, after: seq<(string, Json)>, ai: seq<(string, Json)>)
    requires AiWritten(before, mid, ai) && At(after, "ai_pipeline") == At(mid, "ai_pipeline")
    ensures AiWritten(before, after, ai)
  {
  }

  /** A caption write after an earlier write that left `caption` alone
      reads the original section. */
  lemma CaptionWrittenFrom(before: seq<(string, Json)>, mid: seq<(string, Json)>, after: seq<(string, Json)>, caption: CaptionUpdate)
    requires At(mid, "caption") == At(before, "caption") && CaptionWritten(mid, after, caption)
    ensures CaptionWritten(before, after, caption)
  {
  }

  /** The `if ai_payload:` block on the override dict `fields`. */
  method WriteAiSection(fields: seq<(string, Json)>, ai: seq<(string, Json)>) returns (r: Option<seq<(string, Json)>>)
    requires DistinctKeys(ai)
    ensures r.None? <==> Section(fields, "ai_pipeline").None?
    ensures r.Some? ==> SameOutside(r.value, fields, {"ai_pipeline"}) && AiWritten(fields, r.value, ai)
  {
    var section := Section(fields, "ai_pipeline");
    if section.None? {
      return None;
    }
    var stored := MergeAiPayload(section.value, ai);
    AiMergedUpdates(section.value, ai);
    SetAt(fields, "ai_pipeline", JObj(stored));
    r := Some(Set(fields, "ai_pipeline", JObj(stored)));
  }

  /** The `if caption_payload:` block on the override dict `fields`. */
  method WriteCaptionSection(fields: seq<(string, Json)>, caption: CaptionUpdate) returns (r: Option<seq<(string, Json)>>)
    ensures r.None? <==> Section(fields, "caption").None?
    ensures r.Some? ==> SameOutside(r.value, fields, {"caption"}) && CaptionWritten(fields, r.value, caption)
  {
    var section := Section(fields, "caption");
    if section.None? {
      return None;
    }
    var stored := MergeCaptionPayload(section.value, caption);
    SetAt(fields, "caption", JObj(stored));
    r := Some(Set(fields, "caption", JObj(stored)));
  }

  /** The merge of `apply_settings_update` on the override file's content
      `existing`: the `ai_pipeline` section updated by `ai`, then the
      `caption` section by `caption`, each only when its payload is
      non-empty. A payload with a non-dict to write into raises, and then
      nothing is written. */
  method MergeSettingsUpdate(existing: Json, ai: seq<(string, Json)>, caption: CaptionUpdate) returns (r: Result<Json>)
    requires DistinctKeys(ai)
    ensures ai == [] && !CaptionGiven(caption) ==> r == Ok(existing)
    ensures (ai != [] || CaptionGiven(caption)) && !existing.JObj? ==> r.Err?
    ensures existing.JObj? ==>
      (r.Err? <==> (ai != [] && Section(existing.fields, "ai_pipeline").None?)
                   || (CaptionGiven(caption) && Section(existing.fields, "caption").None?))
    ensures r.Ok? && (ai != [] || CaptionGiven(caption)) ==>
      && existing.JObj? && r.value.JObj?
      && SameOutside(r.value.fields, existing.fields, {"ai_pipeline", "caption"})
      && (if ai == [] then At(r.value.fields, "ai_pipeline") == At(existing.fields, "ai_pipeline")
          else AiWritten(existing.fields, r.value.fields, ai))
      && (if CaptionGiven(caption) then CaptionWritten(existing.fields, r.value.fields, caption)
          else At(r.value.fields, "caption") == At(existing.fields, "caption"))
  {
    if ai == [] && !CaptionGiven(caption) {
      return Ok(existing);
    }
    if !existing.JObj? {
      return Err("AttributeError: the override file does not hold a dict");
    }
    var fields := existing.fields;
    if ai != [] {
      var written := WriteAiSection(fields, ai);
      if written.None? {
        return Err("TypeError: the ai_pipeline section is not a dict");
      }
      fields := written.value;
    }
    ghost var afterAi := fields;
    assert SameOutside(afterAi, existing.fields, {"ai_pipeline"});
    assert At(afterAi, "caption") == At(existing.fields, "caption");
    if CaptionGiven(caption) {
      var written := WriteCaptionSection(fields, caption);
      if written.None? {
        return Err("TypeError: the caption section is not a dict");
      }
      fields := written.value;
      SameOutsideTrans(fields, afterAi, existing.fields, "caption", "ai_pipeline");
      CaptionWrittenFrom(existing.fields, afterAi, fields, caption);
      if ai != [] {
        AiWrittenKept(existing.fields, afterAi, fields, ai);
      }
    } else {
      assert SameOutside(fields, existing.fields, {"ai_pipeline", "caption"});
    }
    return Ok(JObj(fields));
  }

  // ---------------------------------------------------------------------
  // _get_bool_env
  // ---------------------------------------------------------------------

  /** The values `_get_bool_env` reads as true. */
  const TrueWords: set<string> := {"1", "true", "yes", "on"}

  /** `_get_bool_env` given what `os.getenv` returned. */
  function BoolEnv(value: Option<string>, default: bool): bool {
    match value
    case None => default
    case Some(s) => Lower(Strip(s)) in TrueWords
  }

  /** Surrounding whitespace does not change the reading. */
  lemma BoolEnvIgnoresPadding(s: string, default: bool)
    ensures BoolEnv(Some(Strip(s)), default) == BoolEnv(Some(s), default)
  {
    StripIdempotent(s);
    assert Lower(Strip(Strip(s))) == Lower(Strip(s));
  }

  /** Letter case does not change the reading. */
  lemma BoolEnvIgnoresCase(s: string, default: bool)
    ensures BoolEnv(Some(Lower(s)), default) == BoolEnv(Some(s), default)
  {
    LowerStrip(s);
    LowerIdempotent(Strip(s));
    assert Lower(Strip(Lower(s))) == Lower(Strip(s));
  }

  /** The four true spellings read as true in any letter case. */
  lemma BoolEnvWords(s: string, default: bool)
    requires Lower(s) in TrueWords
    ensures BoolEnv(Some(s), default)
  {
    var w := Lower(s);
    assert w != [] && !IsSpace(w[0]) && !IsSpace(w[|w| - 1]);
    StripOfUnpadded(w);
    LowerStrip(s);
    LowerIdempotent(Strip(s));
    assert Lower(Strip(s)) == w;
  }

  // ---------------------------------------------------------------------
  // list_ready_images
  // ---------------------------------------------------------------------

  /** One entry of the listing (size and modification time left out). */
  datatype ReadyItem = ReadyItem(filename: string, path: string, used: bool)

  /** `list_ready_images` on the ready folder `root` with entries
      `entries` (created when missing, so it always exists) and the
      database's posted names. Filtering after `sorted` keeps the same
      images in the same order as sorting the filtered list, which is
      what `ListImages` does. */
  method ListReadyImages(root: string, entries: seq<LegacyImageSource.Entry>, database: PipelineDatabase.Database)
    returns (items: seq<ReadyItem>)
    ensures var listing := LegacyImageSource.ListImages(LegacyImageSource.Directory(root, true, entries));
      && |items| == |listing|
      && forall k :: 0 <= k < |items| ==>
           && items[k].path == listing[k]
           && items[k].filename == PathName(listing[k])
           && (items[k].used <==> items[k].filename in database.PostedImages())
  {
    var listing := LegacyImageSource.ListImages(LegacyImageSource.Directory(root, true, entries));
    var posted := database.PostedImages();
    items := [];
    var i := 0;
    while i < |listing|
      invariant 0 <= i <= |listing|
      invariant |items| == i
      invariant forall k :: 0 <= k < i ==>
        items[k].path == listing[k] && items[k].filename == PathName(listing[k]) && (items[k].used <==> items[k].filename in posted)
    {
      var path := listing[i];
      items := items + [ReadyItem(PathName(path), path, PathName(path) in posted)];
      i := i + 1;
    }
  }
}
