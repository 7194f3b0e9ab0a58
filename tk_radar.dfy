/** The search-based anchor discovery of tkRadar
    (opt/murray/data/tkRadar/services.py): pulling the result list out of
    a TikHub search response, reading a live anchor out of one result,
    and one discovery round that walks the configured keywords, skips ids
    already seen this round or already stored, and commits new anchors up
    to a per-round cap. The TikHub client and the commit's outcome are
    oracle parameters; the database session is the sequence of stored
    `anchors` rows. */
module TkRadar {
  import opened Wrappers
  import opened Json

  // ---------------------------------------------------------------------
  // Configuration
  // ---------------------------------------------------------------------

  /** The `DISCOVERY_SEARCH_*` settings. */
  datatype Config = Config(
    enabled: bool,
    keywords: seq<string>,
    maxResultsPerKeyword: int,
    maxNewPerRound: int,
    logSample: int)

  /** The module's default settings. */
  const Defaults := Config(true, ["PK", "1v1", "vs", "batalla", "duelo", "x1"], 20, 30, 5)

  // ---------------------------------------------------------------------
  // _extract_search_items
  // ---------------------------------------------------------------------

  /** The response fields that may hold the result list, in the order
      they are tried. */
  const SearchKeys: seq<string> := ["data", "list", "items", "results", "aweme_list"]

  /** The value of the first of `keys` whose value in the dict is a list. */
  function FirstList(v: Json, keys: seq<string>): (r: Option<seq<Json>>)
    requires v.JObj?
    ensures r.None? <==> forall i :: 0 <= i < |keys| ==> !Get(v, keys[i]).JList?
    ensures r.Some? ==>
      exists i :: 0 <= i < |keys| && Get(v, keys[i]) == JList(r.value) &&
        (forall j :: 0 <= j < i ==> !Get(v, keys[j]).JList?)
  {
    if keys == [] then None
    else if Get(v, keys[0]).JList? then Some(Get(v, keys[0]).items)
    else
      var rest := FirstList(v, keys[1..]);
      assert forall i :: 0 < i < |keys| ==> keys[i] == keys[1..][i - 1];
      if rest.Some? then
        var i :| 0 <= i < |keys[1..]| && Get(v, keys[1..][i]) == JList(rest.value) &&
          forall j :: 0 <= j < i ==> !Get(v, keys[1..][j]).JList?;
        assert Get(v, keys[i + 1]) == JList(rest.value);
        rest
      else rest
  }

  /** `_extract_search_items(payload)`: nothing for an empty payload; for
      a dict, the list under the first of `SearchKeys` that holds one;
      a list payload is itself the result list; anything else gives
      nothing. */
  function ExtractSearchItems(payload: Json): (r: seq<Json>)
    ensures !Truthy(payload) ==> r == []
    ensures payload.JList? ==> r == payload.items
    ensures payload.JObj? && FirstList(payload, SearchKeys).None? ==> r == []
    ensures payload.JObj? && FirstList(payload, SearchKeys).Some? ==> r == FirstList(payload, SearchKeys).value
    ensures !payload.JList? && !payload.JObj? ==> r == []
  {
    if !Truthy(payload) then []
    else if payload.JObj? then
      var found := FirstList(payload, SearchKeys);
      if found.Some? then found.value else []
    else if payload.JList? then payload.items
    else []
  }

  /** A list under `data` wins over every other field. */
  lemma DataFieldWins(payload: Json)
    requires payload.JObj? && Get(payload, "data").JList?
    ensures ExtractSearchItems(payload) == Get(payload, "data").items
  {
    assert SearchKeys[0] == "data";
  }

  /** The result list is always one the response itself holds: the
      response, or the value of one of `SearchKeys`, or empty. */
  lemma ExtractedListIsInResponse(payload: Json)
    ensures var r := ExtractSearchItems(payload);
      r == [] || (payload.JList? && r == payload.items) ||
      (payload.JObj? && exists i :: 0 <= i < |SearchKeys| && Get(payload, SearchKeys[i]) == JList(r))
  {
  }

  // ---------------------------------------------------------------------
  // _parse_anchor_from_item
  // ---------------------------------------------------------------------

  const UserKeys: seq<string> := ["user", "author", "user_info"]
  const IdKeys: seq<string> := ["unique_id", "uid", "sec_uid"]
  const NicknameKeys: seq<string> := ["nickname", "nick_name"]
  const CountryKeys: seq<string> := ["country", "region", "locale", "language"]
  const LiveRoomKeys: seq<string> := ["live_room", "live", "room"]
  const RoomIdKeys: seq<string> := ["room_id", "live_room_id", "roomid"]
  const RoomUrlKeys: seq<string> := ["live_room_url", "share_url", "room_url"]

  /** The attributes of a discovered anchor. */
  datatype Attrs = Attrs(
    nickname: Json,
    country: Json,
    status: string,
    source: string,
    liveRoomId: Json,
    liveRoomUrl: Json)

  /** The user record of a result: the first truthy of its `user`,
      `author` and `user_info` fields, else the result itself. */
  function UserOf(item: Json): Json
    requires item.JObj?
  {
    Or(FirstTruthy(item, UserKeys), item)
  }

  /** The live-room record of a result; Python's conditional expression
      binds loosest, so it is `None` whenever the user record is not a
      dict. */
  function LiveRoomOf(item: Json): Json
    requires item.JObj?
  {
    var user := UserOf(item);
    if user.JObj? then Or(FirstTruthy(item, LiveRoomKeys), Get(user, "room")) else JNull
  }

  /** `v in (1, True)`: Python's `True == 1`, so both spellings count. */
  predicate IsOne(v: Json) {
    v == JInt(1) || v == JBool(true)
  }

  /** Whether a result is live by any of its signals: a truthy `is_live`,
      a `live_status` of 1, or a live-room record whose `status` is 1 or
      "live". */
  predicate IsLive(item: Json)
    requires item.JObj?
  {
    Truthy(Get(item, "is_live")) || IsOne(Get(item, "live_status")) ||
    (LiveRoomOf(item).JObj? && (IsOne(Get(LiveRoomOf(item), "status")) || Get(LiveRoomOf(item), "status") == JStr("live")))
  }

  /** `_parse_anchor_from_item(item)`: the anchor's id and attributes, or
      `None` when the result is not a dict, its user record carries no
      truthy `unique_id`/`uid`/`sec_uid`, or nothing says it is live. */
  function ParseAnchor(item: Json): (r: Option<(Json, Attrs)>)
    ensures !item.JObj? ==> r.None?
    ensures r.Some? <==>
      item.JObj? && UserOf(item).JObj? &&
      (exists i :: 0 <= i < |IdKeys| && Truthy(Get(UserOf(item), IdKeys[i]))) && IsLive(item)
    ensures r.Some? ==>
      Truthy(r.value.0) && exists i :: 0 <= i < |IdKeys| && r.value.0 == Get(UserOf(item), IdKeys[i])
    ensures r.Some? ==> r.value.1.status == "clue" && r.value.1.source == "search_discovery"
  {
    if !item.JObj? then None
    else
      var user := UserOf(item);
      var liveRoom := LiveRoomOf(item);
      var uniqueId := if user.JObj? then FirstTruthy(user, IdKeys) else JNull;
      var nickname := if user.JObj? then FirstTruthy(user, NicknameKeys) else JNull;
      var country := if user.JObj? then FirstTruthy(user, CountryKeys) else JNull;
      if !Truthy(uniqueId) then None
      else
        var itemLive := Truthy(Get(item, "is_live")) || IsOne(Get(item, "live_status"));
        var itemRoomId := FirstTruthy(item, RoomIdKeys);
        var itemUrl := FirstTruthy(item, RoomUrlKeys);
        var isLive := if liveRoom.JObj? then
            itemLive || IsOne(Get(liveRoom, "status")) || Get(liveRoom, "status") == JStr("live")
          else itemLive;
        var roomId := if liveRoom.JObj? then Or(itemRoomId, FirstTruthy(liveRoom, ["room_id", "id"])) else itemRoomId;
        var url := if liveRoom.JObj? then Or(itemUrl, FirstTruthy(liveRoom, ["share_url", "url"])) else itemUrl;
        if !isLive then None
        else Some((uniqueId, Attrs(nickname, country, "clue", "search_discovery", roomId, url)))
  }

  /** A truthy `unique_id` is the id even when `uid` or `sec_uid` is set. */
  lemma UniqueIdPreferred(item: Json)
    requires item.JObj? && UserOf(item).JObj? && Truthy(Get(UserOf(item), "unique_id"))
    requires ParseAnchor(item).Some?
    ensures ParseAnchor(item).value.0 == Get(UserOf(item), "unique_id")
  {
  }

  // ---------------------------------------------------------------------
  // The anchors table
  // ---------------------------------------------------------------------

  /** One `anchors` row as the scan writes it. */
  datatype AnchorRow = AnchorRow(
    uniqueId: Json,
    nickname: Json,
    country: Json,
    status: string,
    source: string,
    liveRoomId: Json)

  /** The row built from a parsed anchor. */
  function RowOf(id: Json, attrs: Attrs): (row: AnchorRow)
    ensures row.uniqueId == id && row.status == attrs.status && row.source == attrs.source
  {
    AnchorRow(id, attrs.nickname, attrs.country, attrs.status, attrs.source, attrs.liveRoomId)
  }

  function IdsOf(rows: seq<AnchorRow>): (r: seq<Json>)
    ensures |r| == |rows| && forall i :: 0 <= i < |rows| ==> r[i] == rows[i].uniqueId
  {
    seq(|rows|, i requires 0 <= i < |rows| => rows[i].uniqueId)
  }

  lemma IdsOfAppend(a: seq<AnchorRow>, b: seq<AnchorRow>)
    ensures IdsOf(a + b) == IdsOf(a) + IdsOf(b)
  {
    assert forall i :: 0 <= i < |a + b| ==> IdsOf(a + b)[i] == (IdsOf(a) + IdsOf(b))[i];
  }

  /** The database session: the committed `anchors` rows. */
  class Session {
    var anchors: seq<AnchorRow>

    constructor (rows: seq<AnchorRow>)
      ensures anchors == rows
    {
      anchors := rows;
    }

    /** `session.query(Anchor).filter(Anchor.unique_id == id).first()`
        is truthy. */
    function Has(id: Json): (r: bool)
      reads this
      ensures r <==> exists i :: 0 <= i < |anchors| && anchors[i].uniqueId == id
    {
      id in IdsOf(anchors)
    }

    /** `session.add(row)` then `session.commit()`; when the database
        refuses the commit (`fails`) the session is rolled back and the
        table is as before. */
    method AddAndCommit(row: AnchorRow, fails: bool) returns (committed: bool)
      modifies this
      ensures committed <==> !fails
      ensures anchors == if fails then old(anchors) else old(anchors) + [row]
    {
      if fails {
        committed := false;
      } else {
        anchors := anchors + [row];
        committed := true;
      }
    }
  }


  // ---------------------------------------------------------------------
  // The discovery round, as a function
  // ---------------------------------------------------------------------

  /** The round's running state: the source's counters, the ids seen, the
      log samples, plus the keywords searched and the rows committed. */
  datatype ScanState = ScanState(
    newCount: int,
    existed: int,
    apiErrors: int,
    seen: set<Json>,
    samples: seq<Json>,
    calls: seq<string>,
    added: seq<AnchorRow>)

  const Start := ScanState(0, 0, 0, {}, [], [], [])

  /** The parse of every result of a search, in order. */
  function ParseAll(items: seq<Json>): (r: seq<Option<(Json, Attrs)>>)
    ensures |r| == |items|
  {
    if items == [] then [] else [ParseAnchor(items[0])] + ParseAll(items[1..])
  }

  lemma {:induction false} ParseAllAt(items: seq<Json>, i: int)
    requires 0 <= i < |items|
    ensures ParseAll(items)[i] == ParseAnchor(items[i])
    decreases |items|
  {
    if i > 0 {
      ParseAllAt(items[1..], i - 1);
    }
  }

  /** One parsed search result, against the table `stored + s.added`;
      nothing happens once the cap is reached, which is what the inner
      `break` amounts to. */
  function ItemStep(cfg: Config, stored: seq<AnchorRow>, commitFails: Json -> bool, s: ScanState,
                    parsed: Option<(Json, Attrs)>): ScanState {
    if s.newCount >= cfg.maxNewPerRound || parsed.None? then s
    else
      var (id, attrs) := parsed.value;
      if id in s.seen then s
      else if id in IdsOf(stored + s.added) then s.(seen := s.seen + {id}, existed := s.existed + 1)
      else if commitFails(id) then s.(seen := s.seen + {id})
      else
        s.(seen := s.seen + {id}, added := s.added + [RowOf(id, attrs)], newCount := s.newCount + 1,
           samples := if |s.samples| < cfg.logSample then s.samples + [id] else s.samples)
  }

  function ItemsRun(cfg: Config, stored: seq<AnchorRow>, commitFails: Json -> bool, s: ScanState,
                    parsed: seq<Option<(Json, Attrs)>>): ScanState
    decreases |parsed|
  {
    if parsed == [] then s
    else ItemsRun(cfg, stored, commitFails, ItemStep(cfg, stored, commitFails, s, parsed[0]), parsed[1..])
  }

  /** One keyword: no search once the cap is reached; a search that
      raises counts an API error; otherwise its results in turn. */
  function KeywordStep(cfg: Config, stored: seq<AnchorRow>, fetch: (string, int) -> Option<Json>,
                       commitFails: Json -> bool, s: ScanState, keyword: string): ScanState {
    if s.newCount >= cfg.maxNewPerRound then s
    else
      var called := s.(calls := s.calls + [keyword]);
      match fetch(keyword, cfg.maxResultsPerKeyword)
      case None => called.(apiErrors := called.apiErrors + 1)
      case Some(response) => ItemsRun(cfg, stored, commitFails, called, ParseAll(ExtractSearchItems(response)))
  }

  function KeywordsRun(cfg: Config, stored: seq<AnchorRow>, fetch: (string, int) -> Option<Json>,
                       commitFails: Json -> bool, s: ScanState, keywords: seq<string>): ScanState
    decreases |keywords|
  {
    if keywords == [] then s
    else KeywordsRun(cfg, stored, fetch, commitFails, KeywordStep(cfg, stored, fetch, commitFails, s, keywords[0]), keywords[1..])
  }

  /** The whole round over a table holding `stored`: nothing at all when
      the feature is off or there are no keywords. */
  function Discovery(cfg: Config, stored: seq<AnchorRow>, fetch: (string, int) -> Option<Json>,
                     commitFails: Json -> bool): (r: ScanState)
    ensures !cfg.enabled || cfg.keywords == [] ==> r.calls == [] && r.added == [] && r.newCount == 0 && r.apiErrors == 0
  {
    if !cfg.enabled || cfg.keywords == [] then Start
    else KeywordsRun(cfg, stored, fetch, commitFails, Start, cfg.keywords)
  }

  /** What the round logs. */
  datatype Report =
    | Disabled
    | NoKeywords
    | RoundDone(keywords: nat, newAnchors: int, existed: int, apiErrors: int, samples: seq<Json>)

  function ReportOf(cfg: Config, s: ScanState): Report {
    if !cfg.enabled then Disabled
    else if cfg.keywords == [] then NoKeywords
    else RoundDone(|cfg.keywords|, s.newCount, s.existed, s.apiErrors, s.samples)
  }

  // ---------------------------------------------------------------------
  // What a round guarantees
  // ---------------------------------------------------------------------

  function Min(a: int, b: int): int { if a < b then a else b }
  function Max(a: int, b: int): int { if a < b then b else a }

  predicate Distinct(xs: seq<Json>) {
    forall i, j :: 0 <= i < j < |xs| ==> xs[i] != xs[j]
  }

  lemma DistinctAppend(xs: seq<Json>, x: Json)
    requires Distinct(xs) && x !in xs
    ensures Distinct(xs + [x])
  {
  }

  /** The first at most `cap` of `ids`; a negative cap keeps none. */
  function FirstAtMost(ids: seq<Json>, cap: int): (r: seq<Json>)
    ensures |r| <= |ids| && (cap >= 0 ==> |r| <= cap)
    ensures r <= ids
  {
    ids[..Min(|ids|, Max(0, cap))]
  }

  /** Appending to the samples while they are shorter than the cap keeps
      them the first ids. */
  lemma FirstAtMostAppend(ids: seq<Json>, samples: seq<Json>, x: Json, cap: int)
    requires samples == FirstAtMost(ids, cap)
    ensures (if |samples| < cap then samples + [x] else samples) == FirstAtMost(ids + [x], cap)
  {
    if |samples| < cap {
      assert (ids + [x])[..|ids| + 1] == ids + [x];
    } else {
      assert (ids + [x])[..Max(0, cap)] == ids[..Max(0, cap)];
    }
  }

  /** The ids stored before the round. */
  function StoredIds(stored: seq<AnchorRow>): set<Json> {
    set x | x in IdsOf(stored)
  }

  /** Seeing a new id adds one to the stored ids seen exactly when it is
      a stored one. */
  lemma SeenGrows(seen: set<Json>, olds: set<Json>, id: Json)
    requires id !in seen
    ensures id in olds ==> |(seen + {id}) * olds| == |seen * olds| + 1
    ensures id !in olds ==> (seen + {id}) * olds == seen * olds
  {
    if id in olds {
      assert (seen + {id}) * olds == (seen * olds) + {id};
    }
  }

  /** The number of `calls` whose search raised. */
  function CountFailed(fetch: (string, int) -> Option<Json>, count: int, calls: seq<string>): (r: nat)
    ensures r <= |calls|
  {
    if calls == [] then 0
    else (if fetch(calls[0], count).None? then 1 else 0) + CountFailed(fetch, count, calls[1..])
  }

  lemma CountFailedAppend(fetch: (string, int) -> Option<Json>, count: int, calls: seq<string>, k: string)
    ensures CountFailed(fetch, count, calls + [k]) ==
      CountFailed(fetch, count, calls) + (if fetch(k, count).None? then 1 else 0)
  {
    if calls != [] {
      assert (calls + [k])[1..] == calls[1..] + [k];
      CountFailedAppend(fetch, count, calls[1..], k);
    }
  }

  /** Every committed row was seen this round, was not stored before, was
      committed without error, and is a search-discovered clue. */
  ghost predicate AddedRowsOk(stored: seq<AnchorRow>, commitFails: Json -> bool, s: ScanState) {
    forall i :: 0 <= i < |s.added| ==>
      s.added[i].uniqueId in s.seen && s.added[i].uniqueId !in IdsOf(stored) && !commitFails(s.added[i].uniqueId) &&
      s.added[i].status == "clue" && s.added[i].source == "search_discovery"
  }

  /** What stays true through a round started from `Start` over `stored`:
      the new count is the number of committed rows and is within the cap
      unless it is zero; the committed ids are distinct; the samples are
      the first committed ids; `existed` counts the distinct stored ids
      seen; `apiErrors` counts the searches that raised. */
  ghost predicate Inv(cfg: Config, stored: seq<AnchorRow>, fetch: (string, int) -> Option<Json>,
                      commitFails: Json -> bool, s: ScanState)
  {
    && s.newCount == |s.added|
    && (s.newCount == 0 || s.newCount <= cfg.maxNewPerRound)
    && Distinct(IdsOf(s.added))
    && AddedRowsOk(stored, commitFails, s)
    && s.samples == FirstAtMost(IdsOf(s.added), cfg.logSample)
    && s.existed == |s.seen * StoredIds(stored)|
    && s.apiErrors == CountFailed(fetch, cfg.maxResultsPerKeyword, s.calls)
  }

  /** A parse whose anchor, if any, is a search-discovered clue. */
  predicate IsClue(parsed: Option<(Json, Attrs)>) {
    parsed.Some? ==> parsed.value.1.status == "clue" && parsed.value.1.source == "search_discovery"
  }

  lemma StartInv(cfg: Config, stored: seq<AnchorRow>, fetch: (string, int) -> Option<Json>, commitFails: Json -> bool)
    ensures Inv(cfg, stored, fetch, commitFails, Start)
  {
    assert {} * StoredIds(stored) == {};
  }

  /** A newly committed id keeps the invariant. */
  lemma CommitKeepsInv(cfg: Config, stored: seq<AnchorRow>, fetch: (string, int) -> Option<Json>,
                       commitFails: Json -> bool, s: ScanState, id: Json, attrs: Attrs)
    requires Inv(cfg, stored, fetch, commitFails, s)
    requires s.newCount < cfg.maxNewPerRound && id !in s.seen && id !in IdsOf(stored) && !commitFails(id)
    requires attrs.status == "clue" && attrs.source == "search_discovery"
    ensures Inv(cfg, stored, fetch, commitFails,
      s.(seen := s.seen + {id}, added := s.added + [RowOf(id, attrs)], newCount := s.newCount + 1,
         samples := if |s.samples| < cfg.logSample then s.samples + [id] else s.samples))
  {
    var row := RowOf(id, attrs);
    IdsOfAppend(s.added, [row]);
    assert IdsOf(s.added + [row]) == IdsOf(s.added) + [id];
    CommitKeepsRows(stored, commitFails, s, id, attrs);
    DistinctAppend(IdsOf(s.added), id);
    FirstAtMostAppend(IdsOf(s.added), s.samples, id, cfg.logSample);
    SeenGrows(s.seen, StoredIds(stored), id);
  }

  lemma CommitKeepsRows(stored: seq<AnchorRow>, commitFails: Json -> bool, s: ScanState, id: Json, attrs: Attrs)
    requires AddedRowsOk(stored, commitFails, s)
    requires id !in s.seen && id !in IdsOf(stored) && !commitFails(id)
    requires attrs.status == "clue" && attrs.source == "search_discovery"
    ensures id !in IdsOf(s.added)
    ensures AddedRowsOk(stored, commitFails, s.(seen := s.seen + {id}, added := s.added + [RowOf(id, attrs)]))
  {
    var next := s.(seen := s.seen + {id}, added := s.added + [RowOf(id, attrs)]);
    forall i | 0 <= i < |next.added|
      ensures next.added[i].uniqueId in next.seen
    {
      if i < |s.added| {
        assert next.added[i] == s.added[i];
      }
    }
  }

  /** An id already stored only moves `existed` and `seen`. */
  lemma ExistingKeepsInv(cfg: Config, stored: seq<AnchorRow>, fetch: (string, int) -> Option<Json>,
                         commitFails: Json -> bool, s: ScanState, id: Json)
    requires Inv(cfg, stored, fetch, commitFails, s)
    requires id !in s.seen && id in IdsOf(stored + s.added)
    ensures Inv(cfg, stored, fetch, commitFails, s.(seen := s.seen + {id}, existed := s.existed + 1))
  {
    IdsOfAppend(stored, s.added);
    assert id !in IdsOf(s.added);
    assert id in StoredIds(stored);
    SeenGrows(s.seen, StoredIds(stored), id);
  }

  /** An id whose commit was refused only moves `seen`. */
  lemma RefusedKeepsInv(cfg: Config, stored: seq<AnchorRow>, fetch: (string, int) -> Option<Json>,
                        commitFails: Json -> bool, s: ScanState, id: Json)
    requires Inv(cfg, stored, fetch, commitFails, s)
    requires id !in s.seen && id !in IdsOf(stored)
    ensures Inv(cfg, stored, fetch, commitFails, s.(seen := s.seen + {id}))
  {
    SeenGrows(s.seen, StoredIds(stored), id);
  }

  lemma ItemStepKeepsInv(cfg: Config, stored: seq<AnchorRow>, fetch: (string, int) -> Option<Json>,
                         commitFails: Json -> bool, s: ScanState, parsed: Option<(Json, Attrs)>)
    requires Inv(cfg, stored, fetch, commitFails, s) && IsClue(parsed)
    ensures Inv(cfg, stored, fetch, commitFails, ItemStep(cfg, stored, commitFails, s, parsed))
    ensures ItemStep(cfg, stored, commitFails, s, parsed).calls == s.calls
  {
    if s.newCount < cfg.maxNewPerRound && parsed.Some? {
      var (id, attrs) := parsed.value;
      if id !in s.seen {
        if id in IdsOf(stored + s.added) {
          ExistingKeepsInv(cfg, stored, fetch, commitFails, s, id);
        } else {
          IdsOfAppend(stored, s.added);
          if commitFails(id) {
            RefusedKeepsInv(cfg, stored, fetch, commitFails, s, id);
          } else {
            CommitKeepsInv(cfg, stored, fetch, commitFails, s, id, attrs);
          }
        }
      }
    }
  }

  lemma {:induction false} ItemsRunKeepsInv(cfg: Config, stored: seq<AnchorRow>, fetch: (string, int) -> Option<Json>,
                                             commitFails: Json -> bool, s: ScanState, parsed: seq<Option<(Json, Attrs)>>)
    requires Inv(cfg, stored, fetch, commitFails, s)
    requires forall i :: 0 <= i < |parsed| ==> IsClue(parsed[i])
    ensures Inv(cfg, stored, fetch, commitFails, ItemsRun(cfg, stored, commitFails, s, parsed))
    ensures ItemsRun(cfg, stored, commitFails, s, parsed).calls == s.calls
    decreases |parsed|
  {
    if parsed != [] {
      ItemStepKeepsInv(cfg, stored, fetch, commitFails, s, parsed[0]);
      assert forall i :: 0 <= i < |parsed[1..]| ==> parsed[1..][i] == parsed[i + 1];
      ItemsRunKeepsInv(cfg, stored, fetch, commitFails, ItemStep(cfg, stored, commitFails, s, parsed[0]), parsed[1..]);
    }
  }

  lemma KeywordStepKeepsInv(cfg: Config, stored: seq<AnchorRow>, fetch: (string, int) -> Option<Json>,
                            commitFails: Json -> bool, s: ScanState, keyword: string)
    requires Inv(cfg, stored, fetch, commitFails, s)
    ensures Inv(cfg, stored, fetch, commitFails, KeywordStep(cfg, stored, fetch, commitFails, s, keyword))
  {
    if s.newCount < cfg.maxNewPerRound {
      CountFailedAppend(fetch, cfg.maxResultsPerKeyword, s.calls, keyword);
      var response := fetch(keyword, cfg.maxResultsPerKeyword);
      if response.Some? {
        var called := s.(calls := s.calls + [keyword]);
        var items := ExtractSearchItems(response.value);
        var parsed := ParseAll(items);
        forall i | 0 <= i < |parsed|
          ensures IsClue(parsed[i])
        {
          ParseAllAt(items, i);
        }
        assert Inv(cfg, stored, fetch, commitFails, called);
        ItemsRunKeepsInv(cfg, stored, fetch, commitFails, called, parsed);
      }
    }
  }

  lemma {:induction false} KeywordsRunKeepsInv(cfg: Config, stored: seq<AnchorRow>, fetch: (string, int) -> Option<Json>,
                                                commitFails: Json -> bool, s: ScanState, keywords: seq<string>)
    requires Inv(cfg, stored, fetch, commitFails, s)
    ensures Inv(cfg, stored, fetch, commitFails, KeywordsRun(cfg, stored, fetch, commitFails, s, keywords))
    decreases |keywords|
  {
    if keywords != [] {
      KeywordStepKeepsInv(cfg, stored, fetch, commitFails, s, keywords[0]);
      KeywordsRunKeepsInv(cfg, stored, fetch, commitFails,
                          KeywordStep(cfg, stored, fetch, commitFails, s, keywords[0]), keywords[1..]);
    }
  }

  /** The guarantees of one round: new inserts within the cap, never an
      id stored before or committed twice, only successful commits
      counted, the samples the first new ids, `existed` the distinct
      stored ids met, and `apiErrors` the searches that raised. */
  lemma DiscoveryGuarantees(cfg: Config, stored: seq<AnchorRow>, fetch: (string, int) -> Option<Json>,
                            commitFails: Json -> bool)
    ensures var s := Discovery(cfg, stored, fetch, commitFails);
      && s.newCount == |s.added|
      && (s.newCount == 0 || s.newCount <= cfg.maxNewPerRound)
      && Distinct(IdsOf(s.added))
      && (forall i :: 0 <= i < |s.added| ==> s.added[i].uniqueId !in IdsOf(stored) && !commitFails(s.added[i].uniqueId))
      && (forall i :: 0 <= i < |s.added| ==> s.added[i].status == "clue" && s.added[i].source == "search_discovery")
      && s.samples == FirstAtMost(IdsOf(s.added), cfg.logSample)
      && s.existed == |s.seen * StoredIds(stored)|
      && s.apiErrors == CountFailed(fetch, cfg.maxResultsPerKeyword, s.calls)
  {
    StartInv(cfg, stored, fetch, commitFails);
    if cfg.enabled && cfg.keywords != [] {
      KeywordsRunKeepsInv(cfg, stored, fetch, commitFails, Start, cfg.keywords);
    }
  }

  /** With the default settings a round adds at most 30 anchors and logs
      at most 5 of them. */
  lemma DefaultsBound(stored: seq<AnchorRow>, fetch: (string, int) -> Option<Json>, commitFails: Json -> bool)
    ensures |Discovery(Defaults, stored, fetch, commitFails).added| <= 30
    ensures |Discovery(Defaults, stored, fetch, commitFails).samples| <= 5
  {
    DiscoveryGuarantees(Defaults, stored, fetch, commitFails);
  }

  /** Once the cap is reached no further result is looked at. */
  lemma {:induction false} CappedItems(cfg: Config, stored: seq<AnchorRow>, commitFails: Json -> bool,
                                       s: ScanState, parsed: seq<Option<(Json, Attrs)>>)
    requires s.newCount >= cfg.maxNewPerRound
    ensures ItemsRun(cfg, stored, commitFails, s, parsed) == s
    decreases |parsed|
  {
    if parsed != [] {
      CappedItems(cfg, stored, commitFails, s, parsed[1..]);
    }
  }

  /** Once the cap is reached no further keyword is searched. */
  lemma {:induction false} CappedKeywords(cfg: Config, stored: seq<AnchorRow>, fetch: (string, int) -> Option<Json>,
                                          commitFails: Json -> bool, s: ScanState, keywords: seq<string>)
    requires s.newCount >= cfg.maxNewPerRound
    ensures KeywordsRun(cfg, stored, fetch, commitFails, s, keywords) == s
    decreases |keywords|
  {
    if keywords != [] {
      CappedKeywords(cfg, stored, fetch, commitFails, s, keywords[1..]);
    }
  }

  lemma {:induction false} ItemsRunKeepsCalls(cfg: Config, stored: seq<AnchorRow>, commitFails: Json -> bool,
                                              s: ScanState, parsed: seq<Option<(Json, Attrs)>>)
    ensures ItemsRun(cfg, stored, commitFails, s, parsed).calls == s.calls
    decreases |parsed|
  {
    if parsed != [] {
      ItemsRunKeepsCalls(cfg, stored, commitFails, ItemStep(cfg, stored, commitFails, s, parsed[0]), parsed[1..]);
    }
  }

  /** A keyword below the cap is searched, whatever comes of it. */
  lemma KeywordStepSearches(cfg: Config, stored: seq<AnchorRow>, fetch: (string, int) -> Option<Json>,
                            commitFails: Json -> bool, s: ScanState, keyword: string)
    requires s.newCount < cfg.maxNewPerRound
    ensures KeywordStep(cfg, stored, fetch, commitFails, s, keyword).calls == s.calls + [keyword]
  {
    var response := fetch(keyword, cfg.maxResultsPerKeyword);
    if response.Some? {
      ItemsRunKeepsCalls(cfg, stored, commitFails, s.(calls := s.calls + [keyword]),
                         ParseAll(ExtractSearchItems(response.value)));
    }
  }

  /** A round below the cap searches its first keyword and goes on from
      the state that search leaves. */
  lemma KeywordsRunUnfold(cfg: Config, stored: seq<AnchorRow>, fetch: (string, int) -> Option<Json>,
                          commitFails: Json -> bool, s: ScanState, keywords: seq<string>) returns (next: ScanState)
    requires keywords != [] && s.newCount < cfg.maxNewPerRound
    ensures next.calls == s.calls + [keywords[0]]
    ensures KeywordsRun(cfg, stored, fetch, commitFails, s, keywords) ==
      KeywordsRun(cfg, stored, fetch, commitFails, next, keywords[1..])
  {
    next := KeywordStep(cfg, stored, fetch, commitFails, s, keywords[0]);
    KeywordStepSearches(cfg, stored, fetch, commitFails, s, keywords[0]);
  }

  /** The keywords are searched in order and some are left out only once
      the cap is reached: the searches made extend `s.calls` by a prefix
      of `keywords`, all of them unless the new count is at the cap. */
  lemma {:induction false} SearchesArePrefix(cfg: Config, stored: seq<AnchorRow>, fetch: (string, int) -> Option<Json>,
                                             commitFails: Json -> bool, s: ScanState, keywords: seq<string>)
      returns (m: nat)
    ensures var r := KeywordsRun(cfg, stored, fetch, commitFails, s, keywords);
      m <= |keywords| && r.calls == s.calls + keywords[..m] && (m < |keywords| ==> r.newCount >= cfg.maxNewPerRound)
    decreases |keywords|
  {
    if keywords == [] {
      m := 0;
    } else if s.newCount >= cfg.maxNewPerRound {
      CappedKeywords(cfg, stored, fetch, commitFails, s, keywords);
      m := 0;
    } else {
      var next := KeywordsRunUnfold(cfg, stored, fetch, commitFails, s, keywords);
      var m' := SearchesArePrefix(cfg, stored, fetch, commitFails, next, keywords[1..]);
      m := m' + 1;
      assert keywords[..m] == [keywords[0]] + keywords[1..][..m'];
      assert s.calls + keywords[..m] == next.calls + keywords[1..][..m'];
    }
  }

  /** A round that is switched off, or has no keywords, searches nothing
      and stores nothing; an enabled round searches the keywords in order
      and stops early only at the cap. */
  lemma DiscoverySearches(cfg: Config, stored: seq<AnchorRow>, fetch: (string, int) -> Option<Json>,
                          commitFails: Json -> bool)
    ensures !cfg.enabled || cfg.keywords == [] ==> Discovery(cfg, stored, fetch, commitFails) == Start
    ensures cfg.enabled ==>
      var r := Discovery(cfg, stored, fetch, commitFails);
      (exists m :: 0 <= m <= |cfg.keywords| && r.calls == cfg.keywords[..m]) &&
      (r.calls != cfg.keywords ==> r.newCount >= cfg.maxNewPerRound)
  {
    if !cfg.enabled || cfg.keywords == [] {
      assert cfg.keywords[..0] == [];
    } else {
      var m := SearchesArePrefix(cfg, stored, fetch, commitFails, Start, cfg.keywords);
      assert m == |cfg.keywords| ==> cfg.keywords[..m] == cfg.keywords;
    }
  }

  // ---------------------------------------------------------------------
  // The discovery round, as the source runs it
  // ---------------------------------------------------------------------

  /** The body of the inner loop for one parsed result, below the cap:
      skip an id seen this round, count an id already stored, otherwise
      add and commit the anchor and count it (and sample it) only when
      the commit succeeds. */
  method VisitResult(session: Session, cfg: Config, ghost stored: seq<AnchorRow>, commitFails: Json -> bool,
                     st: ScanState, parsed: Option<(Json, Attrs)>) returns (next: ScanState)
    requires session.anchors == stored + st.added
    requires st.newCount < cfg.maxNewPerRound
    modifies session
    ensures next == ItemStep(cfg, stored, commitFails, st, parsed)
    ensures session.anchors == stored + next.added
  {
    next := st;
    if parsed.None? {
      return;
    }
    var (id, attrs) := parsed.value;
    if id in st.seen {
      return;
    }
    next := next.(seen := next.seen + {id});
    var existing := session.Has(id);
    if existing {
      next := next.(existed := next.existed + 1);
      return;
    }
    var row := RowOf(id, attrs);
    var committed := session.AddAndCommit(row, commitFails(id));
    if !committed {
      return;
    }
    next := next.(added := next.added + [row], newCount := next.newCount + 1);
    if |next.samples| < cfg.logSample {
      next := next.(samples := next.samples + [id]);
    }
  }

  /** The inner loop over the results of one search, stopping at the
      cap. */
  method ScanResults(session: Session, cfg: Config, ghost stored: seq<AnchorRow>, commitFails: Json -> bool,
                     st: ScanState, items: seq<Json>) returns (next: ScanState)
    requires session.anchors == stored + st.added
    modifies session
    ensures next == ItemsRun(cfg, stored, commitFails, st, ParseAll(items))
    ensures session.anchors == stored + next.added
  {
    ghost var parsed := ParseAll(items);
    next := st;
    var j := 0;
    while j < |items|
      invariant 0 <= j <= |items|
      invariant session.anchors == stored + next.added
      invariant ItemsRun(cfg, stored, commitFails, next, parsed[j..]) == ItemsRun(cfg, stored, commitFails, st, parsed)
    {
      assert parsed[j..][1..] == parsed[j + 1..];
      if next.newCount >= cfg.maxNewPerRound {
        CappedItems(cfg, stored, commitFails, next, parsed[j..]);
        break;
      }
      var item := ParseAnchor(items[j]);
      ParseAllAt(items, j);
      next := VisitResult(session, cfg, stored, commitFails, next, item);
      j := j + 1;
    }
  }

  /** `discovery_scan_by_search(session, client)`: `fetch(keyword, count)`
      is the client's `fetch_search_live`, `None` when it raises;
      `commitFails(id)` says whether the database refuses the commit of
      the anchor `id`. The table ends as the function `Discovery` says,
      the searches made are `calls`, and `report` is what is logged. */
  method DiscoveryScanBySearch(session: Session, cfg: Config, fetch: (string, int) -> Option<Json>,
                               commitFails: Json -> bool) returns (report: Report, calls: seq<string>)
    modifies session
    ensures var s := Discovery(cfg, old(session.anchors), fetch, commitFails);
      session.anchors == old(session.anchors) + s.added && calls == s.calls && report == ReportOf(cfg, s)
  {
    ghost var stored := session.anchors;
    if !cfg.enabled {
      return Disabled, [];
    }
    if cfg.keywords == [] {
      return NoKeywords, [];
    }
    var st := Start;
    var k := 0;
    while k < |cfg.keywords|
      invariant 0 <= k <= |cfg.keywords|
      invariant session.anchors == stored + st.added
      invariant KeywordsRun(cfg, stored, fetch, commitFails, st, cfg.keywords[k..]) ==
        Discovery(cfg, stored, fetch, commitFails)
    {
      assert cfg.keywords[k..][1..] == cfg.keywords[k + 1..];
      if st.newCount >= cfg.maxNewPerRound {
        CappedKeywords(cfg, stored, fetch, commitFails, st, cfg.keywords[k..]);
        break;
      }
      var keyword := cfg.keywords[k];
      var response := fetch(keyword, cfg.maxResultsPerKeyword);
      st := st.(calls := st.calls + [keyword]);
      if response.None? {
        st := st.(apiErrors := st.apiErrors + 1);
      } else {
        var items := ExtractSearchItems(response.value);
        if items != [] {
          st := ScanResults(session, cfg, stored, commitFails, st, items);
        }
      }
      k := k + 1;
    }
    report := RoundDone(|cfg.keywords|, st.newCount, st.existed, st.apiErrors, st.samples);
    calls := st.calls;
  }
}
