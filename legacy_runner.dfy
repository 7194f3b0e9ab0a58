/** One cycle of the legacy loop (auto_ai_influencer/runner.py). The
    runner picks the first unused image, asks for a caption, sends it to
    every poster and records one row per platform that succeeded, until
    the per-cycle budget is spent, no image is left, no poster succeeded
    or the caption step raised. Captioning and posting are given as
    functions of their inputs; a row's timestamp is `clock(n)` where `n`
    is the number of rows already in its table. */
module LegacyRunner {
  import opened Wrappers
  import opened Text
  import opened LegacyImageSource
  import opened LegacyStorage
  import LegacyConfig
  import LegacyPoster

  type PostResult = LegacyPoster.PostResult

  // ---------------------------------------------------------------------
  // Text assembly
  // ---------------------------------------------------------------------

  const Ellipsis := "…"

  /** The stripped prefix, caption and suffix, the empty ones dropped,
      joined with `sep`. */
  function Joined(sep: string, prefix: string, caption: string, suffix: string): string {
    Join(sep, NonEmpty([Strip(prefix), Strip(caption), Strip(suffix)]))
  }

  /** With blank affixes only the stripped caption remains. */
  lemma JoinedBareCaption(sep: string, prefix: string, caption: string, suffix: string)
    requires Blank(prefix) && Blank(suffix)
    ensures Joined(sep, prefix, caption, suffix) == Strip(caption)
  {
    JoinOfMiddle(sep, Strip(prefix), Strip(caption), Strip(suffix));
  }

  /** Empty outer parts leave the middle one alone. */
  lemma JoinOfMiddle(sep: string, a: string, c: string, b: string)
    requires a == [] && b == []
    ensures Join(sep, NonEmpty([a, c, b])) == c
  {
    var none: seq<string> := [[]];
    assert NonEmpty(none) == [] by {
      assert none[1..] == [];
    }
    assert NonEmpty([c, []]) == if c == [] then [] else [c] by {
      assert [c, []][1..] == none;
    }
    assert NonEmpty([a, c, b]) == NonEmpty([c, []]) by {
      assert [a, c, b][1..] == [c, []];
    }
  }

  /** `text[:max_length - 1].rstrip() + "…"`. */
  function Truncate(text: string, maxLength: int): (r: string)
    ensures |r| >= 1 && r[|r| - 1] == '…'
    ensures |r| - 1 <= |text| && r[..|r| - 1] == text[..|r| - 1]
    ensures |r| >= 2 ==> !IsSpace(r[|r| - 2])
    ensures maxLength >= 1 ==> |r| <= maxLength
  {
    var cut := RStrip(PyTake(text, maxLength - 1));
    assert (cut + Ellipsis)[..|cut|] == cut;
    cut + Ellipsis
  }

  /** `_assemble_tweet`: the joined text when it fits, else truncated
      with an ellipsis. */
  function AssembleTweet(tweet: LegacyConfig.TweetConfig, caption: string): (r: string)
    ensures var text := Joined(" ", tweet.prefix, caption, tweet.suffix);
      (|text| <= tweet.maxLength ==> r == text)
      && (|text| > tweet.maxLength ==> r == Truncate(text, tweet.maxLength))
    ensures tweet.maxLength >= 1 ==> |r| <= tweet.maxLength
  {
    var text := Joined(" ", tweet.prefix, caption, tweet.suffix);
    if |text| <= tweet.maxLength then text else Truncate(text, tweet.maxLength)
  }

  /** The body settings `_assemble_xiaohongshu` reads. */
  datatype XiaohongshuText = XiaohongshuText(prefix: string, suffix: string, maxLength: int)

  /** `_assemble_xiaohongshu`: the parts joined by newlines, truncated
      only under a positive maximum. */
  function AssembleXiaohongshu(config: XiaohongshuText, caption: string): (r: string)
    ensures var text := Joined("\n", config.prefix, caption, config.suffix);
      (config.maxLength <= 0 || |text| <= config.maxLength ==> r == text)
      && (config.maxLength > 0 && |text| > config.maxLength ==> r == Truncate(text, config.maxLength))
    ensures config.maxLength > 0 ==> |r| <= config.maxLength
  {
    var text := Joined("\n", config.prefix, caption, config.suffix);
    if config.maxLength > 0 && |text| > config.maxLength then Truncate(text, config.maxLength) else text
  }

  /** The text settings of both platforms. */
  datatype TextConfig = TextConfig(tweet: LegacyConfig.TweetConfig, xiaohongshu: XiaohongshuText)

  /** `_build_text_for_platform`. */
  function TextFor(cfg: TextConfig, platform: string, caption: string): (r: string)
    ensures platform == "twitter" ==> r == AssembleTweet(cfg.tweet, caption)
    ensures platform == "xiaohongshu" ==> r == AssembleXiaohongshu(cfg.xiaohongshu, caption)
    ensures platform != "twitter" && platform != "xiaohongshu" ==> r == Strip(caption)
  {
    if platform == "twitter" then AssembleTweet(cfg.tweet, caption)
    else if platform == "xiaohongshu" then AssembleXiaohongshu(cfg.xiaohongshu, caption)
    else Strip(caption)
  }

  // ---------------------------------------------------------------------
  // _post_to_all
  // ---------------------------------------------------------------------

  /** A poster: its platform and what `post(image, text)` returns or raises. */
  datatype Poster = Poster(platform: string, post: (string, string) -> Result<PostResult>)

  /** The text sent to a platform for a caption. */
  type Compose = (string, string) -> string

  /** `_build_text_for_platform` with the runner's settings. */
  function Composer(cfg: TextConfig): Compose {
    (platform, caption) => TextFor(cfg, platform, caption)
  }

  function Attempt(p: Poster, compose: Compose, image: string, caption: string): Result<PostResult> {
    p.post(image, compose(p.platform, caption))
  }

  /** The results of the posters that returned, in poster order. */
  function Successes(posters: seq<Poster>, compose: Compose, image: string, caption: string): seq<PostResult> {
    if posters == [] then []
    else
      var init := Successes(posters[..|posters| - 1], compose, image, caption);
      match Attempt(posters[|posters| - 1], compose, image, caption)
      case Ok(result) => init + [result]
      case Err(_) => init
  }

  /** The context and message of each poster that raised, in poster order. */
  function Failures(posters: seq<Poster>, compose: Compose, image: string, caption: string): seq<(string, string)> {
    if posters == [] then []
    else
      var init := Failures(posters[..|posters| - 1], compose, image, caption);
      var p := posters[|posters| - 1];
      match Attempt(p, compose, image, caption)
      case Ok(_) => init
      case Err(message) => init + [("post:" + p.platform, message)]
  }

  /** The context of an error row written for a poster that raised. */
  predicate PosterContext(context: string) {
    |context| >= 5 && context[..5] == "post:"
  }

  /** Every poster either succeeds or fails; each failure is logged under
      the platform of a poster, and with no poster raising nothing is
      logged. */
  lemma {:induction false} EveryPosterAccounted(posters: seq<Poster>, compose: Compose, image: string, caption: string)
    ensures |Successes(posters, compose, image, caption)| + |Failures(posters, compose, image, caption)| == |posters|
    ensures forall k :: 0 <= k < |Failures(posters, compose, image, caption)| ==>
      exists i :: 0 <= i < |posters| && Failures(posters, compose, image, caption)[k].0 == "post:" + posters[i].platform
    ensures forall k :: 0 <= k < |Failures(posters, compose, image, caption)| ==>
      PosterContext(Failures(posters, compose, image, caption)[k].0)
    ensures (forall i :: 0 <= i < |posters| ==> Attempt(posters[i], compose, image, caption).Ok?) ==>
      Failures(posters, compose, image, caption) == []
  {
    if posters != [] {
      var init := posters[..|posters| - 1];
      EveryPosterAccounted(init, compose, image, caption);
      assert forall i :: 0 <= i < |init| ==> init[i] == posters[i];
      var p := posters[|posters| - 1];
      assert ("post:" + p.platform)[..5] == "post:";
    }
  }

  /** Successes and failures after one more poster. */
  lemma AttemptStep(posters: seq<Poster>, i: nat, compose: Compose, image: string, caption: string)
    requires i < |posters|
    ensures var a := Attempt(posters[i], compose, image, caption);
      && (a.Ok? ==> Successes(posters[..i + 1], compose, image, caption) == Successes(posters[..i], compose, image, caption) + [a.value])
      && (a.Ok? ==> Failures(posters[..i + 1], compose, image, caption) == Failures(posters[..i], compose, image, caption))
      && (a.Err? ==> Successes(posters[..i + 1], compose, image, caption) == Successes(posters[..i], compose, image, caption))
      && (a.Err? ==> Failures(posters[..i + 1], compose, image, caption)
                     == Failures(posters[..i], compose, image, caption) + [("post:" + posters[i].platform, a.error)])
  {
    assert posters[..i + 1][..i] == posters[..i];
  }

  /** The error rows written for the failures, starting at row `start`. */
  function ErrorRows(fails: seq<(string, string)>, start: nat, clock: nat -> string): (r: seq<ErrorRow>)
    ensures |r| == |fails|
  {
    if fails == [] then []
    else
      var last := fails[|fails| - 1];
      ErrorRows(fails[..|fails| - 1], start, clock) + [ErrorRow(last.0, last.1, clock(start + |fails| - 1))]
  }

  /** Row `k` carries failure `k` and the clock reading of its position. */
  lemma {:induction false} ErrorRowsContents(fails: seq<(string, string)>, start: nat, clock: nat -> string)
    ensures forall k :: 0 <= k < |fails| ==>
      ErrorRows(fails, start, clock)[k] == ErrorRow(fails[k].0, fails[k].1, clock(start + k))
  {
    if fails != [] {
      var init := fails[..|fails| - 1];
      ErrorRowsContents(init, start, clock);
      assert forall k :: 0 <= k < |init| ==> init[k] == fails[k];
    }
  }

  /** Logging one more failure after `start` and the earlier failures. */
  lemma ErrorRowsLogStep(start: seq<ErrorRow>, fails: seq<(string, string)>, f: (string, string), clock: nat -> string)
    ensures start + ErrorRows(fails + [f], |start|, clock)
      == (start + ErrorRows(fails, |start|, clock)) + [ErrorRow(f.0, f.1, clock(|start + ErrorRows(fails, |start|, clock)|))]
  {
    assert (fails + [f])[..|fails|] == fails;
  }

  /** `_post_to_all`: every poster in order; a raising poster is logged
      and skipped. */
  method PostToAll(db: LegacyDatabase, posters: seq<Poster>, compose: Compose, image: string, caption: string,
                   clock: nat -> string) returns (results: seq<PostResult>)
    modifies db
    ensures results == Successes(posters, compose, image, caption)
    ensures db.posts == old(db.posts)
    ensures db.errors == old(db.errors) + ErrorRows(Failures(posters, compose, image, caption), |old(db.errors)|, clock)
  {
    results := [];
    if posters == [] {
      return;
    }
    ghost var start := db.errors;
    var i := 0;
    while i < |posters|
      invariant 0 <= i <= |posters|
      invariant results == Successes(posters[..i], compose, image, caption)
      invariant db.posts == old(db.posts)
      invariant db.errors == start + ErrorRows(Failures(posters[..i], compose, image, caption), |start|, clock)
    {
      var poster := posters[i];
      var text := compose(poster.platform, caption);
      var result := poster.post(image, text);
      AttemptStep(posters, i, compose, image, caption);
      if result.Err? {
        var context := "post:" + poster.platform;
        ErrorRowsLogStep(start, Failures(posters[..i], compose, image, caption), (context, result.error), clock);
        db.RecordError(context, result.error, clock(|db.errors|));
      } else {
        results := results + [result.value];
      }
      i := i + 1;
    }
    assert posters[..i] == posters;
  }

  // ---------------------------------------------------------------------
  // run_once
  // ---------------------------------------------------------------------

  /** What a `BotRunner` works with. */
  datatype Runner = Runner(
    maxPostsPerCycle: int,
    folder: Directory,
    generate: string -> Result<string>,
    posters: seq<Poster>,
    texts: TextConfig)

  /** What one cycle depends on: the budget, the folder's image list, the
      caption step, the posters and the text each platform is sent. */
  datatype Cycle = Cycle(
    maxPosts: int,
    listing: seq<string>,
    generate: string -> Result<string>,
    posters: seq<Poster>,
    compose: Compose)

  function CycleOf(r: Runner): (c: Cycle)
    ensures c.listing == ListImages(r.folder) && c.maxPosts == r.maxPostsPerCycle
  {
    Cycle(r.maxPostsPerCycle, ListImages(r.folder), r.generate, r.posters, Composer(r.texts))
  }

  /** The tables after a cycle, how many images were posted and which. */
  datatype CycleEnd = CycleEnd(posts: seq<PostRow>, errors: seq<ErrorRow>, count: int, picked: seq<string>)

  /** The rows written for the successes of one image, starting at row `start`. */
  function PostRows(image: string, results: seq<PostResult>, start: nat, clock: nat -> string): (r: seq<PostRow>)
    ensures |r| == |results|
  {
    if results == [] then []
    else
      var last := results[|results| - 1];
      PostRows(image, results[..|results| - 1], start, clock)
        + [RowOf(PostRecord(image, last.text, clock(start + |results| - 1), last.platform, last.postId, last.dryRun))]
  }

  /** The rest of `run_once` from a state of its loop: the images in
      `used` are taken and `count` images are posted so far. */
  function Run(c: Cycle, clock: nat -> string, used: set<string>, posts: seq<PostRow>, errors: seq<ErrorRow>, count: int): (r: CycleEnd)
    ensures posts <= r.posts && errors <= r.errors
    ensures r.picked == [] ==> r.posts == posts
    ensures count >= c.maxPosts ==> r == CycleEnd(posts, errors, count, [])
    decreases if count < c.maxPosts then c.maxPosts - count else 0
  {
    if count >= c.maxPosts then CycleEnd(posts, errors, count, [])
    else
      match FirstUnused(c.listing, used)
      case None => CycleEnd(posts, errors, count, [])
      case Some(image) =>
        match c.generate(image)
        case Err(message) => CycleEnd(posts, errors + [ErrorRow("post", message, clock(|errors|))], count, [])
        case Ok(caption) =>
          var results := Successes(c.posters, c.compose, image, caption);
          var errors1 := errors + ErrorRows(Failures(c.posters, c.compose, image, caption), |errors|, clock);
          if results == [] then CycleEnd(posts, errors1, count, [])
          else
            var rest := Run(c, clock, used + {image}, posts + PostRows(image, results, |posts|, clock), errors1, count + 1);
            rest.(picked := [image] + rest.picked)
  }

  /** The budget is never exceeded, and the count is the number of images
      posted. */
  lemma {:induction false} RunWithinBudget(c: Cycle, clock: nat -> string, used: set<string>,
                                           posts: seq<PostRow>, errors: seq<ErrorRow>, count: int)
    ensures var e := Run(c, clock, used, posts, errors, count);
      && e.count == count + |e.picked|
      && (count < c.maxPosts ==> e.count <= c.maxPosts)
      && (count >= c.maxPosts ==> e.count == count)
    decreases if count < c.maxPosts then c.maxPosts - count else 0
  {
    if count < c.maxPosts {
      var img := FirstUnused(c.listing, used);
      if img.Some? && c.generate(img.value).Ok? {
        var caption := c.generate(img.value).value;
        var results := Successes(c.posters, c.compose, img.value, caption);
        if results != [] {
          RunWithinBudget(c, clock, used + {img.value},
            posts + PostRows(img.value, results, |posts|, clock),
            errors + ErrorRows(Failures(c.posters, c.compose, img.value, caption), |errors|, clock), count + 1);
        }
      }
    }
  }

  /** No element occurs twice. */
  predicate Distinct(xs: seq<string>) {
    forall i, j :: 0 <= i < j < |xs| ==> xs[i] != xs[j]
  }

  /** Every element is in `pool` and none is in `used`. */
  predicate FreshFrom(xs: seq<string>, pool: seq<string>, used: set<string>) {
    forall i :: 0 <= i < |xs| ==> xs[i] in pool && xs[i] !in used
  }

  /** No image is posted twice in a cycle, none that was already used is
      posted, and each one posted is in the folder's image list. */
  lemma {:induction false} RunPicksDistinct(c: Cycle, clock: nat -> string, used: set<string>,
                                            posts: seq<PostRow>, errors: seq<ErrorRow>, count: int)
    ensures Distinct(Run(c, clock, used, posts, errors, count).picked)
    ensures FreshFrom(Run(c, clock, used, posts, errors, count).picked, c.listing, used)
    decreases if count < c.maxPosts then c.maxPosts - count else 0
  {
    if count < c.maxPosts {
      var img := FirstUnused(c.listing, used);
      if img.Some? && c.generate(img.value).Ok? {
        var caption := c.generate(img.value).value;
        var results := Successes(c.posters, c.compose, img.value, caption);
        if results != [] {
          var used1 := used + {img.value};
          var posts1 := posts + PostRows(img.value, results, |posts|, clock);
          var errors1 := errors + ErrorRows(Failures(c.posters, c.compose, img.value, caption), |errors|, clock);
          RunPicksDistinct(c, clock, used1, posts1, errors1, count + 1);
          var rest := Run(c, clock, used1, posts1, errors1, count + 1).picked;
          var picked := Run(c, clock, used, posts, errors, count).picked;
          assert picked == [img.value] + rest;
          assert img.value in c.listing && img.value !in used by {
            FirstUnusedIsFirst(c.listing, used);
            var k :| FirstAt(c.listing, used, k, img.value);
          }
          assert FreshFrom(rest, c.listing, used1);
          forall i, j | 0 <= i < j < |picked| ensures picked[i] != picked[j] {
            assert picked[j] == rest[j - 1];
            if i > 0 {
              assert picked[i] == rest[i - 1];
            }
          }
          forall i | 0 < i < |picked| ensures picked[i] in c.listing && picked[i] !in used {
            assert picked[i] == rest[i - 1];
          }
        }
      }
    }
  }

  /** A cycle of a runner posts distinct images of its folder that were
      not posted before, no more than its budget. */
  lemma RunnerPicksFolderImages(r: Runner, clock: nat -> string, used: set<string>,
                                posts: seq<PostRow>, errors: seq<ErrorRow>)
    ensures var e := Run(CycleOf(r), clock, used, posts, errors, 0);
      && |e.picked| == e.count
      && (r.maxPostsPerCycle >= 0 ==> e.count <= r.maxPostsPerCycle)
      && Distinct(e.picked)
      && FreshFrom(e.picked, ListImages(r.folder), used)
  {
    RunWithinBudget(CycleOf(r), clock, used, posts, errors, 0);
    RunPicksDistinct(CycleOf(r), clock, used, posts, errors, 0);
  }

  /** What a post row says, without its timestamp. */
  datatype RowFact = RowFact(imagePath: string, caption: string, platform: string,
                             externalId: Option<string>, tweetId: Option<string>, dryRun: int)

  function Fact(row: PostRow): RowFact {
    RowFact(row.imagePath, row.caption, row.platform, row.externalId, row.tweetId, row.dryRun)
  }

  function Facts(rows: seq<PostRow>): (r: seq<RowFact>)
    ensures |r| == |rows|
  {
    if rows == [] then [] else Facts(rows[..|rows| - 1]) + [Fact(rows[|rows| - 1])]
  }

  /** The facts of the record of one successful result. */
  function ResultFact(image: string, result: PostResult): RowFact {
    RowFact(image, result.text, result.platform, result.postId,
            if result.platform == Twitter then result.postId else None, if result.dryRun then 1 else 0)
  }

  function ResultFacts(image: string, results: seq<PostResult>): (r: seq<RowFact>)
    ensures |r| == |results|
  {
    if results == [] then []
    else ResultFacts(image, results[..|results| - 1]) + [ResultFact(image, results[|results| - 1])]
  }

  /** The records the cycle owes the posted images: one per successful
      platform of each image, in image order and then poster order. */
  function Owed(c: Cycle, picked: seq<string>): seq<RowFact> {
    if picked == [] then []
    else
      var image := picked[0];
      var here := match c.generate(image)
        case Ok(caption) => ResultFacts(image, Successes(c.posters, c.compose, image, caption))
        case Err(_) => [];
      here + Owed(c, picked[1..])
  }

  lemma {:induction false} FactsAppend(xs: seq<PostRow>, ys: seq<PostRow>)
    ensures Facts(xs + ys) == Facts(xs) + Facts(ys)
    decreases |ys|
  {
    if ys != [] {
      var init := ys[..|ys| - 1];
      assert (xs + ys)[..|xs + ys| - 1] == xs + init;
      FactsAppend(xs, init);
    } else {
      assert xs + ys == xs;
    }
  }

  lemma {:induction false} PostRowsFacts(image: string, results: seq<PostResult>, start: nat, clock: nat -> string)
    ensures Facts(PostRows(image, results, start, clock)) == ResultFacts(image, results)
  {
    if results != [] {
      PostRowsFacts(image, results[..|results| - 1], start, clock);
    }
  }

  /** `acc` followed by what the cycle owes the posted images. */
  function OwedFrom(c: Cycle, acc: seq<RowFact>, picked: seq<string>): seq<RowFact>
    decreases |picked|
  {
    if picked == [] then acc
    else
      var image := picked[0];
      var here := match c.generate(image)
        case Ok(caption) => ResultFacts(image, Successes(c.posters, c.compose, image, caption))
        case Err(_) => [];
      OwedFrom(c, acc + here, picked[1..])
  }

  lemma {:induction false} OwedFromIsAppend(c: Cycle, acc: seq<RowFact>, picked: seq<string>)
    ensures OwedFrom(c, acc, picked) == acc + Owed(c, picked)
    decreases |picked|
  {
    if picked == [] {
      assert acc + [] == acc;
    } else {
      var image := picked[0];
      var here := match c.generate(image)
        case Ok(caption) => ResultFacts(image, Successes(c.posters, c.compose, image, caption))
        case Err(_) => [];
      OwedFromIsAppend(c, acc + here, picked[1..]);
      assert (acc + here) + Owed(c, picked[1..]) == acc + (here + Owed(c, picked[1..]));
    }
  }

  lemma {:induction false} RunRecordsFrom(c: Cycle, clock: nat -> string, used: set<string>,
                                          posts: seq<PostRow>, errors: seq<ErrorRow>, count: int)
    ensures var e := Run(c, clock, used, posts, errors, count);
      Facts(e.posts) == OwedFrom(c, Facts(posts), e.picked)
    decreases if count < c.maxPosts then c.maxPosts - count else 0
  {
    if count < c.maxPosts {
      var img := FirstUnused(c.listing, used);
      if img.Some? && c.generate(img.value).Ok? {
        var caption := c.generate(img.value).value;
        var results := Successes(c.posters, c.compose, img.value, caption);
        if results != [] {
          var rows := PostRows(img.value, results, |posts|, clock);
          var errors1 := errors + ErrorRows(Failures(c.posters, c.compose, img.value, caption), |errors|, clock);
          RunRecordsFrom(c, clock, used + {img.value}, posts + rows, errors1, count + 1);
          var rest := Run(c, clock, used + {img.value}, posts + rows, errors1, count + 1);
          FactsAppend(posts, rows);
          PostRowsFacts(img.value, results, |posts|, clock);
          assert ([img.value] + rest.picked)[1..] == rest.picked;
        }
      }
    }
  }

  /** Exactly one row per successful platform result is written, carrying
      that result's platform, post id, text and dry-run flag, in image
      order and then poster order, after the rows already in the table. */
  lemma RunRecordsEverySuccess(c: Cycle, clock: nat -> string, used: set<string>,
                               posts: seq<PostRow>, errors: seq<ErrorRow>, count: int)
    ensures var e := Run(c, clock, used, posts, errors, count);
      Facts(e.posts) == Facts(posts) + Owed(c, e.picked)
  {
    RunRecordsFrom(c, clock, used, posts, errors, count);
    OwedFromIsAppend(c, Facts(posts), Run(c, clock, used, posts, errors, count).picked);
  }

  /** Every row with index in `from..to` comes from a poster that raised. */
  predicate PosterRowsBetween(rows: seq<ErrorRow>, from: int, to: int) {
    forall k :: from <= k < to && 0 <= k < |rows| ==> PosterContext(rows[k].context)
  }

  lemma FailureRowsFromPosters(posters: seq<Poster>, compose: Compose, image: string, caption: string,
                               errors: seq<ErrorRow>, clock: nat -> string)
    ensures PosterRowsBetween(errors + ErrorRows(Failures(posters, compose, image, caption), |errors|, clock),
                              |errors|, |errors| + |Failures(posters, compose, image, caption)|)
  {
    var fails := Failures(posters, compose, image, caption);
    EveryPosterAccounted(posters, compose, image, caption);
    ErrorRowsContents(fails, |errors|, clock);
  }

  /** Every error row a cycle adds but its last comes from a poster that
      raised: a failing caption step writes its one "post" row and ends
      the cycle, so a cycle writes at most one; rows already in the table
      are kept. */
  lemma {:induction false} RunPostErrorEndsCycle(c: Cycle, clock: nat -> string, used: set<string>,
                                                 posts: seq<PostRow>, errors: seq<ErrorRow>, count: int)
    ensures errors <= Run(c, clock, used, posts, errors, count).errors
    ensures var all := Run(c, clock, used, posts, errors, count).errors;
      PosterRowsBetween(all, |errors|, |all| - 1)
    ensures var all := Run(c, clock, used, posts, errors, count).errors;
      forall k :: |errors| <= k < |all| - 1 ==> all[k].context != "post"
    decreases if count < c.maxPosts then c.maxPosts - count else 0
  {
    if count < c.maxPosts {
      var img := FirstUnused(c.listing, used);
      if img.Some? && c.generate(img.value).Ok? {
        var caption := c.generate(img.value).value;
        var results := Successes(c.posters, c.compose, img.value, caption);
        var errors1 := errors + ErrorRows(Failures(c.posters, c.compose, img.value, caption), |errors|, clock);
        FailureRowsFromPosters(c.posters, c.compose, img.value, caption, errors, clock);
        if results != [] {
          var posts1 := posts + PostRows(img.value, results, |posts|, clock);
          RunPostErrorEndsCycle(c, clock, used + {img.value}, posts1, errors1, count + 1);
          var all := Run(c, clock, used + {img.value}, posts1, errors1, count + 1).errors;
          forall k | |errors| <= k < |all| - 1 ensures PosterContext(all[k].context) {
            if k < |errors1| {
              assert all[k] == errors1[k];
            }
          }
        }
      }
    }
  }

  /** The posts of one image are recorded one result at a time, as the
      `for result in results` loop of `run_once` does. */
  method RecordResults(db: LegacyDatabase, image: string, results: seq<PostResult>, clock: nat -> string)
    modifies db
    ensures db.posts == old(db.posts) + PostRows(image, results, |old(db.posts)|, clock)
    ensures db.errors == old(db.errors)
  {
    var j := 0;
    while j < |results|
      invariant 0 <= j <= |results|
      invariant db.posts == old(db.posts) + PostRows(image, results[..j], |old(db.posts)|, clock)
      invariant db.errors == old(db.errors)
    {
      var result := results[j];
      assert results[..j + 1][..j] == results[..j];
      db.RecordPost(PostRecord(image, result.text, clock(|db.posts|), result.platform, result.postId, result.dryRun));
      j := j + 1;
    }
    assert results[..j] == results;
  }

  /** One pass of the `run_once` loop, for the image `next_image`
      returned: either the cycle ends here with the tables as they now
      are, or it goes on from the new tables with `image` used. */
  method CycleStep(db: LegacyDatabase, c: Cycle, clock: nat -> string, used: set<string>, count: int,
                   image: Option<string>) returns (stop: bool)
    requires count < c.maxPosts && image == FirstUnused(c.listing, used)
    modifies db
    ensures var e := Run(c, clock, used, old(db.posts), old(db.errors), count);
      stop ==> e == CycleEnd(db.posts, db.errors, count, [])
    ensures !stop ==> image.Some?
    ensures var e := Run(c, clock, used, old(db.posts), old(db.errors), count);
      !stop ==> var rest := Run(c, clock, used + {image.value}, db.posts, db.errors, count + 1);
        e == rest.(picked := [image.value] + rest.picked)
  {
    if image.None? {
      return true;
    }
    var caption := c.generate(image.value);
    if caption.Err? {
      db.RecordError("post", caption.error, clock(|db.errors|));
      return true;
    }
    var results := PostToAll(db, c.posters, c.compose, image.value, caption.value, clock);
    if results == [] {
      return true;
    }
    RecordResults(db, image.value, results, clock);
    return false;
  }

  /** `next_image(used)` on the folder whose listing the cycle holds. */
  method NextOf(folder: Directory, c: Cycle, used: set<string>) returns (image: Option<string>)
    requires c.listing == ListImages(folder)
    ensures image == FirstUnused(c.listing, used)
  {
    image := NextImage(folder, used);
  }

  /** One pass of the `run_once` loop seen from the end of the run
      `target`: either the tables are now the ones the run ends with, or
      the run goes on to the same end from the new tables with one more
      image used and posted. */
  method Advance(db: LegacyDatabase, c: Cycle, folder: Directory, clock: nat -> string, used: set<string>, count: int,
                 ghost target: CycleEnd) returns (stop: bool, image: Option<string>)
    requires c.listing == ListImages(folder) && count < c.maxPosts
    requires target == Run(c, clock, used, db.posts, db.errors, count).(picked := target.picked)
    modifies db
    ensures stop ==> db.posts == target.posts && db.errors == target.errors && count == target.count
    ensures !stop ==> image.Some?
    ensures !stop ==> target == Run(c, clock, used + {image.value}, db.posts, db.errors, count + 1).(picked := target.picked)
  {
    image := NextOf(folder, c, used);
    stop := CycleStep(db, c, clock, used, count, image);
  }

  /** The loop of `run_once` for a cycle whose image list is the one the
      folder yields. */
  method RunCycle(db: LegacyDatabase, c: Cycle, folder: Directory, clock: nat -> string) returns (postedCount: int)
    requires c.listing == ListImages(folder)
    modifies db
    ensures var e := Run(c, clock, old(db.PostedImages()), old(db.posts), old(db.errors), 0);
      db.posts == e.posts && db.errors == e.errors && postedCount == e.count
  {
    var used := db.PostedImages();
    ghost var target := Run(c, clock, used, db.posts, db.errors, 0);
    postedCount := 0;
    while postedCount < c.maxPosts
      invariant target == Run(c, clock, used, db.posts, db.errors, postedCount).(picked := target.picked)
      decreases c.maxPosts - postedCount
    {
      var stop, image := Advance(db, c, folder, clock, used, postedCount, target);
      if stop {
        break;
      }
      used := used + {image.value};
      postedCount := postedCount + 1;
    }
  }

  /** `run_once`: the tables end as `Run` says, starting from the images
      already recorded; the number of images posted is returned. */
  method RunOnce(db: LegacyDatabase, r: Runner, clock: nat -> string) returns (postedCount: int)
    modifies db
    ensures var e := Run(CycleOf(r), clock, old(db.PostedImages()), old(db.posts), old(db.errors), 0);
      db.posts == e.posts && db.errors == e.errors && postedCount == e.count
  {
    postedCount := RunCycle(db, CycleOf(r), r.folder, clock);
  }
}
