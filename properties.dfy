/** What one run of the bot guarantees, and what it does not: which items
    reach the processor, the order they are processed in, where the cursor
    ends up, and how each kind of failure is treated (main.py, Runner.run and
    VideoProcessor.parse). */
module Properties {
  import opened Feed
  import opened Translator
  import opened Publishing
  import opened Pipeline

  /** Items that are stickied or not videos are skipped without a trace: the
      loop behaves exactly as if the page held only the eligible items. */
  lemma {:induction false} WalkSkipsIneligible(w: World, items: seq<Item>, cfg: Config, s: Services)
    ensures Walk(w, items, cfg, s) == Walk(w, Eligibles(items), cfg, s)
    decreases |items|
  {
    if items != [] {
      var x, rest := items[0], items[1..];
      if !Eligible(x) {
        assert Eligibles(items) == Eligibles(rest);
        WalkSkipsIneligible(w, rest, cfg, s);
      } else {
        var e := Eligibles(items);
        assert e == [x] + Eligibles(rest);
        assert e[0] == x && e[1..] == Eligibles(rest);
        var v := Judge(x, s);
        if !v.Raised() {
          WalkSkipsIneligible(Apply(w, x, cfg, v), rest, cfg, s);
        }
      }
    }
  }

  /** The last checkpointed item of `[x] + t` is that of `t`, or `x` itself
      when `t` has none. */
  lemma {:induction false} LastCheckpointedCons(x: Item, t: seq<Item>, s: Services)
    ensures LastCheckpointed([x] + t, s)
         == LastCheckpointed(t, s).Or(if Judge(x, s).Checkpointed? then Some(x.name) else None)
    decreases |t|
  {
    var xs := [x] + t;
    if t == [] {
      assert xs[..|xs| - 1] == [];
    } else {
      var n := |t|;
      assert xs[|xs| - 1] == t[n - 1];
      if !Judge(t[n - 1], s).Checkpointed? {
        assert xs[..|xs| - 1] == [x] + t[..n - 1];
        LastCheckpointedCons(x, t[..n - 1], s);
      }
    }
  }

  /** Over a sequence of eligible items the cursor ends as the name of the
      last item, in processing order, that was checkpointed before the loop
      stopped; when there is none it keeps its old value. */
  lemma {:induction false} CursorAfterWalk(w: World, items: seq<Item>, cfg: Config, s: Services)
    requires forall k :: 0 <= k < |items| ==> Eligible(items[k])
    ensures Walk(w, items, cfg, s).cursor == LastCheckpointed(Attempted(items, s), s).Or(w.cursor)
    decreases |items|
  {
    if items != [] {
      var x := items[0];
      var v := Judge(x, s);
      if v.Raised() {
        assert Attempted(items, s) == [x] + [];
        LastCheckpointedCons(x, [], s);
      } else {
        CursorAfterWalk(Apply(w, x, cfg, v), items[1..], cfg, s);
        LastCheckpointedCons(x, Attempted(items[1..], s), s);
      }
    }
  }

  /** The downloads of a loop that stops at its first item. */
  lemma DownloadsWhenFirstRaises(w: World, items: seq<Item>, cfg: Config, s: Services)
    requires items != [] && Eligible(items[0]) && Judge(items[0], s).Raised()
    ensures Downloads(Walk(w, items, cfg, s).calls) == Downloads(w.calls) + Filenames(Attempted(items, s))
  {
    var x := items[0];
    WalkStops(w, items, cfg, s);
    ApplyChannels(w, x, cfg, Judge(x, s));
    assert Filenames([x]) == [Filename(x.name)] + Filenames([]);
  }

  /** When the first item does not raise, the files of the attempted items
      are its file followed by those of the rest. */
  lemma FilenamesOfAttemptedCons(items: seq<Item>, s: Services)
    requires items != [] && !Judge(items[0], s).Raised()
    ensures Filenames(Attempted(items, s)) == [Filename(items[0].name)] + Filenames(Attempted(items[1..], s))
  {
    var a := Attempted(items[1..], s);
    assert Attempted(items, s) == [items[0]] + a;
    assert ([items[0]] + a)[1..] == a;
  }

  /** The downloads of a loop that goes on past its first item, given those
      of the rest of the loop. */
  lemma DownloadsWhenFirstContinues(w: World, items: seq<Item>, cfg: Config, s: Services)
    requires items != [] && Eligible(items[0]) && !Judge(items[0], s).Raised()
    requires var next := Apply(w, items[0], cfg, Judge(items[0], s));
      Downloads(Walk(next, items[1..], cfg, s).calls) == Downloads(next.calls) + Filenames(Attempted(items[1..], s))
    ensures Downloads(Walk(w, items, cfg, s).calls) == Downloads(w.calls) + Filenames(Attempted(items, s))
  {
    var next := Apply(w, items[0], cfg, Judge(items[0], s));
    WalkContinues(w, items, cfg, s);
    ApplyChannels(w, items[0], cfg, Judge(items[0], s));
    FilenamesOfAttemptedCons(items, s);
    var d, f, rest := Downloads(w.calls), Filename(items[0].name), Filenames(Attempted(items[1..], s));
    calc {
      Downloads(Walk(w, items, cfg, s).calls);
      Downloads(next.calls) + rest;
      (d + [f]) + rest;
      d + ([f] + rest);
    }
  }

  /** Over a sequence of eligible items the downloads happen one item at a
      time, in the order of the sequence, up to the item that raised. */
  lemma {:induction false} DownloadsAfterWalk(w: World, items: seq<Item>, cfg: Config, s: Services)
    requires forall k :: 0 <= k < |items| ==> Eligible(items[k])
    ensures Downloads(Walk(w, items, cfg, s).calls) == Downloads(w.calls) + Filenames(Attempted(items, s))
    decreases |items|
  {
    if items != [] {
      var v := Judge(items[0], s);
      if v.Raised() {
        DownloadsWhenFirstRaises(w, items, cfg, s);
      } else {
        DownloadsAfterWalk(Apply(w, items[0], cfg, v), items[1..], cfg, s);
        DownloadsWhenFirstContinues(w, items, cfg, s);
      }
    }
  }

  /** Where the cursor is after a run: unchanged when the fetch raised;
      otherwise the name of the last eligible item, oldest first, that was
      checkpointed before an exception stopped the loop, or unchanged when
      there is none. */
  lemma RunCursor(w: World, cfg: Config, s: Services)
    ensures RunSpec(w, cfg, s).cursor ==
      match s.feed(FeedUrl(cfg.subreddit, Anchor(w.cursor)))
      case FetchException => w.cursor
      case Page(children) => LastCheckpointed(Attempted(Eligibles(Reversed(children)), s), s).Or(w.cursor)
  {
    var url := FeedUrl(cfg.subreddit, Anchor(w.cursor));
    var asked := w.(calls := w.calls + [FetchPage(url)]);
    match s.feed(url)
    case FetchException =>
    case Page(children) =>
      WalkSkipsIneligible(asked, Reversed(children), cfg, s);
      CursorAfterWalk(asked, Eligibles(Reversed(children)), cfg, s);
  }

  /** The files a run downloads are those of the eligible items of the page
      taken oldest first (the page reversed), up to the item that raised. */
  lemma RunDownloadsOldestFirst(w: World, cfg: Config, s: Services)
    requires s.feed(FeedUrl(cfg.subreddit, Anchor(w.cursor))).Page?
    ensures var children := s.feed(FeedUrl(cfg.subreddit, Anchor(w.cursor))).children;
      Downloads(RunSpec(w, cfg, s).calls)
      == Downloads(w.calls) + Filenames(Attempted(Eligibles(Reversed(children)), s))
  {
    var url := FeedUrl(cfg.subreddit, Anchor(w.cursor));
    var asked := w.(calls := w.calls + [FetchPage(url)]);
    var children := s.feed(url).children;
    var e := Eligibles(Reversed(children));
    assert RunSpec(w, cfg, s) == Walk(asked, Reversed(children), cfg, s);
    ChannelsOfAppend(w.calls, FetchPage(url));
    assert Downloads(asked.calls) == Downloads(w.calls);
    WalkSkipsIneligible(asked, Reversed(children), cfg, s);
    assert RunSpec(w, cfg, s) == Walk(asked, e, cfg, s);
    DownloadsAfterWalk(asked, e, cfg, s);
  }

  /** The first request of a run is the fetch of the listing page before
      the cursor: the file's contents, or the empty anchor without a file. */
  lemma RunFetchesFirst(w: World, cfg: Config, s: Services)
    ensures w.calls + [FetchPage(FeedUrl(cfg.subreddit, Anchor(w.cursor)))] <= RunSpec(w, cfg, s).calls
  {
    var url := FeedUrl(cfg.subreddit, Anchor(w.cursor));
    var asked := w.(calls := w.calls + [FetchPage(url)]);
    if s.feed(url).Page? {
      WalkExtendsCalls(asked, Reversed(s.feed(url).children), cfg, s);
    }
  }

  /** A run whose fetch raises only records the request: no item is
      processed and the cursor and the media files are untouched. */
  lemma FetchFailureTouchesNothing(w: World, cfg: Config, s: Services)
    requires s.feed(FeedUrl(cfg.subreddit, Anchor(w.cursor))).FetchException?
    ensures RunSpec(w, cfg, s) == w.(calls := w.calls + [FetchPage(FeedUrl(cfg.subreddit, Anchor(w.cursor)))])
  {
  }

  /** A page without an eligible item leaves everything but the fetch request
      as it was: no download, translation or post, the same cursor. */
  lemma NothingEligibleNothingDone(w: World, cfg: Config, s: Services)
    requires s.feed(FeedUrl(cfg.subreddit, Anchor(w.cursor))).Page?
    requires forall x :: x in s.feed(FeedUrl(cfg.subreddit, Anchor(w.cursor))).children ==> !Eligible(x)
    ensures RunSpec(w, cfg, s) == w.(calls := w.calls + [FetchPage(FeedUrl(cfg.subreddit, Anchor(w.cursor)))])
  {
    var url := FeedUrl(cfg.subreddit, Anchor(w.cursor));
    var asked := w.(calls := w.calls + [FetchPage(url)]);
    var r := Reversed(s.feed(url).children);
    ReversedSameElements(s.feed(url).children);
    WalkSkipsIneligible(asked, r, cfg, s);
    assert Eligibles(r) == [] by {
      if Eligibles(r) != [] {
        assert false;
      }
    }
  }

  /** A failed download ends that item with only the download attempted (no
      translation, no post, the cursor as it was) and the loop goes on. */
  lemma DownloadFailureSkipsItem(w: World, x: Item, rest: seq<Item>, cfg: Config, s: Services)
    requires Eligible(x) && !s.download(x)
    ensures var after := Apply(w, x, cfg, DownloadFailed);
      && Walk(w, [x] + rest, cfg, s) == Walk(after, rest, cfg, s)
      && after.cursor == w.cursor
      && Translations(after.calls) == Translations(w.calls)
      && Posts(after.calls) == Posts(w.calls)
  {
    assert ([x] + rest)[1..] == rest;
    ApplyChannels(w, x, cfg, DownloadFailed);
  }

  /** A translation answer that is not 200 or has no `translated_text` ends
      that item after the request, before any post or cursor write, and the
      loop goes on. */
  lemma NoTranslationSkipsOnlyItem(w: World, x: Item, rest: seq<Item>, cfg: Config, s: Services)
    requires Eligible(x) && s.download(x)
    requires s.translator(x).Reply? && (s.translator(x).status != 200 || s.translator(x).translatedText.None?)
    ensures var after := Apply(w, x, cfg, TranslationFailed);
      && Walk(w, [x] + rest, cfg, s) == Walk(after, rest, cfg, s)
      && after.cursor == w.cursor
      && Posts(after.calls) == Posts(w.calls)
      && Filename(x.name) in after.media
  {
    assert ([x] + rest)[1..] == rest;
    ApplyChannels(w, x, cfg, TranslationFailed);
  }

  /** A `RequestException` from the translation request is not caught by
      `parse`: it ends the whole run, and the items after it are never
      looked at. */
  lemma TranslateExceptionEndsRun(w: World, x: Item, rest: seq<Item>, cfg: Config, s: Services)
    requires Eligible(x) && s.download(x) && s.translator(x).ReplyException?
    ensures Walk(w, [x] + rest, cfg, s) == Apply(w, x, cfg, TranslateRaised)
    ensures Walk(w, [x] + rest, cfg, s).cursor == w.cursor
  {
  }

  /** A `RequestException` from the webhook call is not caught either: the
      post was attempted, the cursor is not written, and the run ends. */
  lemma PostExceptionEndsRun(w: World, x: Item, rest: seq<Item>, cfg: Config, s: Services)
    requires Eligible(x) && s.download(x) && s.webhook(x).WebhookException?
    requires s.translator(x).Reply? && s.translator(x).status == 200 && s.translator(x).translatedText.Some?
    ensures Walk(w, [x] + rest, cfg, s) == Apply(w, x, cfg, PostRaised(s.translator(x).translatedText.value))
    ensures Walk(w, [x] + rest, cfg, s).cursor == w.cursor
    ensures |Posts(Walk(w, [x] + rest, cfg, s).calls)| == |Posts(w.calls)| + 1
  {
    ApplyChannels(w, x, cfg, PostRaised(s.translator(x).translatedText.value));
  }

  /** The webhook's answer is never checked: a refused post is checkpointed
      just like a delivered one. */
  lemma RefusedPostStillCheckpoints(w: World, x: Item, rest: seq<Item>, cfg: Config, s: Services)
    requires Eligible(x) && s.download(x)
    requires s.translator(x).Reply? && s.translator(x).status == 200 && s.translator(x).translatedText.Some?
    requires s.webhook(x) == Refused
    ensures var after := Apply(w, x, cfg, Judge(x, s));
      && Walk(w, [x] + rest, cfg, s) == Walk(after, rest, cfg, s)
      && after.cursor == Some(x.name)
  {
    assert ([x] + rest)[1..] == rest;
  }

  /** An older item that fails without raising does not hold the cursor
      back: a newer item checkpointed after it moves the cursor past it, and
      only the newer item's message is posted. */
  lemma OlderFailureOvertaken(w: World, older: Item, newer: Item, cfg: Config, s: Services)
    requires Eligible(older) && Eligible(newer)
    requires Judge(older, s) == DownloadFailed || Judge(older, s) == TranslationFailed
    requires Judge(newer, s).Checkpointed?
    ensures Walk(w, [older, newer], cfg, s).cursor == Some(newer.name)
    ensures Posts(Walk(w, [older, newer], cfg, s).calls)
         == Posts(w.calls) + [MessageFor(newer, cfg, Judge(newer, s).translation)]
  {
    var pair := [older, newer];
    assert pair[0] == older && pair[1..] == [newer];
    var after := Apply(w, older, cfg, Judge(older, s));
    assert Walk(w, pair, cfg, s) == Walk(after, [newer], cfg, s);
    assert [newer][1..] == [];
    assert Walk(after, [newer], cfg, s) == Apply(after, newer, cfg, Judge(newer, s));
    ApplyChannels(w, older, cfg, Judge(older, s));
    ApplyChannels(after, newer, cfg, Judge(newer, s));
  }

  /** Two eligible items that are both checkpointed are processed one after
      the other. */
  lemma BothCheckpointed(w: World, x: Item, y: Item, cfg: Config, s: Services)
    requires Eligible(x) && Eligible(y) && Judge(x, s).Checkpointed? && Judge(y, s).Checkpointed?
    ensures Walk(w, [x, y], cfg, s) == Apply(Apply(w, x, cfg, Judge(x, s)), y, cfg, Judge(y, s))
  {
    var afterX := Apply(w, x, cfg, Judge(x, s));
    assert [x, y][1..] == [y] && [y][1..] == [];
    WalkContinues(w, [x, y], cfg, s);
    WalkContinues(afterX, [y], cfg, s);
  }

  /** The two messages of the scenario below, worked out. */
  lemma ScenarioMessages(cfg: Config, ua: string, ub: string, ta: string, tb: string)
    ensures MessageFor(Item("a", "", ua, false, true), cfg, ta) == Message(None, "a.mp4")
    ensures MessageFor(Item("b", "Hello", ub, false, true), cfg, tb)
         == Message(Some("Hello\n" + cfg.warning + ": " + tb + "\n<" + ub + ">"), "b.mp4")
  {
    assert Filename("a") == "a.mp4";
    assert Filename("b") == "b.mp4";
    assert "Hello" != "" by { assert "Hello"[0] == 'H'; }
    assert "Hello\n" == "Hello" + "\n";
  }

  /** A first run over a page of two videos, newest ("b", titled "Hello")
      first: "a" is processed first and posted with no text, then "b" with
      the three-line caption, and the cursor ends at "b". */
  lemma TwoItemScenario(w: World, cfg: Config, s: Services, ua: string, ub: string, ta: string, tb: string)
    requires w.cursor == None
    requires s.feed(FeedUrl(cfg.subreddit, "")) == Page([Item("b", "Hello", ub, false, true), Item("a", "", ua, false, true)])
    requires s.download(Item("a", "", ua, false, true)) && s.download(Item("b", "Hello", ub, false, true))
    requires s.translator(Item("a", "", ua, false, true)) == Reply(200, Some(ta))
    requires s.translator(Item("b", "Hello", ub, false, true)) == Reply(200, Some(tb))
    requires s.webhook(Item("a", "", ua, false, true)) == Delivered
    requires s.webhook(Item("b", "Hello", ub, false, true)) == Delivered
    ensures RunSpec(w, cfg, s).cursor == Some("b")
    ensures Posts(RunSpec(w, cfg, s).calls) == Posts(w.calls) + [
      Message(None, "a.mp4"),
      Message(Some("Hello\n" + cfg.warning + ": " + tb + "\n<" + ub + ">"), "b.mp4")]
  {
    var a, b := Item("a", "", ua, false, true), Item("b", "Hello", ub, false, true);
    var url := FeedUrl(cfg.subreddit, "");
    var asked := w.(calls := w.calls + [FetchPage(url)]);
    ChannelsOfAppend(w.calls, FetchPage(url));
    assert [b, a][..1] == [b];
    assert Reversed([b, a]) == [a, b];
    assert Judge(a, s) == Checkpointed(ta, true) && Judge(b, s) == Checkpointed(tb, true);
    var afterA := Apply(asked, a, cfg, Checkpointed(ta, true));
    var afterB := Apply(afterA, b, cfg, Checkpointed(tb, true));
    BothCheckpointed(asked, a, b, cfg, s);
    assert RunSpec(w, cfg, s) == Walk(asked, [a, b], cfg, s);
    ApplyChannels(asked, a, cfg, Checkpointed(ta, true));
    ApplyChannels(afterA, b, cfg, Checkpointed(tb, true));
    ScenarioMessages(cfg, ua, ub, ta, tb);
  }
}
