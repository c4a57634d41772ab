/** The specification of one run (main.py, VideoProcessor.parse and
    Runner.run) as functions over the state the bot can observe: the cursor
    file, the media files on disk and the ordered list of outbound requests.
    The outside services are oracles gathered in `Services`. */
module Pipeline {
  import opened Feed
  import opened Translator
  import opened Publishing

  /** The configuration entries the core reads. */
  datatype Config = Config(subreddit: string, warning: string, deleteAfter: Setting)

  /** The webhook's answer to a post: accepted, answered with an error status
      (which the bot never looks at), or a `RequestException`. */
  datatype WebhookReply = Delivered | Refused | WebhookException

  /** The outside world as the bot sees it: the page served at a listing URL,
      whether the download of an item writes its file, what the translation
      service answers for an item's title, and what the webhook answers to an
      item's post. */
  datatype Services = Services(
    feed: string -> Fetch,
    download: Item -> bool,
    translator: Item -> Reply,
    webhook: Item -> WebhookReply)

  /** An outbound request, recorded when it is made. */
  datatype Call =
    | FetchPage(url: string)
    | Download(source: string, target: string)
    | RequestTranslation(text: string)
    | Post(message: Message)

  /** The observable state: the contents of the file `name` (None while it
      does not exist), the media files present, and every request made so far. */
  datatype World = World(cursor: Option<string>, media: set<string>, calls: seq<Call>)

  /** How the processing of one item ended. The two `Raised` verdicts are the
      `RequestException`s that `parse` does not catch. */
  datatype Verdict =
    | DownloadFailed
    | TranslationFailed
    | TranslateRaised
    | PostRaised(translation: string)
    | Checkpointed(translation: string, delivered: bool)
  {
    predicate Raised() { TranslateRaised? || PostRaised? }
    predicate ReachedPost() { PostRaised? || Checkpointed? }
  }

  /** The targets of the downloads in `calls`, in order. */
  function Downloads(calls: seq<Call>): seq<string> {
    if calls == [] then []
    else Downloads(calls[..|calls| - 1]) + (if calls[|calls| - 1].Download? then [calls[|calls| - 1].target] else [])
  }

  /** The texts sent to the translation service in `calls`, in order. */
  function Translations(calls: seq<Call>): seq<string> {
    if calls == [] then []
    else Translations(calls[..|calls| - 1]) + (if calls[|calls| - 1].RequestTranslation? then [calls[|calls| - 1].text] else [])
  }

  /** The messages posted to the webhook in `calls`, in order. */
  function Posts(calls: seq<Call>): seq<Message> {
    if calls == [] then []
    else Posts(calls[..|calls| - 1]) + (if calls[|calls| - 1].Post? then [calls[|calls| - 1].message] else [])
  }

  /** Appending one request adds it to its own channel and to no other. */
  lemma ChannelsOfAppend(calls: seq<Call>, c: Call)
    ensures Downloads(calls + [c]) == Downloads(calls) + (if c.Download? then [c.target] else [])
    ensures Translations(calls + [c]) == Translations(calls) + (if c.RequestTranslation? then [c.text] else [])
    ensures Posts(calls + [c]) == Posts(calls) + (if c.Post? then [c.message] else [])
  {
    assert (calls + [c])[..|calls|] == calls;
  }

  /** The stage at which the processing of `item` stops, decided by the
      services alone. */
  function Judge(item: Item, services: Services): (v: Verdict)
    ensures v.DownloadFailed? <==> !services.download(item)
    ensures v.TranslateRaised? <==> services.download(item) && services.translator(item).ReplyException?
    ensures v.TranslationFailed? <==>
      && services.download(item)
      && services.translator(item).Reply?
      && (services.translator(item).status != 200 || services.translator(item).translatedText.None?)
    ensures v.PostRaised? <==>
      && services.download(item)
      && services.translator(item).Reply?
      && services.translator(item).status == 200
      && services.translator(item).translatedText.Some?
      && services.webhook(item).WebhookException?
    ensures v.Checkpointed? <==>
      && services.download(item)
      && services.translator(item).Reply?
      && services.translator(item).status == 200
      && services.translator(item).translatedText.Some?
      && !services.webhook(item).WebhookException?
    ensures v.ReachedPost() ==> services.translator(item).translatedText == Some(v.translation)
    ensures v.Checkpointed? ==> (v.delivered <==> services.webhook(item).Delivered?)
  {
    if !services.download(item) then DownloadFailed
    else
      match Translate(services.translator(item))
      case TranslateException => TranslateRaised
      case NoTranslation => TranslationFailed
      case Translated(text) =>
        match services.webhook(item)
        case WebhookException => PostRaised(text)
        case Delivered => Checkpointed(text, true)
        case Refused => Checkpointed(text, false)
  }

  /** The message posted for an item once its title is translated. */
  function MessageFor(item: Item, cfg: Config, translation: string): Message {
    Message(Caption(item.title, cfg.warning, translation, item.url), Filename(item.name))
  }

  /** What processing `item` with verdict `v` does to the world: the download
      is always attempted and leaves the file on disk when it succeeds; the
      cursor is overwritten with the item's name only after the post
      returned, and the file is removed only then. */
  function Apply(w: World, item: Item, cfg: Config, v: Verdict): (r: World)
    ensures r.cursor == (if v.Checkpointed? then Some(item.name) else w.cursor)
    ensures Filename(item.name) in r.media <==>
      (Filename(item.name) in w.media || !v.DownloadFailed?) && !(v.Checkpointed? && Truthy(cfg.deleteAfter))
    ensures forall f :: f != Filename(item.name) ==> (f in r.media <==> f in w.media)
  {
    var f := Filename(item.name);
    var downloading := w.(calls := w.calls + [Download(item.url, f)]);
    if v.DownloadFailed? then downloading
    else
      var asked := downloading.(media := downloading.media + {f}, calls := downloading.calls + [RequestTranslation(item.title)]);
      if !v.ReachedPost() then asked
      else
        var posted := asked.(calls := asked.calls + [Post(MessageFor(item, cfg, v.translation))]);
        if v.PostRaised? then posted
        else posted.(cursor := Some(item.name), media := if Truthy(cfg.deleteAfter) then posted.media - {f} else posted.media)
  }

  /** The requests one item makes, channel by channel: exactly one download;
      the title goes to the translator only after a download; exactly one
      post, with the caption and `name.mp4`, only when a translation came
      back. */
  lemma ApplyChannels(w: World, item: Item, cfg: Config, v: Verdict)
    ensures Downloads(Apply(w, item, cfg, v).calls) == Downloads(w.calls) + [Filename(item.name)]
    ensures Translations(Apply(w, item, cfg, v).calls)
         == Translations(w.calls) + (if v.DownloadFailed? then [] else [item.title])
    ensures Posts(Apply(w, item, cfg, v).calls)
         == Posts(w.calls) + (if v.ReachedPost() then [MessageFor(item, cfg, v.translation)] else [])
  {
    var f := Filename(item.name);
    var c1 := w.calls + [Download(item.url, f)];
    ChannelsOfAppend(w.calls, Download(item.url, f));
    if !v.DownloadFailed? {
      var c2 := c1 + [RequestTranslation(item.title)];
      ChannelsOfAppend(c1, RequestTranslation(item.title));
      if v.ReachedPost() {
        ChannelsOfAppend(c2, Post(MessageFor(item, cfg, v.translation)));
      }
    }
  }

  /** Processing an item only adds to the request log, and the first request
      it adds is the download of its video into `name.mp4`. */
  lemma ApplyExtendsCalls(w: World, item: Item, cfg: Config, v: Verdict)
    ensures w.calls + [Download(item.url, Filename(item.name))] <= Apply(w, item, cfg, v).calls
  {
    var c := w.calls + [Download(item.url, Filename(item.name))];
    if !v.DownloadFailed? {
      var c2 := c + [RequestTranslation(item.title)];
      assert c <= c2;
      if v.ReachedPost() {
        assert c2 <= c2 + [Post(MessageFor(item, cfg, v.translation))];
      }
    }
  }

  /** The loop of `run` over `items` (already in processing order): skip what
      is not eligible, process the rest one at a time, and stop at the first
      exception. */
  function Walk(w: World, items: seq<Item>, cfg: Config, services: Services): (r: World)
    decreases |items|
  {
    if items == [] then w
    else if !Eligible(items[0]) then Walk(w, items[1..], cfg, services)
    else
      var v := Judge(items[0], services);
      var next := Apply(w, items[0], cfg, v);
      if v.Raised() then next else Walk(next, items[1..], cfg, services)
  }

  /** An eligible item that raises ends the loop: it is the last item
      processed and the last one attempted. */
  lemma WalkStops(w: World, items: seq<Item>, cfg: Config, services: Services)
    requires items != [] && Eligible(items[0]) && Judge(items[0], services).Raised()
    ensures Walk(w, items, cfg, services) == Apply(w, items[0], cfg, Judge(items[0], services))
    ensures Attempted(items, services) == [items[0]]
  {
  }

  /** An eligible item that does not raise is processed and the loop goes
      on with the items after it. */
  lemma WalkContinues(w: World, items: seq<Item>, cfg: Config, services: Services)
    requires items != [] && Eligible(items[0]) && !Judge(items[0], services).Raised()
    ensures Walk(w, items, cfg, services)
         == Walk(Apply(w, items[0], cfg, Judge(items[0], services)), items[1..], cfg, services)
    ensures Attempted(items, services) == [items[0]] + Attempted(items[1..], services)
  {
  }

  /** The loop only adds to the request log. */
  lemma {:induction false} WalkExtendsCalls(w: World, items: seq<Item>, cfg: Config, services: Services)
    ensures w.calls <= Walk(w, items, cfg, services).calls
    decreases |items|
  {
    if items != [] {
      if !Eligible(items[0]) {
        WalkExtendsCalls(w, items[1..], cfg, services);
      } else {
        var v := Judge(items[0], services);
        var next := Apply(w, items[0], cfg, v);
        ApplyExtendsCalls(w, items[0], cfg, v);
        if !v.Raised() {
          WalkExtendsCalls(next, items[1..], cfg, services);
        }
      }
    }
  }

  /** One run: ask for the page before the cursor, then walk it oldest first;
      a failed fetch ends the run at once. */
  function RunSpec(w: World, cfg: Config, services: Services): (r: World)
  {
    var url := FeedUrl(cfg.subreddit, Anchor(w.cursor));
    var asked := w.(calls := w.calls + [FetchPage(url)]);
    match services.feed(url)
    case FetchException => asked
    case Page(children) =>
      Walk(asked, Reversed(children), cfg, services)
  }

  /** The items of `items` that the loop gets to: all of them, or those up to
      and including the first whose processing raises. */
  function Attempted(items: seq<Item>, services: Services): seq<Item>
  {
    if items == [] then []
    else if Judge(items[0], services).Raised() then [items[0]]
    else [items[0]] + Attempted(items[1..], services)
  }

  /** The attempted items are a prefix of `items`; none but the last raises,
      and the last raises whenever the loop stopped before the end. */
  lemma {:induction false} AttemptedStopsAtFirstRaise(items: seq<Item>, services: Services)
    ensures var r := Attempted(items, services);
      && |r| <= |items| && r == items[..|r|]
      && (forall k :: 0 <= k < |r| - 1 ==> !Judge(r[k], services).Raised())
      && (|r| < |items| ==> |r| > 0 && Judge(r[|r| - 1], services).Raised())
    decreases |items|
  {
    if items != [] && !Judge(items[0], services).Raised() {
      var rest := items[1..];
      AttemptedStopsAtFirstRaise(rest, services);
      var a := Attempted(rest, services);
      var r := [items[0]] + a;
      assert Attempted(items, services) == r;
      assert r == items[..|r|] by {
        assert a == rest[..|a|];
      }
      assert forall k :: 1 <= k < |r| ==> r[k] == a[k - 1];
    }
  }

  /** The name of the last item of `items` that is checkpointed, if any. */
  function LastCheckpointed(items: seq<Item>, services: Services): (r: Option<string>)
    ensures r.None? <==> forall k :: 0 <= k < |items| ==> !Judge(items[k], services).Checkpointed?
    ensures r.Some? ==>
      exists k :: (&& 0 <= k < |items|
                   && items[k].name == r.value
                   && Judge(items[k], services).Checkpointed?
                   && forall j :: k < j < |items| ==> !Judge(items[j], services).Checkpointed?)
  {
    if items == [] then None
    else if Judge(items[|items| - 1], services).Checkpointed? then Some(items[|items| - 1].name)
    else
      var r := LastCheckpointed(items[..|items| - 1], services);
      assert forall k :: 0 <= k < |items| - 1 ==> items[..|items| - 1][k] == items[k];
      r
  }

  /** The file names of the downloads of `items`, in order. */
  function Filenames(items: seq<Item>): seq<string> {
    if items == [] then [] else [Filename(items[0].name)] + Filenames(items[1..])
  }
}
