/** The two classes of main.py that do the work, over a `Host` that stands
    for the working directory and the bot's outbound traffic. Each method is
    proved to change the host exactly as the functions of `Pipeline` say. */
module Ingest {
  import opened Feed
  import opened Translator
  import opened Publishing
  import opened Pipeline

  /** The state the bot reads and changes: the file `name` (None while it
      does not exist), the media files present, and every request made. */
  class Host {
    var cursor: Option<string>
    var media: set<string>
    var calls: seq<Call>

    constructor (initial: World)
      ensures State() == initial
    {
      cursor := initial.cursor;
      media := initial.media;
      calls := initial.calls;
    }

    function State(): World
      reads this
    {
      World(cursor, media, calls)
    }
  }

  class VideoProcessor {
    const config: Config

    constructor (config: Config)
      ensures this.config == config
    {
      this.config := config;
    }

    /** Download, translate, post, checkpoint, clean up; each failure returns
        early, and the two `RequestException`s come back as `Raised` verdicts
        for the caller to propagate. */
    method Parse(host: Host, data: Item, services: Services) returns (verdict: Verdict)
      modifies host
      ensures verdict == Judge(data, services)
      ensures host.State() == Apply(old(host.State()), data, config, verdict)
    {
      var name := data.name;
      var url := data.url;
      var filename := Filename(name);

      host.calls := host.calls + [Download(url, filename)];
      if !services.download(data) {
        return DownloadFailed;
      }
      host.media := host.media + {filename};

      var original := data.title;
      host.calls := host.calls + [RequestTranslation(original)];
      var translation := Translate(services.translator(data));
      if translation.TranslateException? {
        return TranslateRaised;
      }
      if translation.NoTranslation? {
        return TranslationFailed;
      }

      var message := Message(Caption(original, config.warning, translation.text, url), filename);
      host.calls := host.calls + [Post(message)];
      var reply := services.webhook(data);
      if reply.WebhookException? {
        return PostRaised(translation.text);
      }

      host.cursor := Some(name);
      if Truthy(config.deleteAfter) {
        host.media := host.media - {filename};
      }
      verdict := Checkpointed(translation.text, reply.Delivered?);
    }
  }

  class Runner {
    const config: Config

    constructor (config: Config)
      ensures this.config == config
    {
      this.config := config;
    }

    /** Read the cursor, fetch the page before it, and hand every eligible
        item to a fresh processor, oldest first; an exception from the fetch
        or from an item ends the run. */
    method Run(host: Host, services: Services)
      modifies host
      ensures host.State() == RunSpec(old(host.State()), config, services)
    {
      var anchor := "";
      if host.cursor.Some? {
        anchor := host.cursor.value;
      }
      var url := FeedUrl(config.subreddit, anchor);
      host.calls := host.calls + [FetchPage(url)];
      var response := services.feed(url);
      if response.FetchException? {
        return;
      }

      var children := response.children;
      assert children[..|children|] == children;
      var i := |children|;
      while i > 0
        invariant 0 <= i <= |children|
        invariant Walk(host.State(), Reversed(children[..i]), config, services)
               == RunSpec(old(host.State()), config, services)
      {
        i := i - 1;
        var data := children[i];
        ghost var items := Reversed(children[..i + 1]);
        assert children[..i + 1][..i] == children[..i];
        assert items[0] == data && items[1..] == Reversed(children[..i]);
        if !Eligible(data) {
          continue;
        }
        ghost var before := host.State();
        var processor := new VideoProcessor(config);
        var verdict := processor.Parse(host, data, services);
        if verdict.Raised() {
          WalkStops(before, items, config, services);
          return;
        }
        WalkContinues(before, items, config, services);
      }
    }
  }
}
