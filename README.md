# reddit-discord: the checkpointed ingestion loop, in Dafny

The bot reads one page of a subreddit's listing per run. It walks the page
oldest first and skips stickied posts and posts that are not videos. For
each remaining post it downloads the video, translates the title and posts
the video with a caption to a Discord webhook. It then writes the post's
fullname (`name`) to a file called `name`, which becomes the `before=`
anchor of the next run. This project models that core of `main.py`
(`Translator.translate`, `VideoProcessor.parse` and `Runner.run`) and proves
what it does with the cursor, the media files and the outbound requests.

Layout:

- `feed.dfy` (module `Feed`): listing items, the eligibility test, the
  anchor and the listing URL, and Python's `reversed`.
- `translator.dfy` (module `Translator`): the translation service's answer
  and what `translate` makes of it.
- `publishing.dfy` (module `Publishing`): the media file name, the webhook
  caption, and the truthiness of the `delete_after` setting.
- `pipeline.dfy` (module `Pipeline`): the specification as functions over a
  `World`. `Judge` gives the stage at which an item stops. `Apply` gives the
  effects of one item. `Walk` is the loop. `RunSpec` is a whole run.
- `ingest.dfy` (module `Ingest`): the classes. `Host` holds the mutable
  state. `VideoProcessor.Parse` and `Runner.Run` are imperative methods,
  proved to change the host exactly as `Apply` and `RunSpec` say.
- `properties.dfy` (module `Properties`): lemmas about one run.

The outside world is a `Services` value of oracles:

- the page (or a `RequestException`) served at a listing URL;
- whether yt_dlp writes an item's file;
- the translation service's answer for an item;
- the webhook's answer to an item's post.

The state is three fields:

- `cursor`: the contents of the file `name`, `None` while the file does not exist;
- `media`: the set of media files on disk;
- `calls`: every outbound request, in order (listing fetch, download, translation request, webhook post).

Behaviour reproduced as the code has it:

- `execute()`'s response is never read (main.py:67, 76). A post the webhook refuses is still checkpointed.
- A `RequestException` raised by the translation request, or by the webhook
  call, is not caught in `parse`. It reaches the `except` in `run`
  (main.py:110) and ends the run; the remaining items of the page are not
  looked at. A `None` translation skips only its own item (main.py:57-59).
- A newer item that succeeds moves the cursor past an older item of the same
  page that failed.
- The download target and the attachment are both `name + ".mp4"` (main.py:40, 66, 75).
- The media file is removed only after the webhook call returns without
  raising and the cursor is written, and only when `delete_after` is truthy
  (main.py:78-82). A failed translation or a webhook exception leaves it on disk.
- The webhook's answer is ignored, so the outcome of an item is only: the
  download failed, no translation, an exception, or checkpointed.
- The cursor file is overwritten in place with `open("name", "w+")` (main.py:78-79).
- Without a cursor file the URL still ends in `?before=`, with an empty
  anchor (main.py:91-95); an empty cursor file gives the same URL.

## Model

| member | source | states |
|---|---|---|
| `Translator.Translate` | main.py:18-25 | a text comes back exactly when the status is 200 and `translated_text` is present, and it is that field; any other answer gives nothing; an exception from the request is passed on |
| `Feed.Anchor` | main.py:91-94 | the anchor is the cursor file's contents; it is empty exactly when the file is missing or empty |
| `Feed.FeedUrlLayout` | main.py:95-99 | the URL is `https://www.reddit.com`, the subreddit path, `.json?before=` and the anchor, each recoverable at its position |
| `Feed.FeedUrlDeterminesAnchor` | main.py:95-99 | two different anchors give two different listing URLs for the same subreddit |
| `Feed.Eligibles` | main.py:106-108 | the items kept are exactly the items that are neither stickied nor non-video |
| `Feed.Reversed` | main.py:105 | `reversed(children)`: as many items as the page |
| `Feed.EligiblesOfAppend` | main.py:105-108 | filtering keeps the order and multiplicity of the page: the kept items of two consecutive stretches are those of the first followed by those of the second |
| `Feed.ReversedAt` | main.py:105 | position k of the walked sequence is position n-1-k of the page, so the page is walked oldest first |
| `Feed.ReversedSameElements` | main.py:105 | reversing the page neither drops nor adds items |
| `Publishing.FilenameLayout` | main.py:40 | the download target and attachment name is the post's `name` followed by `.mp4`, so two posts with different names never share a file |
| `Publishing.Caption` | main.py:61-76 | a message has no content exactly when the title is empty |
| `Publishing.CaptionLayout` | main.py:72 | with a title, the content is the title, a newline, the warning, `: `, the translation, a newline, and the URL in angle brackets, each at its own position |
| `Publishing.Truthy` | main.py:81 | Python truthiness of `delete_after`: unset and `false` are false, a number is true unless 0, a string unless empty; its consequence for environment strings is the next row |
| `Publishing.EnvironmentTextIsTruthy` | main.py:81 | a string setting deletes the file exactly when it is non-empty, so `"false"` and `"0"` from the environment delete it; an unset one never does |
| `Pipeline.Judge` | main.py:47-79 | each of the five outcomes exactly: a failed download; a translator exception after a download; no translation (status other than 200 or no `translated_text`); a webhook exception after a translation; otherwise checkpointed, with a refused post checkpointed too |
| `Pipeline.Apply` | main.py:36-82 | one item: the cursor is overwritten with `name` exactly when the item is checkpointed, after the post; the file `name.mp4` is on disk after a successful download and is removed only after the cursor write, and only when `delete_after` is truthy; no other file changes |
| `Pipeline.ApplyChannels` | main.py:41-76 | one item makes exactly one download into `name.mp4`; its title goes to the translator only after a successful download; exactly one post, with the caption and `name.mp4`, is made exactly when a translation came back |
| `Pipeline.ApplyExtendsCalls` | main.py:41-49 | one item only adds requests, and the first is the download of its URL |
| `Pipeline.Walk` | main.py:105-111 | the loop over the reversed page: ineligible items are skipped, the rest processed in order, and the first exception ends it; its properties are stated by the lemmas below |
| `Pipeline.WalkExtendsCalls` | main.py:105-109 | the loop only appends to the request log |
| `Pipeline.RunSpec` | main.py:90-111 | one run: the fetch of the page before the cursor, then the loop over the reversed page unless the fetch raised; its properties are stated by the `Run*` lemmas |
| `Pipeline.AttemptedStopsAtFirstRaise` | main.py:105-111 | the items the loop reaches are a prefix of the sequence that stops right after the first item whose processing raises |
| `Pipeline.LastCheckpointed` | main.py:78-79 | the name of the last checkpointed item, and none exactly when no item was checkpointed |
| `Ingest.VideoProcessor.Parse` | main.py:36-82 | the method returns the item's verdict and changes the host exactly as `Apply` says |
| `Ingest.Runner.Run` | main.py:90-111 | the method reads the cursor, fetches, walks the page backwards skipping ineligible items, stops at an exception, and leaves the host exactly as `RunSpec` says |
| `Properties.WalkSkipsIneligible` | main.py:106-109 | the loop behaves as if the page held only its eligible items; stickied and non-video items touch nothing |
| `Properties.LastCheckpointedCons` | main.py:78-79 | the last checkpointed item of `[x] + t` is that of `t`, or `x` when `t` has none |
| `Properties.CursorAfterWalk` | main.py:105-109 | after the loop, the cursor is the name of the last item in processing order that was checkpointed before an exception stopped it, or unchanged when there is none |
| `Properties.DownloadsAfterWalk` | main.py:105-109 | items are downloaded one at a time in processing order, up to and including the one that raised |
| `Properties.RunCursor` | main.py:90-111 | after a run, the cursor is unchanged if the fetch raised; otherwise it is the last checkpointed eligible item of the reversed page, or unchanged |
| `Properties.RunFetchesFirst` | main.py:91-99 | the first request of a run fetches the listing URL built from the cursor file's contents, or from the empty anchor when the file does not exist |
| `Properties.RunDownloadsOldestFirst` | main.py:97-109 | a run downloads the eligible items of the page oldest first, up to the item that raised |
| `Properties.FetchFailureTouchesNothing` | main.py:97-111 | a fetch that raises processes no item and leaves the cursor and the media files as they were |
| `Properties.NothingEligibleNothingDone` | main.py:105-109 | a page without an eligible item causes no download, translation, post or cursor write |
| `Properties.DownloadFailureSkipsItem` | main.py:47-52 | a failed download means no translation, no post and no cursor write for that item, and the loop goes on with the next item |
| `Properties.NoTranslationSkipsOnlyItem` | main.py:56-59 | a `None` translation stops the item before any post or cursor write, keeps its file, and the loop goes on |
| `Properties.TranslateExceptionEndsRun` | main.py:56-111 | an exception from the translation request ends the run at that item, with the cursor unchanged |
| `Properties.PostExceptionEndsRun` | main.py:67-111 | an exception from the webhook call ends the run after the attempted post, with the cursor unchanged |
| `Properties.RefusedPostStillCheckpoints` | main.py:76-79 | the webhook's answer is not checked, so a refused post still moves the cursor to the item |
| `Properties.OlderFailureOvertaken` | main.py:105-109 | an older item that fails at download or translation is passed over: the newer item's success moves the cursor past it, and only the newer item is posted |
| `Properties.BothCheckpointed` | main.py:105-109 | two eligible items that are both checkpointed are processed one after the other, in order |
| `Properties.ScenarioMessages` | main.py:40-76 | the messages for a post with an empty title and for one titled "Hello" |
| `Properties.TwoItemScenario` | main.py:90-111 | a first run over a page of two videos, newest first, processes the older one first, posts it with no text, posts the newer one with the three-line caption, and leaves the cursor at the newer one |

## Left out

- HTTP transport, the `User-agent` header, the translator's endpoint, engine and language parameters, and the webhook URL. The model records each request by the data it carries and gets the answer from an oracle.
- The shape of the listing's JSON. A response without `data`/`children`, or an item without one of the fields read, raises `KeyError`. That error is not caught and stops the process. The model takes the page as already parsed.
- yt_dlp's internals, including its format string. A download is an oracle that succeeds or fails. A partial file left by a failed download is not modelled.
- Reading the media file for the attachment (main.py:65-66, 74-75), and a failure of that `open`, are not modelled.
- An `OSError` from writing the file `name` or from `os.remove` is not modelled.
- discord_webhook is not part of this model. Its `execute` is taken to return an answer the bot ignores, or to raise a `RequestException` on transport failure. Its rate-limit retries are not modelled.
- A `translated_text` value that is JSON but not a string is not modelled. The f-string would format it.
- A 200 translator answer whose JSON body is not an object (a list or a string) makes `.get` raise `AttributeError` (main.py:23). That error is not a `RequestException`, escapes the `except` at main.py:110 and stops the process; `Reply` cannot express it.
- `delete_after` values other than unset, boolean, integer or string (TOML floats, arrays, tables) are not modelled.
- Each oracle is keyed by the item, so the same item asked twice in one run would get the same answer. The model assumes a page holds each item at most once; `main.py` does not check this, and a page with a repeated item would be asked twice.
- `parse_args`, `load_config`, `configure_logging`, the `__main__` block and all logging are bootstrapping and I/O. The configuration the core reads is passed in as a `Config` value instead of the module-global `config`.
