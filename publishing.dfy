/** What the video processor hands to the webhook (main.py, VideoProcessor.parse):
    the name of the downloaded file, the caption, and the configuration flag
    that decides whether the file is removed afterwards. */
module Publishing {
  import opened Feed

  const Extension := ".mp4"
  const CaptionWarningSeparator := ": "

  /** One webhook request: the message text (None when the request carries
      no content) and the single attachment, named as the file on disk. */
  datatype Message = Message(content: Option<string>, filename: string)

  /** The output template of the download and the attachment's name. */
  function Filename(name: string): string {
    name + Extension
  }

  /** The file name is the item's name followed by the extension, so two
      different names never share a file. */
  lemma FilenameLayout(name: string, other: string)
    ensures |Filename(name)| == |name| + |Extension|
    ensures Filename(name)[..|name|] == name && Filename(name)[|name|..] == Extension
    ensures Filename(name) == Filename(other) ==> name == other
  {
    if Filename(name) == Filename(other) {
      assert name == Filename(name)[..|name|] == Filename(other)[..|other|] == other;
    }
  }

  /** The webhook content for an item: nothing for an empty title; otherwise
      three lines, the title, the warning label with the translation, and the
      post's URL in angle brackets. */
  function Caption(title: string, warning: string, translation: string, url: string): (c: Option<string>)
    ensures c.None? <==> title == ""
  {
    if title == "" then None
    else Some(title + "\n" + warning + CaptionWarningSeparator + translation + "\n<" + url + ">")
  }

  /** Where each part of a non-empty caption sits. */
  lemma CaptionLayout(title: string, warning: string, translation: string, url: string)
    requires title != ""
    ensures Caption(title, warning, translation, url).Some?
    ensures var s := Caption(title, warning, translation, url).value;
      var w := |title| + 1;
      var t := w + |warning| + |CaptionWarningSeparator|;
      var u := t + |translation| + 2;
      && |s| == u + |url| + 1
      && s[..|title|] == title && s[|title|] == '\n'
      && s[w..w + |warning|] == warning
      && s[w + |warning|..t] == CaptionWarningSeparator
      && s[t..t + |translation|] == translation
      && s[t + |translation|..u] == "\n<"
      && s[u..u + |url|] == url && s[u + |url|] == '>'
  {
  }

  /** A configuration value as `load_config` can deliver it: missing (an unset
      environment variable), a TOML boolean or integer, or a string (every
      environment variable). */
  datatype Setting = Unset | Flag(flag: bool) | Number(number: int) | Text(text: string)

  /** Python truthiness of a setting, as tested by `if self.DELETE_AFTER:`. */
  predicate Truthy(v: Setting) {
    match v
    case Unset => false
    case Flag(b) => b
    case Number(n) => n != 0
    case Text(s) => s != ""
  }

  /** An environment variable is always a string, so any non-empty value
      turns deletion on, "false" and "0" included; only an empty or unset
      variable leaves the files on disk. */
  lemma EnvironmentTextIsTruthy(s: string)
    ensures Truthy(Text(s)) <==> s != ""
    ensures Truthy(Text("false")) && Truthy(Text("0")) && !Truthy(Unset)
  {
    assert "false"[0] == 'f' && "0"[0] == '0';
  }
}
