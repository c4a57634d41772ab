/** The listing side of the bot: the items of one subreddit page, which of
    them the runner hands on, the URL it asks for, and the order it walks
    the page in (main.py, Runner.run). */
module Feed {

  datatype Option<T> = None | Some(value: T) {
    /** This value if there is one, otherwise `fallback`. */
    function Or(fallback: Option<T>): Option<T> {
      if Some? then this else fallback
    }
  }

  /** One `child["data"]` of the listing, reduced to the fields the bot reads:
      `name` (the fullname, also the checkpoint token), `title`,
      `url_overridden_by_dest`, `stickied` and `is_video`. */
  datatype Item = Item(name: string, title: string, url: string, stickied: bool, isVideo: bool)

  /** What the GET of the listing URL gives: the page's children in the order
      the site sends them (newest first), or a `RequestException` raised by the
      request itself or by `raise_for_status`. */
  datatype Fetch = Page(children: seq<Item>) | FetchException

  const Origin := "https://www.reddit.com"
  const BeforeQuery := ".json?before="

  /** The test the runner applies before handing an item to the processor. */
  predicate Eligible(item: Item) {
    !item.stickied && item.isVideo
  }

  /** The value of `anchor`: the contents of the file `name`, or the empty
      string when the file does not exist. */
  function Anchor(cursor: Option<string>): (a: string)
    ensures cursor.Some? ==> a == cursor.value
    ensures a == "" <==> cursor == None || cursor == Some("")
  {
    match cursor
    case None => ""
    case Some(token) => token
  }

  /** The listing URL for a subreddit path (such as "/r/videos") and an anchor. */
  function FeedUrl(subreddit: string, anchor: string): string {
    Origin + subreddit + BeforeQuery + anchor
  }

  /** Where each part of the listing URL sits. */
  lemma FeedUrlLayout(subreddit: string, anchor: string)
    ensures var url := FeedUrl(subreddit, anchor);
      && |url| == |Origin| + |subreddit| + |BeforeQuery| + |anchor|
      && url[..|Origin|] == Origin
      && url[|Origin|..|Origin| + |subreddit|] == subreddit
      && url[|Origin| + |subreddit|..|url| - |anchor|] == BeforeQuery
      && url[|url| - |anchor|..] == anchor
  {
  }

  /** The same subreddit asked with two different anchors gives two different URLs. */
  lemma FeedUrlDeterminesAnchor(subreddit: string, a: string, b: string)
    requires FeedUrl(subreddit, a) == FeedUrl(subreddit, b)
    ensures a == b
  {
    FeedUrlLayout(subreddit, a);
    FeedUrlLayout(subreddit, b);
  }

  /** The items of `s` that pass the eligibility test, in their order. */
  function Eligibles(s: seq<Item>): (r: seq<Item>)
    ensures |r| <= |s|
    ensures forall k :: 0 <= k < |r| ==> Eligible(r[k])
    ensures forall x :: x in r <==> x in s && Eligible(x)
  {
    if s == [] then []
    else (if Eligible(s[0]) then [s[0]] else []) + Eligibles(s[1..])
  }

  /** Filtering a concatenation filters each part in place, so the kept
      items stay in the order, and with the multiplicity, of the page. */
  lemma {:induction false} EligiblesOfAppend(s: seq<Item>, t: seq<Item>)
    ensures Eligibles(s + t) == Eligibles(s) + Eligibles(t)
    decreases |s|
  {
    if s == [] {
      assert s + t == t;
    } else {
      assert (s + t)[0] == s[0];
      assert (s + t)[1..] == s[1..] + t;
      EligiblesOfAppend(s[1..], t);
    }
  }

  /** A single item is kept exactly when it is eligible. */
  lemma EligiblesOfSingle(x: Item)
    ensures Eligibles([x]) == if Eligible(x) then [x] else []
  {
    assert [x][1..] == [];
  }

  /** Python's `reversed`: the last element first. */
  function Reversed<T>(s: seq<T>): (r: seq<T>)
    ensures |r| == |s|
  {
    if s == [] then [] else [s[|s| - 1]] + Reversed(s[..|s| - 1])
  }

  /** Position k of the reversed page holds position |s| - 1 - k of the page. */
  lemma {:induction false} ReversedAt<T>(s: seq<T>, k: nat)
    requires k < |s|
    ensures Reversed(s)[k] == s[|s| - 1 - k]
  {
    if k > 0 {
      ReversedAt(s[..|s| - 1], k - 1);
    }
  }

  /** Reversing keeps exactly the same elements. */
  lemma ReversedSameElements<T>(s: seq<T>)
    ensures forall x :: x in Reversed(s) <==> x in s
  {
    forall x | x in s
      ensures x in Reversed(s)
    {
      var k :| 0 <= k < |s| && s[k] == x;
      ReversedAt(s, |s| - 1 - k);
    }
    forall x | x in Reversed(s)
      ensures x in s
    {
      var k :| 0 <= k < |s| && Reversed(s)[k] == x;
      ReversedAt(s, k);
    }
  }
}
