/**
 * The custom feed normaliser of rss_reader_custom_parser.py: from a parsed
 * XML tree to a uniform record `{feed: {title, description, link}, entries}`
 * for RSS 2.0 and Atom documents.
 */
module CustomParser {
  import opened Results
  import opened Text
  import opened Sequences
  import opened ElementTree

  /** Python truthiness of an optional string: present and non-empty. */
  predicate Truthy(o: Option<string>) {
    o.Some? && o.value != ""
  }

  // ---------------------------------------------------------------------
  // Child lookup helpers
  // ---------------------------------------------------------------------

  /** The stripped text of an element found by `find`, or None when it has no text. */
  function TextOf(found: Option<Element>): (r: Option<string>)
    ensures r.Some? ==> found.Some? && found.value.text.Some? && NoOuterSpace(r.value)
  {
    if found.Some? && Truthy(found.value.text) then Some(Strip(found.value.text.value)) else None
  }

  /**
   * `find_element_text`: the stripped text of the first matching child.
   * Fails exactly when the name's prefix is not in the prefix map; a present
   * result never has whitespace at either end (it is "" for whitespace-only text).
   */
  function FindElementText(parent: Element, name: Name, ns: map<string, string>): (r: Result<Option<string>>)
    ensures r.Err? <==> name.Prefixed? && name.prefix !in ns
    ensures r.Err? ==> r.error == UnboundPrefix
    ensures r.Ok? && r.value.Some? ==> NoOuterSpace(r.value.value)
  {
    match Find(parent, name, ns)
    case Err(e) => Err(e)
    case Ok(found) => Ok(TextOf(found))
  }

  /**
   * `find_element_link`: a non-empty `href` on the first matching child wins,
   * then that child's stripped text; for `link` under a `...channel` parent it
   * then falls back to `find_element_text(parent, 'link')`.
   */
  function FindElementLink(parent: Element, name: Name, ns: map<string, string>): (r: Result<Option<string>>)
    ensures r.Err? <==> name.Prefixed? && name.prefix !in ns
  {
    match Find(parent, name, ns)
    case Err(e) => Err(e)
    case Ok(found) =>
      if found.Some? && Truthy(Get(found.value, "href")) then Ok(Get(found.value, "href"))
      else if found.Some? && Truthy(found.value.text) then Ok(Some(Strip(found.value.text.value)))
      else if name == Local("link") && EndsWith(parent.tag, "channel") then FindElementText(parent, Local("link"), ns)
      else Ok(None)
  }

  // ---------------------------------------------------------------------
  // Namespace map and dialect
  // ---------------------------------------------------------------------

  /**
   * The prefix map built from the root tag: when the tag contains `}`, the
   * text between its first character and its first `}` under `atom`;
   * otherwise empty.
   */
  function NamespaceMap(rootTag: string): (ns: map<string, string>)
    ensures '}' !in rootTag ==> ns == map[]
    ensures '}' in rootTag ==> "atom" in ns && ns == map["atom" := ns["atom"]]
    ensures "atom" in ns ==>
              var uri := ns["atom"];
              '}' !in uri
              && (rootTag[0] == '}' ==> uri == "")
              && (rootTag[0] != '}' ==>
                    |uri| + 1 < |rootTag| && rootTag[1..|uri| + 1] == uri && rootTag[|uri| + 1] == '}')
  {
    if '}' in rootTag then
      var head := TakeUntil(rootTag, '}');
      map["atom" := if head == "" then "" else head[1..]]
    else map[]
  }

  datatype Dialect = Atom | Rss | Unrecognised

  /** Is the document Atom, RSS or neither; Atom is tested first. */
  function DetectDialect(rootTag: string, ns: map<string, string>): Dialect {
    if "atom" in ns || EndsWith(rootTag, "feed") then Atom
    else if EndsWith(rootTag, "rss") then Rss
    else Unrecognised
  }

  // ---------------------------------------------------------------------
  // Atom link choice
  // ---------------------------------------------------------------------

  function Href(link: Element): Option<string> {
    Get(link, "href")
  }

  /** A link whose `rel` is `alternate`, or missing or empty. */
  predicate IsCandidate(link: Element) {
    Get(link, "rel") == Some("alternate") || !Truthy(Get(link, "rel"))
  }

  /** A candidate link that also has a non-empty `href`. */
  predicate Preferred(link: Element) {
    IsCandidate(link) && Truthy(Href(link))
  }

  /**
   * The link the source settles on: the `href` of the first preferred link;
   * failing that the first link's `href` (possibly None); None without links.
   */
  function PrimaryLink(links: seq<Element>): (r: Option<string>)
    ensures links == [] ==> r == None
    ensures r.Some? ==> exists i :: 0 <= i < |links| && Href(links[i]) == r
  {
    var k := FirstIndex(Preferred, links);
    if k < |links| then Href(links[k])
    else if links == [] then None
    else Href(links[0])
  }

  /** The loop that chooses a feed or entry link, with its early exit. */
  method SelectPrimaryLink(links: seq<Element>) returns (primary: Option<string>)
    ensures primary == PrimaryLink(links)
  {
    primary := None;
    var i := 0;
    while i < |links|
      invariant 0 <= i <= |links|
      invariant forall k :: 0 <= k < i ==> !Preferred(links[k])
      invariant !Truthy(primary)
      invariant i == 0 ==> primary == None
    {
      var link := links[i];
      var rel := Get(link, "rel");
      if rel == Some("alternate") || !Truthy(rel) {
        primary := Get(link, "href");
        if Truthy(primary) {
          break;
        }
      }
      i := i + 1;
    }
    if !Truthy(primary) && |links| > 0 {
      primary := Get(links[0], "href");
    }
  }

  // ---------------------------------------------------------------------
  // The normalised record
  // ---------------------------------------------------------------------

  datatype FeedInfo = FeedInfo(title: Option<string>, description: Option<string>, link: Option<string>)
  datatype Entry = Entry(title: Option<string>, link: Option<string>, description: Option<string>)
  datatype Parsed = Parsed(feed: FeedInfo, entries: seq<Entry>)

  /** An entry is kept only when its title or its link is truthy. */
  predicate Keep(e: Entry) {
    Truthy(e.title) || Truthy(e.link)
  }

  function AtomName(local: string): Name {
    Prefixed("atom", local)
  }

  /** One Atom `entry` element as an entry; the description prefers `summary` to `content`. */
  function AtomEntry(item: Element, uri: string): Entry {
    var summary := TextOf(FindIn(item.children, QualifiedTag(uri, "summary")));
    Entry(TextOf(FindIn(item.children, QualifiedTag(uri, "title"))),
          PrimaryLink(FindAllIn(item.children, QualifiedTag(uri, "link"))),
          if Truthy(summary) then summary else TextOf(FindIn(item.children, QualifiedTag(uri, "content"))))
  }

  /** `AtomEntry` of every element of `items`, in order. */
  function AtomEntries(items: seq<Element>, uri: string): seq<Entry> {
    if items == [] then []
    else AtomEntries(items[..|items| - 1], uri) + [AtomEntry(items[|items| - 1], uri)]
  }

  lemma AtomEntriesSnoc(items: seq<Element>, i: nat, uri: string)
    requires i < |items|
    ensures AtomEntries(items[..i + 1], uri) == AtomEntries(items[..i], uri) + [AtomEntry(items[i], uri)]
  {
    assert items[..i + 1][..i] == items[..i];
  }

  /** An Atom document whose `atom` prefix stands for `uri`. */
  function AtomDocument(root: Element, uri: string): Parsed {
    Parsed(FeedInfo(TextOf(FindIn(root.children, QualifiedTag(uri, "title"))),
                    TextOf(FindIn(root.children, QualifiedTag(uri, "subtitle"))),
                    PrimaryLink(FindAllIn(root.children, QualifiedTag(uri, "link")))),
           Filter(Keep, AtomEntries(FindAllIn(root.children, QualifiedTag(uri, "entry")), uri)))
  }

  /** One RSS `item` element as an entry. */
  function RssEntry(item: Element): Entry {
    Entry(TextOf(FindIn(item.children, "title")),
          TextOf(FindIn(item.children, "link")),
          TextOf(FindIn(item.children, "description")))
  }

  /** `RssEntry` of every element of `items`, in order. */
  function RssEntries(items: seq<Element>): seq<Entry> {
    if items == [] then []
    else RssEntries(items[..|items| - 1]) + [RssEntry(items[|items| - 1])]
  }

  lemma RssEntriesSnoc(items: seq<Element>, i: nat)
    requires i < |items|
    ensures RssEntries(items[..i + 1]) == RssEntries(items[..i]) + [RssEntry(items[i])]
  {
    assert items[..i + 1][..i] == items[..i];
  }

  /** An RSS document, read from its `channel` element. */
  function RssDocument(channel: Element): Parsed {
    Parsed(FeedInfo(TextOf(FindIn(channel.children, "title")),
                    TextOf(FindIn(channel.children, "description")),
                    TextOf(FindIn(channel.children, "link"))),
           Filter(Keep, RssEntries(FindAllIn(channel.children, "item"))))
  }

  /** What the normaliser makes of a parsed tree. */
  function NormalizeRoot(root: Element): Result<Parsed> {
    var ns := NamespaceMap(root.tag);
    match DetectDialect(root.tag, ns)
    case Atom => if "atom" in ns then Ok(AtomDocument(root, ns["atom"])) else Err(UnboundPrefix)
    case Rss =>
      (match FindIn(root.children, "channel")
       case None => Err(MissingChannel)
       case Some(channel) => Ok(RssDocument(channel)))
    case Unrecognised => Err(UnknownDialect)
  }

  /**
   * What `parse_feed_custom` makes of the feed content; `parse` stands for
   * the XML parser, which returns None for a malformed document.
   */
  function Normalize(content: string, parse: string -> Option<Element>): Result<Parsed> {
    if content == "" then Err(EmptyInput)
    else match parse(Strip(content))
      case None => Err(Malformed)
      case Some(root) => NormalizeRoot(root)
  }

  // ---------------------------------------------------------------------
  // The normaliser
  // ---------------------------------------------------------------------

  /** The fields of one Atom `entry` element, looked up one after the other. */
  method ReadAtomEntry(item: Element, ns: map<string, string>) returns (entry: Entry)
    requires "atom" in ns
    ensures entry == AtomEntry(item, ns["atom"])
  {
    var title := FindElementText(item, AtomName("title"), ns).value;
    var description := FindElementText(item, AtomName("summary"), ns).value;
    if !Truthy(description) {
      description := FindElementText(item, AtomName("content"), ns).value;
    }
    var links := FindAll(item, AtomName("link"), ns).value;
    var link := SelectPrimaryLink(links);
    entry := Entry(title, link, description);
  }

  /** The loop over Atom `entry` elements, appending each kept entry. */
  method CollectAtomEntries(items: seq<Element>, ns: map<string, string>) returns (entries: seq<Entry>)
    requires "atom" in ns
    ensures entries == Filter(Keep, AtomEntries(items, ns["atom"]))
  {
    ghost var uri := ns["atom"];
    entries := [];
    for i := 0 to |items|
      invariant entries == Filter(Keep, AtomEntries(items[..i], uri))
    {
      var entry := ReadAtomEntry(items[i], ns);
      AtomEntriesSnoc(items, i, uri);
      FilterSnoc(Keep, AtomEntries(items[..i], uri), entry);
      if Keep(entry) {
        entries := entries + [entry];
      }
    }
    assert items[..|items|] == items;
  }

  /** The loop over RSS `item` elements, appending each kept entry. */
  method CollectRssEntries(items: seq<Element>, ns: map<string, string>) returns (entries: seq<Entry>)
    requires ns == map[]
    ensures entries == Filter(Keep, RssEntries(items))
  {
    entries := [];
    for i := 0 to |items|
      invariant entries == Filter(Keep, RssEntries(items[..i]))
    {
      var item := items[i];
      var entry := Entry(FindElementText(item, Local("title"), ns).value,
                         FindElementText(item, Local("link"), ns).value,
                         FindElementText(item, Local("description"), ns).value);
      assert entry == RssEntry(item);
      RssEntriesSnoc(items, i);
      FilterSnoc(Keep, RssEntries(items[..i]), entry);
      if Keep(entry) {
        entries := entries + [entry];
      }
    }
    assert items[..|items|] == items;
  }

  /**
   * `parse_feed_custom`: builds the feed fields one lookup at a time and
   * appends each kept entry, in document order.
   */
  method ParseFeedCustom(content: string, parse: string -> Option<Element>) returns (r: Result<Parsed>)
    ensures r == Normalize(content, parse)
  {
    if content == "" {
      return Err(EmptyInput);
    }
    var tree := parse(Strip(content));
    if tree.None? {
      return Err(Malformed);
    }
    var root := tree.value;
    var ns := NamespaceMap(root.tag);
    var dialect := DetectDialect(root.tag, ns);
    if dialect == Atom {
      var title := FindElementText(root, AtomName("title"), ns);
      if title.Err? {
        return Err(title.error);
      }
      // every later lookup uses the same `atom` prefix, which has just resolved
      var description := FindElementText(root, AtomName("subtitle"), ns).value;
      var feedLinks := FindAll(root, AtomName("link"), ns).value;
      var feedLink := SelectPrimaryLink(feedLinks);
      var items := FindAll(root, AtomName("entry"), ns).value;
      var entries := CollectAtomEntries(items, ns);
      r := Ok(Parsed(FeedInfo(title.value, description, feedLink), entries));
    } else if dialect == Rss {
      var found := Find(root, Local("channel"), map[]).value;
      if found.None? {
        return Err(MissingChannel);
      }
      var channel := found.value;
      var feedTitle := FindElementText(channel, Local("title"), ns).value;
      var feedDescription := FindElementText(channel, Local("description"), ns).value;
      var feedLink := FindElementText(channel, Local("link"), ns).value;
      var items := FindAll(channel, Local("item"), ns).value;
      var entries := CollectRssEntries(items, ns);
      r := Ok(Parsed(FeedInfo(feedTitle, feedDescription, feedLink), entries));
    } else {
      r := Err(UnknownDialect);
    }
  }
}
