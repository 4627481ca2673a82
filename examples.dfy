/** Worked documents: small trees and what the normaliser makes of them. */
module CustomParserExamples {
  import opened Results
  import opened Text
  import opened Sequences
  import opened ElementTree
  import opened CustomParser
  import opened CustomParserProperties

  function Leaf(tag: string, text: string): Element {
    Element(tag, map[], Some(text), [])
  }

  /** A word without whitespace at its ends is its own stripped text. */
  lemma StripPlainWord(w: string)
    requires |w| > 0 && !IsSpace(w[0]) && !IsSpace(w[|w| - 1])
    ensures Strip(w) == w
  {
  }

  /** The text of a found leaf is its text. */
  lemma FoundLeafText(found: Option<Element>, tag: string, w: string)
    requires found == Some(Leaf(tag, w))
    requires |w| > 0 && !IsSpace(w[0]) && !IsSpace(w[|w| - 1])
    ensures TextOf(found) == Some(w)
  {
    StripPlainWord(w);
  }

  /** `find` stops at the first selected child. */
  lemma FindInAt(children: seq<Element>, query: string, k: nat)
    requires k < |children| && Selects(query, children[k].tag)
    requires forall j :: 0 <= j < k ==> !Selects(query, children[j].tag)
    ensures FindIn(children, query) == Some(children[k])
  {
    FirstIndexAt(SelectsTag(query), children, k);
  }

  /** Keeping a one-element list of a kept entry. */
  lemma KeepSingle(e: Entry)
    requires Keep(e)
    ensures Filter(Keep, [e]) == [e]
  {
    FilterSnoc(Keep, [], e);
  }

  // ---------------------------------------------------------------------
  // RSS: <rss><channel><title>Ex</title><item><title>A</title>
  //      <link>http://x/1</link></item></channel></rss>
  // ---------------------------------------------------------------------

  function RssSampleItem(): Element {
    Element("item", map[], None, [Leaf("title", "A"), Leaf("link", "http://x/1")])
  }

  function RssSampleChannel(): Element {
    Element("channel", map[], None, [Leaf("title", "Ex"), RssSampleItem()])
  }

  function RssSample(): Element {
    Element("rss", map[], None, [RssSampleChannel()])
  }

  lemma RssSampleItemTitle()
    ensures TextOf(FindIn(RssSampleItem().children, "title")) == Some("A")
  {
    var cs := RssSampleItem().children;
    SelectsPlainTag("title", "title");
    FindInAt(cs, "title", 0);
    FoundLeafText(Some(cs[0]), "title", "A");
  }

  lemma RssSampleItemLink()
    ensures TextOf(FindIn(RssSampleItem().children, "link")) == Some("http://x/1")
  {
    var cs := RssSampleItem().children;
    SelectsPlainTag("link", "title");
    SelectsPlainTag("link", "link");
    FindInAt(cs, "link", 1);
    FoundLeafText(Some(cs[1]), "link", "http://x/1");
  }

  lemma RssSampleItemNoDescription()
    ensures FindIn(RssSampleItem().children, "description") == None
  {
    SelectsPlainTag("description", "title");
    SelectsPlainTag("description", "link");
  }

  lemma RssSampleItemEntry()
    ensures RssEntry(RssSampleItem()) == Entry(Some("A"), Some("http://x/1"), None)
  {
    RssSampleItemTitle();
    RssSampleItemLink();
    RssSampleItemNoDescription();
  }

  lemma RssSampleChannelTitle()
    ensures TextOf(FindIn(RssSampleChannel().children, "title")) == Some("Ex")
  {
    var cs := RssSampleChannel().children;
    SelectsPlainTag("title", "title");
    FindInAt(cs, "title", 0);
    FoundLeafText(Some(cs[0]), "title", "Ex");
  }

  lemma RssSampleChannelNoDescription()
    ensures FindIn(RssSampleChannel().children, "description") == None
  {
    SelectsPlainTag("description", "title");
    SelectsPlainTag("description", "item");
  }

  lemma RssSampleChannelNoLink()
    ensures FindIn(RssSampleChannel().children, "link") == None
  {
    SelectsPlainTag("link", "title");
    SelectsPlainTag("link", "item");
  }

  lemma RssSampleChannelItems()
    ensures FindAllIn(RssSampleChannel().children, "item") == [RssSampleItem()]
  {
    var cs := RssSampleChannel().children;
    SelectsPlainTag("item", "title");
    SelectsPlainTag("item", "item");
    FindAllInSnoc([], cs[0], "item");
    FindAllInSnoc([cs[0]], cs[1], "item");
    assert [cs[0]] + [cs[1]] == cs;
  }

  lemma RssSampleDocument()
    ensures RssDocument(RssSampleChannel())
            == Parsed(FeedInfo(Some("Ex"), None, None), [Entry(Some("A"), Some("http://x/1"), None)])
  {
    RssSampleChannelTitle();
    RssSampleChannelNoDescription();
    RssSampleChannelNoLink();
    RssSampleChannelItems();
    RssSampleItemEntry();
    var e := RssEntry(RssSampleItem());
    assert RssEntries([RssSampleItem()]) == [e] by {
      assert [RssSampleItem()][..0] == [];
    }
    KeepSingle(e);
  }

  /** The RSS document gives the feed title and its one entry, without a description. */
  lemma RssSampleNormalized()
    ensures NormalizeRoot(RssSample())
            == Ok(Parsed(FeedInfo(Some("Ex"), None, None), [Entry(Some("A"), Some("http://x/1"), None)]))
  {
    RssSampleDialect();
    RssSampleFindsChannel();
    RssSampleDocument();
  }

  lemma RssSampleDialect()
    ensures NamespaceMap("rss") == map[] && DetectDialect("rss", map[]) == Rss
  {
    assert !EndsWith("rss", "feed");
    assert "rss"[0..] == "rss";
  }

  lemma RssSampleFindsChannel()
    ensures FindIn(RssSample().children, "channel") == Some(RssSampleChannel())
  {
    SelectsPlainTag("channel", "channel");
  }

  /** `<foo><bar/></foo>` is neither Atom nor RSS. */
  lemma UnknownSampleRejected()
    ensures NormalizeRoot(Element("foo", map[], None, [Element("bar", map[], None, [])])) == Err(UnknownDialect)
  {
  }

  // ---------------------------------------------------------------------
  // Atom: an entry with a `self` link before an `alternate` one and a
  // title, under a feed root in the namespace `uri`
  // ---------------------------------------------------------------------

  function AtomSampleEntry(uri: string): Element {
    Element(QualifiedTag(uri, "entry"), map[], None, [
      LinkElement(uri, Some("self"), "http://x/s"),
      LinkElement(uri, Some("alternate"), "http://x/a"),
      Leaf(QualifiedTag(uri, "title"), "B")])
  }

  function AtomSample(uri: string): Element {
    Element(QualifiedTag(uri, "feed"), map[], None, [AtomSampleEntry(uri)])
  }

  lemma AtomSampleLinks(uri: string)
    requires '}' !in uri
    ensures var cs := AtomSampleEntry(uri).children;
            FindAllIn(cs, QualifiedTag(uri, "link")) == cs[..2]
  {
    var cs := AtomSampleEntry(uri).children;
    var q := QualifiedTag(uri, "link");
    SelectsQualifiedTag(uri, "link", "link");
    SelectsQualifiedTag(uri, "link", "title");
    FindAllInSnoc([], cs[0], q);
    FindAllInSnoc([cs[0]], cs[1], q);
    FindAllInSnoc(cs[..2], cs[2], q);
    assert [cs[0]] + [cs[1]] == cs[..2];
    assert cs[..2] + [cs[2]] == cs;
  }

  lemma AtomSampleEntryTitle(uri: string)
    requires '}' !in uri
    ensures TextOf(FindIn(AtomSampleEntry(uri).children, QualifiedTag(uri, "title"))) == Some("B")
  {
    var cs := AtomSampleEntry(uri).children;
    SelectsQualifiedTag(uri, "title", "link");
    SelectsQualifiedTag(uri, "title", "title");
    FindInAt(cs, QualifiedTag(uri, "title"), 2);
    FoundLeafText(Some(cs[2]), QualifiedTag(uri, "title"), "B");
  }

  lemma AtomSampleEntryNoDescription(uri: string)
    requires '}' !in uri
    ensures FindIn(AtomSampleEntry(uri).children, QualifiedTag(uri, "summary")) == None
    ensures FindIn(AtomSampleEntry(uri).children, QualifiedTag(uri, "content")) == None
  {
    SelectsQualifiedTag(uri, "summary", "link");
    SelectsQualifiedTag(uri, "summary", "title");
    SelectsQualifiedTag(uri, "content", "link");
    SelectsQualifiedTag(uri, "content", "title");
  }

  /** The entry's link is the alternate one, not the self link before it. */
  lemma AtomSampleEntryRead(uri: string)
    requires '}' !in uri
    ensures AtomEntry(AtomSampleEntry(uri), uri) == Entry(Some("B"), Some("http://x/a"), None)
  {
    var cs := AtomSampleEntry(uri).children;
    AtomSampleLinks(uri);
    PrimaryLinkIsFirstPreferred(cs[..2], 1);
    AtomSampleEntryTitle(uri);
    AtomSampleEntryNoDescription(uri);
  }

  lemma AtomSampleFeedLookups(uri: string)
    requires '}' !in uri
    ensures var cs := AtomSample(uri).children;
            FindIn(cs, QualifiedTag(uri, "title")) == None
            && FindIn(cs, QualifiedTag(uri, "subtitle")) == None
            && FindAllIn(cs, QualifiedTag(uri, "link")) == []
            && FindAllIn(cs, QualifiedTag(uri, "entry")) == cs
  {
    var cs := AtomSample(uri).children;
    SelectsQualifiedTag(uri, "title", "entry");
    SelectsQualifiedTag(uri, "subtitle", "entry");
    SelectsQualifiedTag(uri, "link", "entry");
    SelectsQualifiedTag(uri, "entry", "entry");
    FindAllInSnoc([], cs[0], QualifiedTag(uri, "link"));
    FindAllInSnoc([], cs[0], QualifiedTag(uri, "entry"));
    assert [] + [cs[0]] == cs;
  }

  lemma AtomSampleDocument(uri: string)
    requires '}' !in uri
    ensures AtomDocument(AtomSample(uri), uri)
            == Parsed(FeedInfo(None, None, None), [Entry(Some("B"), Some("http://x/a"), None)])
  {
    AtomSampleFeedLookups(uri);
    AtomSampleKeptEntries(uri);
    assert PrimaryLink([]) == None;
  }

  lemma AtomSampleKeptEntries(uri: string)
    requires '}' !in uri
    ensures Filter(Keep, AtomEntries([AtomSampleEntry(uri)], uri)) == [Entry(Some("B"), Some("http://x/a"), None)]
  {
    AtomSampleEntryRead(uri);
    var e := AtomEntry(AtomSampleEntry(uri), uri);
    assert AtomEntries([AtomSampleEntry(uri)], uri) == [e] by {
      assert [AtomSampleEntry(uri)][..0] == [];
    }
    KeepSingle(e);
  }

  /** With its namespace, the Atom document gives one entry whose link is the alternate one. */
  lemma AtomSampleNormalized(uri: string)
    requires '}' !in uri
    ensures NormalizeRoot(AtomSample(uri))
            == Ok(Parsed(FeedInfo(None, None, None), [Entry(Some("B"), Some("http://x/a"), None)]))
  {
    NamespaceOfQualifiedRoot(uri, "feed");
    AtomSampleDocument(uri);
  }

  /** The same document with no namespace anywhere gives no record. */
  lemma UnqualifiedAtomSampleRejected()
    ensures NormalizeRoot(Element("feed", map[], None, [
              Element("entry", map[], None, [
                Element("link", map["rel" := "self", "href" := "http://x/s"], None, []),
                Element("link", map["rel" := "alternate", "href" := "http://x/a"], None, []),
                Leaf("title", "B")])]))
            == Err(UnboundPrefix)
  {
  }
}
