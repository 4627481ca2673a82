/** What the custom normaliser promises, proved about the model. */
module CustomParserProperties {
  import opened Results
  import opened Text
  import opened Sequences
  import opened ElementTree
  import opened CustomParser

  // ---------------------------------------------------------------------
  // Failure outcomes
  // ---------------------------------------------------------------------

  /** Empty content gives no record, whatever the XML parser would do. */
  lemma EmptyContentGivesNoRecord(parse: string -> Option<Element>)
    ensures Normalize("", parse) == Err(EmptyInput)
  {
  }

  /** A document the XML parser rejects gives no record, and never a partial one. */
  lemma MalformedContentGivesNoRecord(content: string, parse: string -> Option<Element>)
    requires content != "" && parse(Strip(content)) == None
    ensures Normalize(content, parse) == Err(Malformed)
  {
  }

  /** A record comes only from non-empty content that the parser accepted. */
  lemma RecordOnlyFromParsedTree(content: string, parse: string -> Option<Element>)
    requires Normalize(content, parse).Ok?
    ensures content != "" && parse(Strip(content)).Some?
    ensures Normalize(content, parse) == NormalizeRoot(parse(Strip(content)).value)
  {
  }

  /** Stripping leaves nothing exactly when the content is all whitespace. */
  lemma StripEmptyIffAllSpace(s: string)
    ensures Strip(s) == "" <==> AllSpace(s)
  {
    StripCutsOnlySpace(s);
    var lo, hi :| 0 <= lo <= hi <= |s| && Strip(s) == s[lo..hi]
                  && (forall k :: 0 <= k < lo ==> IsSpace(s[k]))
                  && (forall k :: hi <= k < |s| ==> IsSpace(s[k]));
    if Strip(s) == "" {
      assert lo == hi;
    } else {
      assert !IsSpace(s[lo]);
    }
  }

  /** The byte-order mark U+FEFF is not whitespace: stripping keeps it. */
  lemma StripKeepsByteOrderMark(s: string)
    requires |s| > 0 && s[0] == '\U{FEFF}'
    ensures Strip(s) != "" && Strip(s)[0] == '\U{FEFF}'
  {
  }

  // ---------------------------------------------------------------------
  // find_element_text and find_element_link
  // ---------------------------------------------------------------------

  /**
   * With a resolvable name, `find_element_text` gives None exactly when no
   * child matches or the first matching child has no text.
   */
  lemma FindElementTextAbsent(parent: Element, name: Name, ns: map<string, string>)
    requires Resolve(name, ns).Some?
    ensures var q := Resolve(name, ns).value;
            FindElementText(parent, name, ns) == Ok(None)
            <==> (forall i :: 0 <= i < |parent.children| ==> !Selects(q, parent.children[i].tag))
                 || !Truthy(FindIn(parent.children, q).value.text)
  {
  }

  /** Otherwise it is the first matching child's text, stripped. */
  lemma FindElementTextFirst(parent: Element, name: Name, ns: map<string, string>, k: nat)
    requires Resolve(name, ns).Some?
    requires k < |parent.children| && Selects(Resolve(name, ns).value, parent.children[k].tag)
    requires forall j :: 0 <= j < k ==> !Selects(Resolve(name, ns).value, parent.children[j].tag)
    requires Truthy(parent.children[k].text)
    ensures FindElementText(parent, name, ns) == Ok(Some(Strip(parent.children[k].text.value)))
  {
    FirstIndexAt(SelectsTag(Resolve(name, ns).value), parent.children, k);
  }

  /** Whitespace-only text is returned as "", not as None. */
  lemma WhitespaceTextIsEmptyString(parent: Element, name: Name, ns: map<string, string>)
    requires Resolve(name, ns).Some?
    requires var found := FindIn(parent.children, Resolve(name, ns).value);
             found.Some? && Truthy(found.value.text) && AllSpace(found.value.text.value)
    ensures FindElementText(parent, name, ns) == Ok(Some(""))
  {
    StripEmptyIffAllSpace(FindIn(parent.children, Resolve(name, ns).value).value.text.value);
  }

  /** `find_element_link`: a non-empty `href` on the first match wins over its text. */
  lemma FindElementLinkPrefersHref(parent: Element, name: Name, ns: map<string, string>)
    requires Resolve(name, ns).Some?
    requires var found := FindIn(parent.children, Resolve(name, ns).value);
             found.Some? && Truthy(Get(found.value, "href"))
    ensures FindElementLink(parent, name, ns) == Ok(Get(FindIn(parent.children, Resolve(name, ns).value).value, "href"))
  {
  }

  /** Without a usable `href` it gives the stripped text, and None when neither exists. */
  lemma {:induction false} FindElementLinkFallsBackToText(parent: Element, name: Name, ns: map<string, string>)
    requires Resolve(name, ns).Some?
    requires var found := FindIn(parent.children, Resolve(name, ns).value);
             found.None? || !Truthy(Get(found.value, "href"))
    ensures var found := FindIn(parent.children, Resolve(name, ns).value);
            FindElementLink(parent, name, ns)
            == if found.Some? && Truthy(found.value.text) then Ok(Some(Strip(found.value.text.value))) else Ok(None)
  {
    // the `channel` fallback repeats the same lookup, so it finds nothing new
    if name == Local("link") && EndsWith(parent.tag, "channel") {
      assert Resolve(Local("link"), ns) == Resolve(name, ns);
    }
  }

  // ---------------------------------------------------------------------
  // Namespace map and dialect
  // ---------------------------------------------------------------------

  /** A root tag `{uri}local` registers exactly `uri` under `atom`. */
  lemma NamespaceOfQualifiedRoot(uri: string, local: string)
    requires '}' !in uri
    ensures NamespaceMap(QualifiedTag(uri, local)) == map["atom" := uri]
  {
    var tag := QualifiedTag(uri, local);
    assert tag[|uri| + 1] == '}';
    assert forall j :: 1 <= j < |uri| + 1 ==> tag[j] == uri[j - 1];
    var head := TakeUntil(tag, '}');
    assert |head| == |uri| + 1;
    assert tag[1..|uri| + 1] == uri;
  }

  /** Dialect detection is an ordered decision on the root tag. */
  lemma DialectOfRoot(tag: string)
    ensures var d := DetectDialect(tag, NamespaceMap(tag));
            (d == Atom <==> '}' in tag || EndsWith(tag, "feed"))
            && (d == Rss <==> '}' !in tag && !EndsWith(tag, "feed") && EndsWith(tag, "rss"))
            && (d == Unrecognised <==> '}' !in tag && !EndsWith(tag, "feed") && !EndsWith(tag, "rss"))
  {
  }

  /** A namespaced root is read as Atom even when its local name is `rss`. */
  lemma NamespacedRssRootIsAtom(uri: string)
    requires '}' !in uri
    ensures DetectDialect(QualifiedTag(uri, "rss"), NamespaceMap(QualifiedTag(uri, "rss"))) == Atom
  {
    NamespaceOfQualifiedRoot(uri, "rss");
  }

  /** An Atom root without a namespace cannot resolve `atom:` and gives no record. */
  lemma UnqualifiedAtomRootFails(root: Element)
    requires '}' !in root.tag && EndsWith(root.tag, "feed")
    ensures NormalizeRoot(root) == Err(UnboundPrefix)
  {
  }

  /**
   * A namespaced root gives the Atom record of its namespace: the feed title,
   * description and link are the `atom:title` and `atom:subtitle` lookups and
   * the link choice among the `atom:link` children.
   */
  lemma AtomFeedFields(root: Element, uri: string, local: string)
    requires root.tag == QualifiedTag(uri, local) && '}' !in uri
    ensures NormalizeRoot(root) == Ok(AtomDocument(root, uri))
    ensures var ns := map["atom" := uri];
            NormalizeRoot(root).value.feed
            == FeedInfo(FindElementText(root, AtomName("title"), ns).value,
                        FindElementText(root, AtomName("subtitle"), ns).value,
                        PrimaryLink(FindAll(root, AtomName("link"), ns).value))
  {
    NamespaceOfQualifiedRoot(uri, local);
  }

  /** A root read as Atom gives no record exactly when its tag has no namespace. */
  lemma AtomRootFailsIffUnqualified(root: Element)
    requires DetectDialect(root.tag, NamespaceMap(root.tag)) == Atom
    ensures NormalizeRoot(root).Err? <==> '}' !in root.tag
    ensures NormalizeRoot(root).Err? ==> NormalizeRoot(root).error == UnboundPrefix
  {
  }

  // ---------------------------------------------------------------------
  // Atom link choice
  // ---------------------------------------------------------------------

  /** The first preferred link is the one chosen. */
  lemma PrimaryLinkIsFirstPreferred(links: seq<Element>, k: nat)
    requires k < |links| && Preferred(links[k])
    requires forall j :: 0 <= j < k ==> !Preferred(links[j])
    ensures PrimaryLink(links) == Href(links[k])
  {
    FirstIndexAt(Preferred, links, k);
  }

  /** With no preferred link the first link's `href` is used, and None without links. */
  lemma PrimaryLinkFallback(links: seq<Element>)
    requires forall j :: 0 <= j < |links| ==> !Preferred(links[j])
    ensures PrimaryLink(links) == if links == [] then None else Href(links[0])
  {
  }

  /**
   * When some alternate or typeless link has a non-empty `href`, the chosen
   * link is such a link, so never one marked `rel="self"`.
   */
  lemma SelfLinkNotChosen(links: seq<Element>, k: nat)
    requires k < |links| && Preferred(links[k])
    ensures exists j :: 0 <= j < |links| && PrimaryLink(links) == Href(links[j])
                        && Truthy(Href(links[j])) && IsCandidate(links[j])
                        && Get(links[j], "rel") != Some("self")
  {
    FirstIndexAtMost(Preferred, links, k);
    var first := FirstIndex(Preferred, links);
    assert Preferred(links[first]);
  }

  function LinkElement(uri: string, rel: Option<string>, href: string): Element {
    Element(QualifiedTag(uri, "link"),
            if rel.Some? then map["rel" := rel.value, "href" := href] else map["href" := href],
            None, [])
  }

  /** An earlier typeless link beats a later `alternate` one. */
  lemma TypelessBeforeAlternate(uri: string)
    ensures PrimaryLink([LinkElement(uri, None, "http://x/t"), LinkElement(uri, Some("alternate"), "http://x/a")])
            == Some("http://x/t")
  {
    PrimaryLinkIsFirstPreferred([LinkElement(uri, None, "http://x/t"), LinkElement(uri, Some("alternate"), "http://x/a")], 0);
  }

  // ---------------------------------------------------------------------
  // Entries
  // ---------------------------------------------------------------------

  /**
   * When the first `summary` child has text with a non-whitespace character,
   * the Atom entry's description is that text stripped, whatever `content` holds.
   */
  lemma AtomDescriptionFromSummary(item: Element, uri: string, k: nat)
    requires k < |item.children| && Selects(QualifiedTag(uri, "summary"), item.children[k].tag)
    requires forall j :: 0 <= j < k ==> !Selects(QualifiedTag(uri, "summary"), item.children[j].tag)
    requires item.children[k].text.Some? && !AllSpace(item.children[k].text.value)
    ensures AtomEntry(item, uri).description == Some(Strip(item.children[k].text.value))
  {
    FirstIndexAt(SelectsTag(QualifiedTag(uri, "summary")), item.children, k);
    StripEmptyIffAllSpace(item.children[k].text.value);
  }

  /**
   * When there is no `summary` child, or the first one's text is missing,
   * empty or whitespace-only (so `find_element_text` gives None or the falsy
   * ""), the description is the `atom:content` lookup.
   */
  lemma AtomDescriptionFromContent(item: Element, uri: string)
    requires var summary := FindIn(item.children, QualifiedTag(uri, "summary"));
             summary.None? || summary.value.text.None? || AllSpace(summary.value.text.value)
    ensures AtomEntry(item, uri).description == FindElementText(item, AtomName("content"), map["atom" := uri]).value
  {
    var summary := FindIn(item.children, QualifiedTag(uri, "summary"));
    if summary.Some? && summary.value.text.Some? {
      StripEmptyIffAllSpace(summary.value.text.value);
    }
  }

  /** Every entry of a record has a truthy title or link. */
  lemma {:induction false} EveryEntryIsKept(content: string, parse: string -> Option<Element>)
    requires Normalize(content, parse).Ok?
    ensures forall e :: e in Normalize(content, parse).value.entries ==> Keep(e)
  {
    var root := parse(Strip(content)).value;
    var ns := NamespaceMap(root.tag);
    match DetectDialect(root.tag, ns)
    case Atom =>
      var uri := ns["atom"];
      FilterSound(Keep, AtomEntries(FindAllIn(root.children, QualifiedTag(uri, "entry")), uri));
    case Rss =>
      var channel := FindIn(root.children, "channel").value;
      FilterSound(Keep, RssEntries(FindAllIn(channel.children, "item")));
  }

  /**
   * An Atom record's entries are the kept entries of the `entry` children,
   * in document order, each kept one as often as it occurs.
   */
  lemma AtomEntriesInDocumentOrder(root: Element, uri: string)
    ensures var es := AtomEntries(FindAllIn(root.children, QualifiedTag(uri, "entry")), uri);
            var kept := AtomDocument(root, uri).entries;
            IsSubsequence(kept, es)
            && (forall e :: e in kept ==> Keep(e))
            && (forall e :: Keep(e) ==> multiset(kept)[e] == multiset(es)[e])
  {
    var es := AtomEntries(FindAllIn(root.children, QualifiedTag(uri, "entry")), uri);
    FilterIsSubsequence(Keep, es);
    FilterSound(Keep, es);
    forall e | Keep(e) ensures multiset(Filter(Keep, es))[e] == multiset(es)[e] {
      FilterComplete(Keep, es, e);
    }
  }

  /** The same for an RSS record and the channel's `item` children. */
  lemma RssEntriesInDocumentOrder(channel: Element)
    ensures var es := RssEntries(FindAllIn(channel.children, "item"));
            var kept := RssDocument(channel).entries;
            IsSubsequence(kept, es)
            && (forall e :: e in kept ==> Keep(e))
            && (forall e :: Keep(e) ==> multiset(kept)[e] == multiset(es)[e])
  {
    var es := RssEntries(FindAllIn(channel.children, "item"));
    FilterIsSubsequence(Keep, es);
    FilterSound(Keep, es);
    forall e | Keep(e) ensures multiset(Filter(Keep, es))[e] == multiset(es)[e] {
      FilterComplete(Keep, es, e);
    }
  }

  /**
   * An item whose first `title` and `link` children are missing or have no
   * non-whitespace text is dropped, whatever its description.
   */
  lemma DescriptionOnlyItemDropped(items: seq<Element>, item: Element)
    requires var title := FindIn(item.children, "title");
             title.None? || title.value.text.None? || AllSpace(title.value.text.value)
    requires var link := FindIn(item.children, "link");
             link.None? || link.value.text.None? || AllSpace(link.value.text.value)
    ensures Filter(Keep, RssEntries(items + [item])) == Filter(Keep, RssEntries(items))
  {
    var title, link := FindIn(item.children, "title"), FindIn(item.children, "link");
    if title.Some? && title.value.text.Some? {
      StripEmptyIffAllSpace(title.value.text.value);
    }
    if link.Some? && link.value.text.Some? {
      StripEmptyIffAllSpace(link.value.text.value);
    }
    assert !Keep(RssEntry(item));
    assert (items + [item])[..|items|] == items;
    assert RssEntries(items + [item]) == RssEntries(items) + [RssEntry(item)];
    FilterSnoc(Keep, RssEntries(items), RssEntry(item));
  }

  // ---------------------------------------------------------------------
  // RSS
  // ---------------------------------------------------------------------

  /** An RSS root without a direct `channel` child gives no record. */
  lemma RssWithoutChannelFails(root: Element)
    requires DetectDialect(root.tag, NamespaceMap(root.tag)) == Rss
    requires forall i :: 0 <= i < |root.children| ==> root.children[i].tag != "channel"
    ensures NormalizeRoot(root) == Err(MissingChannel)
  {
    forall i | 0 <= i < |root.children| ensures !Selects("channel", root.children[i].tag) {
      SelectsPlainTag("channel", root.children[i].tag);
    }
  }

  /** A root that is neither Atom nor RSS gives no record. */
  lemma UnrecognisedRootFails(root: Element)
    requires DetectDialect(root.tag, NamespaceMap(root.tag)) == Unrecognised
    ensures NormalizeRoot(root) == Err(UnknownDialect)
  {
  }

  /** Otherwise the feed fields are the stripped texts of the first channel's children. */
  lemma RssFeedFields(root: Element, k: nat)
    requires DetectDialect(root.tag, NamespaceMap(root.tag)) == Rss
    requires k < |root.children| && root.children[k].tag == "channel"
    requires forall j :: 0 <= j < k ==> root.children[j].tag != "channel"
    ensures NormalizeRoot(root) == Ok(RssDocument(root.children[k]))
    ensures var channel := root.children[k];
            NormalizeRoot(root).Ok?
            && NormalizeRoot(root).value.feed
               == FeedInfo(TextOf(FindIn(channel.children, "title")),
                           TextOf(FindIn(channel.children, "description")),
                           TextOf(FindIn(channel.children, "link")))
  {
    forall j | 0 <= j <= k ensures Selects("channel", root.children[j].tag) <==> j == k {
      SelectsPlainTag("channel", root.children[j].tag);
    }
    FirstIndexAt(SelectsTag("channel"), root.children, k);
  }
}
