# Custom RSS/Atom feed normaliser, modelled in Dafny

This project models the custom XML feed parser of the `rss-feed-reader`
project (`parse_feed_custom` and its helpers in
`rss_reader_custom_parser.py`). The parser takes feed content, gives it to
ElementTree, and turns the resulting element tree into one uniform record:

    {feed: {title, description, link}, entries: [{title, link, description}, ...]}

It works the same way for RSS 2.0 and Atom documents. Every failure makes the
Python function return `None`. The model keeps the reason for the failure in
a `Result`:

- `EmptyInput`: the content is empty.
- `Malformed`: the XML parser rejected the document.
- `MissingChannel`: an RSS root has no `channel` child.
- `UnknownDialect`: the root is neither Atom nor RSS.
- `UnboundPrefix`: an `atom:` lookup failed because the prefix map has no
  `atom` entry. ElementTree raises an exception here, and the parser's broad
  `except` turns it into `None`.

Files:

- `results.dfy` (`Results`): `Option`, `Result` and the failure kinds.
- `text.dfy` (`Text`): the Python `str` behaviour the parser relies on.
  This covers `strip()` with Python's whitespace set, `endswith`, and
  `split('}')[0]`.
- `sequences.dfy` (`Sequences`): first index and order-preserving filter,
  with their lemmas.
- `element_tree.dfy` (`ElementTree`): elements, `Element.get`, and
  `find`/`findall` with one-step names and a prefix map. A name's prefix is
  replaced by its URI, and a missing prefix is an error. The URI `*` is read
  as "any namespace or none".
- `custom_parser.dfy` (`CustomParser`): the core model.
  - The helpers `find_element_text` and `find_element_link` are functions.
  - The namespace map, the dialect decision and the link choice are
    functions as well.
  - The specification function `Normalize` says what the parser produces.
  - The method `ParseFeedCustom` follows the Python code step by step: its
    lookups, its link-selection loop with `break`, and the loops that append
    each kept entry. Its postcondition is that it computes `Normalize`.
- `properties.dfy` (`CustomParserProperties`): what the parser promises,
  proved about `Normalize` and its parts.
- `examples.dfy` (`CustomParserExamples`): four small documents worked out
  in full: one RSS, one namespaced Atom, the same Atom document without its
  namespace, and one of unknown dialect.

The library parser `ET.fromstring` is a parameter here. `ParseFeedCustom` and
`Normalize` take `parse: string -> Option<Element>`, and `None` stands for
`ET.ParseError`. The parser is given the stripped content, as in the source.

Source behaviour the model keeps as written:

- **Link choice.** The chosen link is the first one whose `rel` is missing,
  empty or `alternate` and whose `href` is non-empty. A typeless link
  therefore beats a later `alternate` one. If there is no such link, the
  first link's `href` is used, which may be missing. `TypelessBeforeAlternate`
  proves one such case. The Atom link loop reads only `href`; a link's text
  content is ignored there.
- **Whitespace-only text.** `find_element_text` returns `""` for such text,
  not `None`. Only the truthiness tests treat `""` as absent.
- **Byte-order mark.** `str.strip()` does not remove a byte-order mark
  (U+FEFF), although the comment at line 104 says it does
  (`StripKeepsByteOrderMark`).
- **Atom roots without a namespace.** A root named `...feed` without a
  namespace is detected as Atom. Its prefix map is empty, though, so the
  first `atom:` lookup fails and no record is returned
  (`UnqualifiedAtomRootFails`). The same document with the Atom namespace
  declared is read fully (`AtomSampleNormalized`).
- **Namespaced roots.** Every namespaced root is read as Atom, even one whose
  local name is `rss` (`NamespacedRssRootIsAtom`).
- **`find_element_link`.** It is never called in the file. Its
  `channel`/`link` fallback repeats the lookup that has just failed, so it
  always yields `None` (`FindElementLinkFallsBackToText`).

## Model

| member | source | states |
|---|---|---|
| `Text.IsSpace` | rss_reader_custom_parser.py:105 | Python's `str.isspace` set, which decides what `strip()` removes at lines 80 and 105; `StripKeepsByteOrderMark` shows U+FEFF is outside it |
| `Text.SkipSpace` | rss_reader_custom_parser.py:105 | the left scan of `str.strip()`: everything it skips is whitespace, and it stops at a non-whitespace character or the end |
| `Text.SkipSpaceBack` | rss_reader_custom_parser.py:105 | the right scan of `str.strip()`: everything it skips is whitespace, and it stops after a non-whitespace character or at the left bound |
| `Text.Strip` | rss_reader_custom_parser.py:105 | `str.strip()`: the result has no whitespace at either end |
| `Text.StripCutsOnlySpace` | rss_reader_custom_parser.py:105 | the stripped text is a contiguous part of the input, and everything before and after it is whitespace |
| `Text.TakeUntil` | rss_reader_custom_parser.py:113 | `split('}')[0]`: the result is the longest prefix without `}`; it is shorter than the input exactly when `}` occurs, and then the next character is `}` |
| `ElementTree.Get` | rss_reader_custom_parser.py:87 | `Element.get`: the attribute's value, or None when the element has no such attribute; used at lines 140-144 |
| `ElementTree.Resolve` | rss_reader_custom_parser.py:79 | resolving a name fails exactly when the name has a prefix that the prefix map lacks |
| `ElementTree.FindIn` | rss_reader_custom_parser.py:79 | `find` gives None exactly when no child matches; otherwise it gives a matching child |
| `ElementTree.Find` | rss_reader_custom_parser.py:84 | `find` fails, with `UnboundPrefix`, exactly when the name cannot be resolved |
| `ElementTree.FindAll` | rss_reader_custom_parser.py:137 | `findall` fails, with `UnboundPrefix`, exactly when the name cannot be resolved |
| `ElementTree.FindAllIn` | rss_reader_custom_parser.py:137 | `findall` over the children (used at lines 137, 148, 157 and 189): its order and contents are stated by `FindAllSelected` and `FindIsFirstOfFindAll` |
| `ElementTree.FindIsFirstOfFindAll` | rss_reader_custom_parser.py:148 | `find` returns the first element `findall` returns, and None when `findall` returns nothing |
| `ElementTree.FindAllSelected` | rss_reader_custom_parser.py:189 | `findall` returns the matching children in document order: it is a subsequence of the children, every element of it matches, and every matching child appears as often as it occurs |
| `ElementTree.SelectsQualifiedTag` | rss_reader_custom_parser.py:126-132 | within one namespace, the query `{uri}a` selects the tag `{uri}b` exactly when `a == b`, also for the wildcard URI `*` |
| `ElementTree.SelectsPlainTag` | rss_reader_custom_parser.py:172 | an unqualified query selects exactly the tag it names |
| `Text.EndsWith` | rss_reader_custom_parser.py:118-119 | Python's `str.endswith`: the suffix is the last `|suffix|` characters; the dialect tests use it, see `DialectOfRoot` |
| `ElementTree.Selects` | rss_reader_custom_parser.py:79 | ElementPath's child-tag test: a `{*}` query matches the local name in any namespace or none, any other query matches the tag literally; its meaning is stated by `SelectsPlainTag` and `SelectsQualifiedTag` |
| `CustomParser.Truthy` | rss_reader_custom_parser.py:80 | Python truthiness of an optional string: present and non-empty, as tested at lines 80, 88, 91, 142-143, 153, 167 and 196 |
| `CustomParser.TextOf` | rss_reader_custom_parser.py:80 | a present result comes from a found element with text and has no whitespace at either end |
| `CustomParser.FindElementText` | rss_reader_custom_parser.py:77-80 | fails exactly when the name's prefix is not in the map, and then with `UnboundPrefix`; a present result has no whitespace at either end |
| `CustomParser.FindElementLink` | rss_reader_custom_parser.py:82-96 | fails exactly when the name's prefix is not in the map |
| `CustomParser.NamespaceMap` | rss_reader_custom_parser.py:111-114 | empty when the root tag has no `}`; otherwise exactly `{atom: uri}`, where `uri` has no `}` and is the text between the tag's first character and its first `}` |
| `CustomParser.DetectDialect` | rss_reader_custom_parser.py:118-119 | the ordered dialect decision, Atom before RSS; what it decides for each root tag is stated by `DialectOfRoot` |
| `CustomParser.IsCandidate` | rss_reader_custom_parser.py:140 | a link whose `rel` is `alternate`, missing or empty |
| `CustomParser.Preferred` | rss_reader_custom_parser.py:140-142 | a candidate link whose `href` is truthy, the link at which the loop stops; `PrimaryLinkIsFirstPreferred` states the choice |
| `CustomParser.PrimaryLink` | rss_reader_custom_parser.py:137-145 | the link choice: None without links, and a chosen `href` always belongs to one of the links; which one is stated by `PrimaryLinkIsFirstPreferred` and `PrimaryLinkFallback` |
| `CustomParser.SelectPrimaryLink` | rss_reader_custom_parser.py:137-145 | the loop with its early `break` and the fallback after it compute the link choice `PrimaryLink` |
| `CustomParser.Keep` | rss_reader_custom_parser.py:167 | the entry filter: a truthy title or a truthy link; `EveryEntryIsKept` and the document-order lemmas state its effect |
| `CustomParser.AtomEntry` | rss_reader_custom_parser.py:149-165 | one Atom entry: the title lookup, the link choice among its `atom:link` children, and the summary-else-content description; see `AtomDescriptionFromSummary` and `AtomDescriptionFromContent` |
| `CustomParser.AtomDocument` | rss_reader_custom_parser.py:134-168 | the Atom record; its fields are stated by `AtomFeedFields` and its entries by `AtomEntriesInDocumentOrder` |
| `CustomParser.RssEntry` | rss_reader_custom_parser.py:190-193 | one RSS item: the stripped texts of its first `title`, `link` and `description` children; see `DescriptionOnlyItemDropped` |
| `CustomParser.RssDocument` | rss_reader_custom_parser.py:185-197 | the RSS record of a channel; its fields are stated by `RssFeedFields` and its entries by `RssEntriesInDocumentOrder` |
| `CustomParser.NormalizeRoot` | rss_reader_custom_parser.py:108-203 | what the parser makes of a parsed tree; its cases are stated by `AtomFeedFields` and `AtomRootFailsIffUnqualified` (Atom), `RssWithoutChannelFails` and `RssFeedFields` (RSS: the record is `RssDocument` of the first `channel` child), and `UnrecognisedRootFails` (neither) |
| `CustomParser.Normalize` | rss_reader_custom_parser.py:99-210 | what `parse_feed_custom` makes of feed content; stated by `EmptyContentGivesNoRecord`, `MalformedContentGivesNoRecord`, `RecordOnlyFromParsedTree` and `EveryEntryIsKept`, and computed by `ParseFeedCustom` |
| `CustomParser.ReadAtomEntry` | rss_reader_custom_parser.py:149-165 | the step-by-step lookups of one Atom entry give `AtomEntry` of that element |
| `CustomParser.CollectAtomEntries` | rss_reader_custom_parser.py:148-168 | the loop appending kept Atom entries gives the kept entries of all `entry` children, in order |
| `CustomParser.CollectRssEntries` | rss_reader_custom_parser.py:189-197 | the loop appending kept RSS items gives the kept entries of all `item` children, in order |
| `CustomParser.ParseFeedCustom` | rss_reader_custom_parser.py:99-210 | the imperative normaliser computes exactly `Normalize(content, parse)`, so every property proved of `Normalize` holds of it |
| `CustomParser.AtomEntriesSnoc` | rss_reader_custom_parser.py:148 | extracting one more `entry` element appends its entry |
| `CustomParser.RssEntriesSnoc` | rss_reader_custom_parser.py:189 | extracting one more `item` element appends its entry |
| `CustomParserProperties.EmptyContentGivesNoRecord` | rss_reader_custom_parser.py:101-102 | empty content gives `EmptyInput`, whatever the XML parser would do |
| `CustomParserProperties.MalformedContentGivesNoRecord` | rss_reader_custom_parser.py:205-207 | content the XML parser rejects gives `Malformed` and no partial record |
| `CustomParserProperties.RecordOnlyFromParsedTree` | rss_reader_custom_parser.py:101-107 | a record comes only from non-empty content that the parser accepted, and it depends only on the parsed tree |
| `CustomParserProperties.StripEmptyIffAllSpace` | rss_reader_custom_parser.py:105 | stripping leaves the empty string exactly when the input is all whitespace |
| `CustomParserProperties.StripKeepsByteOrderMark` | rss_reader_custom_parser.py:104-105 | content starting with U+FEFF still starts with it after stripping |
| `CustomParserProperties.FindElementTextAbsent` | rss_reader_custom_parser.py:79-80 | with a resolvable name, the result is None exactly when no child matches or the first matching child's text is missing or empty |
| `CustomParserProperties.FindElementTextFirst` | rss_reader_custom_parser.py:79-80 | otherwise the result is the stripped text of the first matching child |
| `CustomParserProperties.WhitespaceTextIsEmptyString` | rss_reader_custom_parser.py:80 | whitespace-only text gives `""`, not None |
| `CustomParserProperties.FindElementLinkPrefersHref` | rss_reader_custom_parser.py:84-89 | a non-empty `href` on the first matching child is returned ahead of its text |
| `CustomParserProperties.FindElementLinkFallsBackToText` | rss_reader_custom_parser.py:90-96 | otherwise the result is that child's stripped text, or None when neither exists; the `channel` fallback never adds a value |
| `CustomParserProperties.NamespaceOfQualifiedRoot` | rss_reader_custom_parser.py:112-114 | a root tag `{uri}local` registers exactly `uri` under `atom` |
| `CustomParserProperties.DialectOfRoot` | rss_reader_custom_parser.py:118-123 | Atom exactly when the root tag contains `}` or ends in `feed`; otherwise RSS exactly when it ends in `rss`; otherwise unrecognised |
| `CustomParserProperties.NamespacedRssRootIsAtom` | rss_reader_custom_parser.py:118-123 | a namespaced root whose local name is `rss` is read as Atom |
| `CustomParserProperties.UnqualifiedAtomRootFails` | rss_reader_custom_parser.py:118-134 | a `...feed` root without a namespace gives `UnboundPrefix` and no record |
| `CustomParserProperties.AtomRootFailsIffUnqualified` | rss_reader_custom_parser.py:112-134 | a root read as Atom gives no record exactly when its tag has no namespace, and then the failure is `UnboundPrefix` |
| `CustomParserProperties.AtomFeedFields` | rss_reader_custom_parser.py:134-145 | a root `{uri}local` gives the Atom record of `uri`, whose feed title, description and link are the `atom:title` and `atom:subtitle` lookups and the link choice among the `atom:link` children |
| `CustomParserProperties.PrimaryLinkIsFirstPreferred` | rss_reader_custom_parser.py:139-142 | the `href` of the first link with a missing, empty or `alternate` rel and a non-empty `href` is chosen |
| `CustomParserProperties.PrimaryLinkFallback` | rss_reader_custom_parser.py:143-144 | without such a link the first link's `href` is chosen, and None when there are no links |
| `CustomParserProperties.SelfLinkNotChosen` | rss_reader_custom_parser.py:157-165 | when some alternate or typeless link has a non-empty `href`, the chosen link is such a link, never one with `rel="self"` |
| `CustomParserProperties.TypelessBeforeAlternate` | rss_reader_custom_parser.py:140 | an earlier typeless link beats a later `alternate` one |
| `CustomParserProperties.AtomDescriptionFromSummary` | rss_reader_custom_parser.py:151-153 | when the first `summary` child has text with a non-whitespace character, the description is that text stripped, whatever the `content` child holds |
| `CustomParserProperties.AtomDescriptionFromContent` | rss_reader_custom_parser.py:151-154 | when there is no `summary` child, or the first one's text is missing, empty or whitespace-only, the description is the `atom:content` lookup of `find_element_text` |
| `CustomParserProperties.EveryEntryIsKept` | rss_reader_custom_parser.py:167-168 | every entry of a returned record has a truthy title or link |
| `CustomParserProperties.AtomEntriesInDocumentOrder` | rss_reader_custom_parser.py:148-168 | Atom entries are the document-order subsequence of the `entry` children that pass the filter: in order, only kept ones, and every kept one as often as it occurs |
| `CustomParserProperties.RssEntriesInDocumentOrder` | rss_reader_custom_parser.py:189-197 | the same for RSS `item` children |
| `CustomParserProperties.DescriptionOnlyItemDropped` | rss_reader_custom_parser.py:191-197 | an item whose first `title` and `link` children are missing or have missing, empty or whitespace-only text adds no entry, whatever its description |
| `CustomParserProperties.RssWithoutChannelFails` | rss_reader_custom_parser.py:172-175 | an RSS root without a direct `channel` child gives `MissingChannel` |
| `CustomParserProperties.RssFeedFields` | rss_reader_custom_parser.py:172-197 | otherwise the record is `RssDocument` of the first `channel` child, with feed title, description and link the stripped texts of that channel's `title`, `description` and `link` children |
| `CustomParserProperties.UnrecognisedRootFails` | rss_reader_custom_parser.py:199-201 | a root that is neither Atom nor RSS gives `UnknownDialect` |
| `CustomParserExamples.RssSampleNormalized` | rss_reader_custom_parser.py:170-197 | a one-item RSS document gives its title and one entry with title, link and no description |
| `CustomParserExamples.UnknownSampleRejected` | rss_reader_custom_parser.py:199-201 | `<foo><bar/></foo>` gives `UnknownDialect` |
| `CustomParserExamples.AtomSampleNormalized` | rss_reader_custom_parser.py:123-168 | a namespaced Atom entry with a `self` link before an `alternate` one gets the alternate link |
| `CustomParserExamples.UnqualifiedAtomSampleRejected` | rss_reader_custom_parser.py:126-134 | the same Atom document without a namespace gives no record |

## Left out

- `fetch_feed_content` is left out: HTTP through `requests`, status checks and
  the encoding fallback are network I/O and a foreign library.
- `parse_feed_library` and the `parse_feed` functions of `rss_reader_basic.py`
  and `rss_reader_multi.py` are left out: they wrap `feedparser`, whose
  behaviour is not visible.
- `display_parsed_data`, `display_feed_data`, `main` and the URL-collecting
  functions are left out: they are printing, argument parsing, interactive
  input and `sys.exit`.
- All diagnostics written to stderr are left out; their only effect on the
  result is the failure, which the model keeps.
- `ET.fromstring` is not modelled: XML tokenising and parsing are the
  parameter `parse`.
- Content that is `None` is not separately modelled: the content is a string,
  and the empty string stands for every falsy input.
- ElementPath beyond one-step names is not modelled: the source only calls
  `find`/`findall` with `title`-like or `atom:title`-like names. The
  wildcard forms `{*}*`, `{}*` and `...}*` are left out too, because they
  need the local name `*`, which the source never uses.
- The `namespaces=None` default of `find_element_text` and
  `find_element_link` is not modelled: the parser always passes its prefix
  map, and the model always takes one. With `None`, the C-accelerated
  `Element.find` would compare a name such as `atom:link` with the tag
  literally instead of failing.
- ElementPath's rewrite of a query `{}local` to `local` is not modelled:
  `Selects` compares such a query literally. `NamespaceMap` produces the URI
  `""` only for root tags that start with `{}` or `}`, and `ET.fromstring`
  never produces such tags.
- Comments and processing instructions in the tree are not modelled:
  `ET.fromstring` drops them, so every child is an element.
- Python strings are sequences of Unicode code points. Dafny's `char` is a
  Unicode scalar value, so lone surrogates cannot be represented.
- `CustomParser.FindElementLink`: its contract states only when it fails; what it returns is stated by `FindElementLinkPrefersHref` and `FindElementLinkFallsBackToText`.
- Idempotence (the same content always gives the same record) needs no lemma:
  `Normalize` is a function, and `ParseFeedCustom` is proved to compute it.
