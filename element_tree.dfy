/**
 * The slice of Python's xml.etree.ElementTree that the feed parser uses:
 * elements, `Element.get`, and `find`/`findall` with a single-step name and
 * a prefix map.
 */
module ElementTree {
  import opened Results
  import opened Text
  import opened Sequences

  /**
   * A parsed XML element. A namespaced element's tag is `{uri}local`; `text`
   * is the character data before the first child (None when there is none).
   */
  datatype Element = Element(tag: string, attrs: map<string, string>, text: Option<string>, children: seq<Element>)

  /** `Element.get(key)`: the attribute's value, or None. */
  function Get(e: Element, key: string): Option<string> {
    if key in e.attrs then Some(e.attrs[key]) else None
  }

  /** A single-step path: `title`, or `atom:title` with a namespace prefix. */
  datatype Name = Local(local: string) | Prefixed(prefix: string, local: string)

  /** The tag ElementTree gives an element `local` in namespace `uri`. */
  function QualifiedTag(uri: string, local: string): string {
    "{" + uri + "}" + local
  }

  /**
   * How ElementPath turns a name into the tag it compares with: a prefix is
   * replaced by its URI from the prefix map (a missing prefix is an error),
   * and an unprefixed name takes the default namespace (key "") if the map
   * has a non-empty one.
   */
  function Resolve(name: Name, ns: map<string, string>): (r: Option<string>)
    ensures r.None? <==> name.Prefixed? && name.prefix !in ns
  {
    match name
    case Prefixed(p, l) => if p in ns then Some(QualifiedTag(ns[p], l)) else None
    case Local(l) => if "" in ns && ns[""] != "" then Some(QualifiedTag(ns[""], l)) else Some(l)
  }

  /**
   * Whether a child with tag `tag` is selected by the resolved tag `query`.
   * ElementPath reads the namespace `{*}` as "any namespace or none".
   */
  predicate Selects(query: string, tag: string) {
    if |query| >= 3 && query[..3] == "{*}" then tag == query[3..] || EndsWith(tag, query[2..])
    else tag == query
  }

  /** A query that does not start with `{` selects exactly the tag it names. */
  lemma SelectsPlainTag(query: string, tag: string)
    requires query == [] || query[0] != '{'
    ensures Selects(query, tag) <==> tag == query
  {
    if |query| >= 3 {
      assert query[..3][0] == query[0];
    }
  }

  /**
   * Within one namespace, a qualified query selects exactly the element with
   * that local name, also for the wildcard namespace `*`.
   */
  lemma SelectsQualifiedTag(uri: string, a: string, b: string)
    requires '}' !in uri && '}' !in a && '}' !in b
    ensures Selects(QualifiedTag(uri, a), QualifiedTag(uri, b)) <==> a == b
  {
    var q, t := QualifiedTag(uri, a), QualifiedTag(uri, b);
    var n := |uri| + 2;
    assert q[n..] == a && t[n..] == b;
    if uri == "*" {
      assert q[..3] == "{*}";
      // the only `}` in t is the one closing the namespace
      assert forall j :: 0 <= j < |t| && t[j] == '}' ==> j == 2 by {
        assert forall j :: 3 <= j < |t| ==> t[j] == b[j - 3];
      }
      if EndsWith(t, q[2..]) {
        var suffix := q[2..];
        assert suffix == "}" + a;
        var d := |t| - |suffix|;
        assert t[d..] == suffix;
        assert t[d] == '}';
        assert d == 2;
        assert t[3..] == a;
      }
    } else {
      if |q| >= 3 {
        if |uri| == 0 {
          assert q[..3][1] == '}';
        } else if |uri| == 1 {
          assert q[..3][1] == uri[0];
        } else {
          assert q[..3][2] == uri[1];
        }
      }
      if q == t {
        assert a == t[n..];
      }
    }
  }

  function SelectsTag(query: string): Element -> bool {
    (c: Element) => Selects(query, c.tag)
  }

  /** The first child selected by `query`, in document order. */
  function FindIn(children: seq<Element>, query: string): (r: Option<Element>)
    ensures r.None? <==> forall i :: 0 <= i < |children| ==> !Selects(query, children[i].tag)
    ensures r.Some? ==> r.value in children && Selects(query, r.value.tag)
  {
    var k := FirstIndex(SelectsTag(query), children);
    if k < |children| then Some(children[k]) else None
  }

  /** Every child selected by `query`, in document order. */
  function FindAllIn(children: seq<Element>, query: string): seq<Element> {
    Filter(SelectsTag(query), children)
  }

  /** `parent.find(name, ns)`. */
  function Find(parent: Element, name: Name, ns: map<string, string>): (r: Result<Option<Element>>)
    ensures r.Err? ==> r.error == UnboundPrefix
    ensures r.Err? <==> Resolve(name, ns).None?
  {
    match Resolve(name, ns)
    case None => Err(UnboundPrefix)
    case Some(query) => Ok(FindIn(parent.children, query))
  }

  /** `parent.findall(name, ns)`. */
  function FindAll(parent: Element, name: Name, ns: map<string, string>): (r: Result<seq<Element>>)
    ensures r.Err? ==> r.error == UnboundPrefix
    ensures r.Err? <==> Resolve(name, ns).None?
  {
    match Resolve(name, ns)
    case None => Err(UnboundPrefix)
    case Some(query) => Ok(FindAllIn(parent.children, query))
  }

  /** `findall` over one more child. */
  lemma FindAllInSnoc(children: seq<Element>, c: Element, query: string)
    ensures FindAllIn(children + [c], query)
            == FindAllIn(children, query) + (if Selects(query, c.tag) then [c] else [])
  {
    FilterSnoc(SelectsTag(query), children, c);
  }

  /** `find` returns the first element `findall` returns, and None when that is empty. */
  lemma FindIsFirstOfFindAll(children: seq<Element>, query: string)
    ensures FindIn(children, query) == if FindAllIn(children, query) == [] then None
                                       else Some(FindAllIn(children, query)[0])
  {
    var p := SelectsTag(query);
    FilterEmpty(p, children);
    if FirstIndex(p, children) < |children| {
      FilterHead(p, children);
    }
  }

  /** `findall` returns exactly the selected children, in document order. */
  lemma FindAllSelected(children: seq<Element>, query: string)
    ensures IsSubsequence(FindAllIn(children, query), children)
    ensures forall c :: c in FindAllIn(children, query) ==> Selects(query, c.tag)
    ensures forall c: Element :: Selects(query, c.tag) ==>
              multiset(FindAllIn(children, query))[c] == multiset(children)[c]
  {
    var p := SelectsTag(query);
    FilterIsSubsequence(p, children);
    FilterSound(p, children);
    forall c: Element | Selects(query, c.tag)
      ensures multiset(FindAllIn(children, query))[c] == multiset(children)[c]
    {
      FilterComplete(p, children, c);
    }
  }
}
