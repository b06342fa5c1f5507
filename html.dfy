/**
 * `strip_html`, shared verbatim by the section builder and the scraper
 * pipeline: parse markup, detach every `table` element, join all remaining
 * text nodes with spaces and collapse the whitespace.
 *
 * The tree follows lxml's shape: an element owns its leading `text` and
 * the `tail` text that follows its end tag, so detaching a table with
 * `getparent().remove(table)` also drops the text right after the table.
 */
module Html {
  import opened Common
  import opened Text

  datatype Element = Element(tag: string, text: string, children: seq<Element>, tail: string)

  /** `lxml.html.fromstring`, an opaque parser giving the document tree. */
  type Parser = Value -> Result<Element>

  const TableTag := "table"

  /** XPath `//text()` below `e`: its text, then each child's texts followed by the child's tail. */
  function Texts(e: Element): seq<string>
    decreases e
  {
    [e.text] + ChildTexts(e.children)
  }

  function ChildTexts(cs: seq<Element>): seq<string>
    decreases cs
  {
    if cs == [] then [] else Texts(cs[0]) + [cs[0].tail] + ChildTexts(cs[1..])
  }

  /** The tree after `for table in root.xpath('//table'): table.getparent().remove(table)`. */
  function RemoveTables(e: Element): Element
    decreases e
  {
    Element(e.tag, e.text, WithoutTables(e.children), e.tail)
  }

  function WithoutTables(cs: seq<Element>): seq<Element>
    decreases cs
  {
    if cs == [] then []
    else (if cs[0].tag == TableTag then [] else [RemoveTables(cs[0])]) + WithoutTables(cs[1..])
  }

  /**
   * Every text node of the ORIGINAL tree in document order, marked `true`
   * when it belongs to a table: it lies inside a table element or is the
   * tail of one.
   */
  function Marked(e: Element, inTable: bool): seq<(string, bool)>
    decreases e
  {
    var t := inTable || e.tag == TableTag;
    [(e.text, t)] + MarkedChildren(e.children, t)
  }

  function MarkedChildren(cs: seq<Element>, inTable: bool): seq<(string, bool)>
    decreases cs
  {
    if cs == [] then []
    else Marked(cs[0], inTable) + [(cs[0].tail, inTable || cs[0].tag == TableTag)]
         + MarkedChildren(cs[1..], inTable)
  }

  function Unmarked(ms: seq<(string, bool)>): seq<string>
  {
    if ms == [] then [] else [ms[0].0] + Unmarked(ms[1..])
  }

  /** The texts whose mark is `false`, in order. */
  function Kept(ms: seq<(string, bool)>): seq<string>
  {
    if ms == [] then [] else (if ms[0].1 then [] else [ms[0].0]) + Kept(ms[1..])
  }

  /** The text nodes of the document that belong to no table. */
  function KeptTexts(root: Element): seq<string>
  {
    Kept(Marked(root, false))
  }

  /**
   * XPath `//text()` once the tables are detached. `lxml.html.fromstring`
   * hands back an element that still hangs in the `body` it wrapped the
   * markup in, so a table at the root is detached from that `body` too and
   * leaves no text behind.
   */
  function RemainingTexts(root: Element): seq<string>
  {
    if root.tag == TableTag then [] else Texts(RemoveTables(root))
  }

  /** The text left after table removal is exactly the text outside every table. */
  lemma RemainingTextsAreKept(root: Element)
    ensures RemainingTexts(root) == KeptTexts(root)
  {
    if root.tag == TableTag {
      assert Marked(root, false) == Marked(root, true);
      NothingKeptInTable(root);
    } else {
      RemovedTablesKeepMarked(root);
    }
  }

  /** `strip_html` on a parsed document: it never raises. */
  function StripHtml(root: Element): string
  {
    Collapse(Join(RemainingTexts(root), " "))
  }

  /**
   * The stripped text is whitespace-normalised, a fixed point of the
   * collapse, and holds exactly the words of the text nodes outside every
   * table, in document order.
   */
  lemma StripHtmlNormalizesKeptText(root: Element)
    ensures Normalized(StripHtml(root))
    ensures Collapse(StripHtml(root)) == StripHtml(root)
    ensures Words(StripHtml(root)) == WordsOfAll(KeptTexts(root))
  {
    var joined := Join(RemainingTexts(root), " ");
    CollapseNormalized(joined);
    CollapseKeepsWords(joined);
    CollapseIdempotent(joined);
    WordsOfJoin(RemainingTexts(root));
    RemainingTextsAreKept(root);
  }

  lemma {:induction false} KeptAppend(a: seq<(string, bool)>, b: seq<(string, bool)>)
    ensures Kept(a + b) == Kept(a) + Kept(b)
  {
    if a != [] {
      assert (a + b)[0] == a[0] && (a + b)[1..] == a[1..] + b;
      KeptAppend(a[1..], b);
      assert Kept(a + b) == (if a[0].1 then [] else [a[0].0]) + Kept(a[1..] + b);
    } else {
      assert a + b == b;
    }
  }

  lemma {:induction false} UnmarkedAppend(a: seq<(string, bool)>, b: seq<(string, bool)>)
    ensures Unmarked(a + b) == Unmarked(a) + Unmarked(b)
  {
    if a != [] {
      assert (a + b)[0] == a[0] && (a + b)[1..] == a[1..] + b;
      UnmarkedAppend(a[1..], b);
      assert Unmarked(a + b) == [a[0].0] + Unmarked(a[1..] + b);
    } else {
      assert a + b == b;
    }
  }

  /** The marking annotates exactly the text nodes `//text()` returns. */
  lemma {:induction false} MarkedCoversTexts(e: Element, inTable: bool)
    ensures Unmarked(Marked(e, inTable)) == Texts(e)
    decreases e
  {
    var t := inTable || e.tag == TableTag;
    MarkedChildrenCoverTexts(e.children, t);
    UnmarkedAppend([(e.text, t)], MarkedChildren(e.children, t));
  }

  lemma {:induction false} MarkedChildrenCoverTexts(cs: seq<Element>, inTable: bool)
    ensures Unmarked(MarkedChildren(cs, inTable)) == ChildTexts(cs)
    decreases cs
  {
    if cs != [] {
      var a := Marked(cs[0], inTable);
      var b := [(cs[0].tail, inTable || cs[0].tag == TableTag)];
      var c := MarkedChildren(cs[1..], inTable);
      MarkedCoversTexts(cs[0], inTable);
      MarkedChildrenCoverTexts(cs[1..], inTable);
      UnmarkedAppend(a + b, c);
      UnmarkedAppend(a, b);
    }
  }

  /** Inside a table every text node is marked. */
  lemma {:induction false} NothingKeptInTable(e: Element)
    ensures Kept(Marked(e, true)) == []
    decreases e
  {
    NothingKeptInTableChildren(e.children);
    KeptAppend([(e.text, true)], MarkedChildren(e.children, true));
  }

  lemma {:induction false} NothingKeptInTableChildren(cs: seq<Element>)
    ensures Kept(MarkedChildren(cs, true)) == []
    decreases cs
  {
    if cs != [] {
      var a := Marked(cs[0], true);
      var b := [(cs[0].tail, true)];
      NothingKeptInTable(cs[0]);
      NothingKeptInTableChildren(cs[1..]);
      KeptAppend(a + b, MarkedChildren(cs[1..], true));
      KeptAppend(a, b);
    }
  }

  /** After the tables are detached, `//text()` yields exactly the unmarked text nodes. */
  lemma {:induction false} RemovedTablesKeepMarked(e: Element)
    requires e.tag != TableTag
    ensures Texts(RemoveTables(e)) == Kept(Marked(e, false))
    decreases e
  {
    RemovedTablesKeepMarkedChildren(e.children);
    KeptAppend([(e.text, false)], MarkedChildren(e.children, false));
  }

  lemma {:induction false} RemovedTablesKeepMarkedChildren(cs: seq<Element>)
    ensures ChildTexts(WithoutTables(cs)) == Kept(MarkedChildren(cs, false))
    decreases cs
  {
    if cs != [] {
      var c := cs[0];
      var a := Marked(c, false);
      var b := [(c.tail, c.tag == TableTag)];
      var rest := MarkedChildren(cs[1..], false);
      RemovedTablesKeepMarkedChildren(cs[1..]);
      KeptAppend(a + b, rest);
      KeptAppend(a, b);
      ChildTextsAppend(if c.tag == TableTag then [] else [RemoveTables(c)], WithoutTables(cs[1..]));
      if c.tag == TableTag {
        assert a == Marked(c, true);
        NothingKeptInTable(c);
      } else {
        RemovedTablesKeepMarked(c);
        assert ChildTexts([RemoveTables(c)]) == Texts(RemoveTables(c)) + [c.tail] + ChildTexts([]);
      }
    }
  }

  lemma {:induction false} ChildTextsAppend(a: seq<Element>, b: seq<Element>)
    ensures ChildTexts(a + b) == ChildTexts(a) + ChildTexts(b)
    decreases a
  {
    if a != [] {
      assert (a + b)[0] == a[0] && (a + b)[1..] == a[1..] + b;
      ChildTextsAppend(a[1..], b);
      assert ChildTexts(a + b) == Texts(a[0]) + [a[0].tail] + ChildTexts(a[1..] + b);
    } else {
      assert a + b == b;
    }
  }

  lemma {:induction false} WordsOfAllMember(ts: seq<string>, w: string)
    requires w in WordsOfAll(ts)
    ensures exists i :: 0 <= i < |ts| && w in Words(ts[i])
  {
    if w !in Words(ts[0]) {
      WordsOfAllMember(ts[1..], w);
      var i :| 0 <= i < |ts[1..]| && w in Words(ts[1..][i]);
      assert w in Words(ts[i + 1]);
    }
  }

  lemma {:induction false} KeptMember(ms: seq<(string, bool)>, t: string)
    requires t in Kept(ms)
    ensures exists i :: 0 <= i < |ms| && ms[i] == (t, false)
  {
    if ms[0] != (t, false) {
      KeptMember(ms[1..], t);
      var i :| 0 <= i < |ms[1..]| && ms[1..][i] == (t, false);
      assert ms[i + 1] == (t, false);
    }
  }

  /**
   * Table text never reaches the output: every word of the stripped text
   * occurs in a text node of the document that is outside all tables.
   */
  lemma TableTextDropped(root: Element, w: string)
    requires w in Words(StripHtml(root))
    ensures exists i :: 0 <= i < |Marked(root, false)|
                        && !Marked(root, false)[i].1 && w in Words(Marked(root, false)[i].0)
  {
    var ms := Marked(root, false);
    StripHtmlNormalizesKeptText(root);
    WordsOfAllMember(KeptTexts(root), w);
    var k :| 0 <= k < |KeptTexts(root)| && w in Words(KeptTexts(root)[k]);
    KeptMember(ms, KeptTexts(root)[k]);
  }
}
