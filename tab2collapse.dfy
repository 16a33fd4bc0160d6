/**
 * The one-shot collapser of tab2collapse.js. When the width gate passes, a `Tab2collapse`
 * instance reads the titles and panes of its container once and, if their counts match,
 * replaces the container's children by heading/body fragments, pair by pair.
 *
 * The container is its sequence of direct children: tab lists, content areas, fragments
 * of generated markup and anything else.
 */
module Tab2collapsePlugin {
  import opened Wrappers
  import opened Mustache
  import opened Tabs

  /** A direct child of the container. */
  datatype Node =
    | NavTabs(titles: seq<Title>)     // a `ul.nav-tabs` and the anchors of its `li`s
    | TabContent(panes: seq<Pane>)    // a `div.tab-content` and its `section.tab-pane`s
    | Fragment(html: string)          // markup appended by the plugin
    | Other(html: string)             // anything else

  /** `$el.find('> ul.nav-tabs li a')`, in document order. */
  function Titles(cs: seq<Node>): seq<Title>
  {
    if cs == [] then []
    else (if cs[0].NavTabs? then cs[0].titles else []) + Titles(cs[1..])
  }

  /** `$el.find('> div.tab-content section.tab-pane')`, in document order. */
  function Panes(cs: seq<Node>): seq<Pane>
  {
    if cs == [] then []
    else (if cs[0].TabContent? then cs[0].panes else []) + Panes(cs[1..])
  }

  // The literal pieces of the two templates of `getTemplates`.
  const HeadingOpen := "<div class=\"panel-heading\"><h4 class=\"panel-title\"><a class=\"accordion-toggle\" data-toggle=\"collapse\" data-parent=\"#accordion\" href=\""
  const HrefClose := "\">"
  const HeadingClose := "</a></h4></div>"
  const ContentOpen := "<div id=\""
  const ContentMid := "\" class=\"panel-collapse collapse\"><div class=\"panel-body\">"
  const ContentClose := "</div></div>"

  function HeadingTemplate(): Template
  {
    [Text(HeadingOpen), Escaped("target"), Text(HrefClose), Raw("title"), Text(HeadingClose)]
  }

  function ContentTemplate(): Template
  {
    [Text(ContentOpen), Escaped("id"), Text(ContentMid), Raw("content"), Text(ContentClose)]
  }

  function Heading(t: Title, esc: string -> string): string
  {
    Render(HeadingTemplate(), HeadFields(t), esc)
  }

  function Body(p: Pane, esc: string -> string): string
  {
    Render(ContentTemplate(), BodyFields(p), esc)
  }

  /**
   * Heading i: fixed `h4`, parent `#accordion`, and `href` the escaped target with no
   * suffix; the title HTML is inserted raw.
   */
  lemma HeadingShape(t: Title, esc: string -> string)
    ensures Heading(t, esc) == HeadingOpen + AttrText(t.target, esc) + HrefClose + t.html + HeadingClose
  {
    RenderTwoSlots(HeadingOpen, "target", HrefClose, "title", HeadingClose, HeadFields(t), esc);
    HeadFieldsLookup(t, esc);
  }

  /** Body i: `id` the escaped pane id with no suffix; the pane HTML is inserted raw. */
  lemma BodyShape(p: Pane, esc: string -> string)
    ensures Body(p, esc) == ContentOpen + AttrText(p.id, esc) + ContentMid + p.html + ContentClose
  {
    RenderTwoSlots(ContentOpen, "id", ContentMid, "content", ContentClose, BodyFields(p), esc);
    BodyFieldsLookup(p, esc);
  }

  function Headings(ts: seq<Title>, esc: string -> string): seq<string>
  {
    seq(|ts|, i requires 0 <= i < |ts| => Heading(ts[i], esc))
  }

  function Bodies(ps: seq<Pane>, esc: string -> string): seq<string>
  {
    seq(|ps|, i requires 0 <= i < |ps| => Body(ps[i], esc))
  }

  /** What the shared render loop returns is the headings and bodies of this plugin. */
  lemma RenderedPairs(heads: seq<string>, bodies: seq<string>, ts: seq<Title>, ps: seq<Pane>, esc: string -> string)
    requires |heads| == |ts| && |bodies| == |ps|
    requires forall i :: 0 <= i < |ts| ==> heads[i] == Render(HeadingTemplate(), HeadFields(ts[i]), esc)
    requires forall i :: 0 <= i < |ps| ==> bodies[i] == Render(ContentTemplate(), BodyFields(ps[i]), esc)
    ensures heads == Headings(ts, esc) && bodies == Bodies(ps, esc)
  {
  }

  /** The appended children: heading 0, body 0, heading 1, body 1, … */
  function Fragments(hs: seq<string>, bs: seq<string>): seq<Node>
    requires |hs| == |bs|
  {
    if hs == [] then []
    else Fragments(hs[..|hs| - 1], bs[..|bs| - 1]) + [Fragment(hs[|hs| - 1]), Fragment(bs[|bs| - 1])]
  }

  /** Exactly two fragments per pair, heading i at 2i and body i at 2i + 1. */
  lemma {:induction false} FragmentsAt(hs: seq<string>, bs: seq<string>)
    requires |hs| == |bs|
    ensures |Fragments(hs, bs)| == 2 * |hs|
    ensures forall k :: 0 <= k < |hs| ==>
              Fragments(hs, bs)[2 * k] == Fragment(hs[k]) && Fragments(hs, bs)[2 * k + 1] == Fragment(bs[k])
  {
    if hs != [] {
      var n := |hs| - 1;
      FragmentsAt(hs[..n], bs[..n]);
      forall k | 0 <= k < n
        ensures hs[..n][k] == hs[k] && bs[..n][k] == bs[k]
      {
      }
    }
  }

  lemma {:induction false} TitlesAppend(a: seq<Node>, b: seq<Node>)
    ensures Titles(a + b) == Titles(a) + Titles(b)
  {
    if a == [] {
      assert a + b == b;
    } else {
      var first := if a[0].NavTabs? then a[0].titles else [];
      assert (a + b)[0] == a[0];
      assert (a + b)[1..] == a[1..] + b;
      assert Titles(a + b) == first + Titles(a[1..] + b);
      TitlesAppend(a[1..], b);
      assert Titles(a) == first + Titles(a[1..]);
    }
  }

  lemma {:induction false} PanesAppend(a: seq<Node>, b: seq<Node>)
    ensures Panes(a + b) == Panes(a) + Panes(b)
  {
    if a == [] {
      assert a + b == b;
    } else {
      var first := if a[0].TabContent? then a[0].panes else [];
      assert (a + b)[0] == a[0];
      assert (a + b)[1..] == a[1..] + b;
      assert Panes(a + b) == first + Panes(a[1..] + b);
      PanesAppend(a[1..], b);
      assert Panes(a) == first + Panes(a[1..]);
    }
  }

  /** The new children hold no tab list and no content area. */
  lemma {:induction false} FragmentsHaveNoTabs(hs: seq<string>, bs: seq<string>)
    requires |hs| == |bs|
    ensures Titles(Fragments(hs, bs)) == [] && Panes(Fragments(hs, bs)) == []
  {
    if hs != [] {
      var n := |hs| - 1;
      FragmentsHaveNoTabs(hs[..n], bs[..n]);
      var pair := [Fragment(hs[n]), Fragment(bs[n])];
      assert pair[1..][1..] == [];
      assert Titles(pair[1..]) == [] && Panes(pair[1..]) == [];
      assert Titles(pair) == [] && Panes(pair) == [];
      TitlesAppend(Fragments(hs[..n], bs[..n]), pair);
      PanesAppend(Fragments(hs[..n], bs[..n]), pair);
    }
  }

  /** One more pair appends its heading and then its body. */
  lemma FragmentsSnoc(hs: seq<string>, bs: seq<string>, i: nat)
    requires |hs| == |bs| && i < |hs|
    ensures Fragments(hs[..i + 1], bs[..i + 1]) == Fragments(hs[..i], bs[..i]) + [Fragment(hs[i]), Fragment(bs[i])]
  {
    assert hs[..i + 1][..i] == hs[..i] && bs[..i + 1][..i] == bs[..i];
  }

  /** The children after construction: unchanged on a count mismatch, else the fragments. */
  function Collapse(cs: seq<Node>, esc: string -> string): seq<Node>
  {
    var ts, ps := Titles(cs), Panes(cs);
    if |ts| != |ps| then cs else Fragments(Headings(ts, esc), Bodies(ps, esc))
  }

  lemma MismatchUnchanged(cs: seq<Node>, esc: string -> string)
    requires |Titles(cs)| != |Panes(cs)|
    ensures Collapse(cs, esc) == cs
  {
  }

  /**
   * On matching counts the previous children are gone and the container holds exactly the
   * 2 × n fragments, in index order; with no pairs it ends up empty.
   */
  lemma CollapseContents(cs: seq<Node>, esc: string -> string)
    requires |Titles(cs)| == |Panes(cs)|
    ensures var r, ts, ps := Collapse(cs, esc), Titles(cs), Panes(cs);
            |r| == 2 * |ts| &&
            (forall k :: 0 <= k < |ts| ==>
               r[2 * k] == Fragment(Heading(ts[k], esc)) && r[2 * k + 1] == Fragment(Body(ps[k], esc))) &&
            (|ts| == 0 ==> r == [])
  {
    FragmentsAt(Headings(Titles(cs), esc), Bodies(Panes(cs), esc));
  }

  /**
   * Running the collapser a second time on the same container finds no tabs, so the counts
   * match (both zero) and the container is emptied.
   */
  lemma CollapseTwiceEmpties(cs: seq<Node>, esc: string -> string)
    requires |Titles(cs)| == |Panes(cs)|
    ensures Collapse(Collapse(cs, esc), esc) == []
  {
    FragmentsHaveNoTabs(Headings(Titles(cs), esc), Bodies(Panes(cs), esc));
  }

  // ---------------------------------------------------------------- entry point

  /** The caller's options object; only `breakWidth` is read. */
  datatype CallerOptions = CallerOptions(breakWidth: Option<int>)

  datatype Decision = Skip | Construct | Throw

  /**
   * `typeof option === 'object' && option` then `options.breakWidth > width`, as written:
   * a non-object gives `false`, whose `breakWidth` is undefined and compares false; `null`
   * passes the `typeof` test and reading `null.breakWidth` throws a TypeError.
   */
  function GateAsWritten(arg: Arg<CallerOptions>, documentWidth: int): (d: Decision)
    ensures d == Throw <==> arg.Null?
    ensures d == Construct <==> arg.AnObject? && arg.value.breakWidth.Some? && arg.value.breakWidth.value > documentWidth
  {
    match arg
    case NotAnObject => Skip
    case Null => Throw
    case AnObject(c) => if c.breakWidth.Some? && c.breakWidth.value > documentWidth then Construct else Skip
  }

  /** The `null` options argument that the `typeof` guard lets through. */
  lemma NullOptionsThrow(documentWidth: int)
    ensures GateAsWritten(Null, documentWidth) == Throw
  {
  }

  /** The gate as intended: every non-object, `null` included, is a silent no-op. */
  function Gate(arg: Arg<CallerOptions>, documentWidth: int): (d: Decision)
    ensures d != Throw
    ensures d == Construct <==> arg.AnObject? && arg.value.breakWidth.Some? && arg.value.breakWidth.value > documentWidth
  {
    if arg.AnObject? && arg.value.breakWidth.Some? && arg.value.breakWidth.value > documentWidth then Construct
    else Skip
  }

  /** The two gates differ only on `null`. */
  lemma GatesAgreeOffNull(arg: Arg<CallerOptions>, documentWidth: int)
    requires !arg.Null?
    ensures Gate(arg, documentWidth) == GateAsWritten(arg, documentWidth)
  {
  }

  // ---------------------------------------------------------------- objects

  /** The container element. */
  class Host {
    var children: seq<Node>
  }

  class Tab2collapse {
    const el: Host

    /** Reads the tabs, renders every pair, then empties the container and appends them. */
    constructor (el: Host, esc: string -> string)
      modifies el
      ensures this.el == el
      ensures el.children == Collapse(old(el.children), esc)
    {
      this.el := el;
      new;
      var titles, panes := Titles(el.children), Panes(el.children);
      if |titles| == |panes| {
        var heads, bodies := RenderPairs(HeadingTemplate(), ContentTemplate(), titles, panes, esc);
        RenderedPairs(heads, bodies, titles, panes, esc);
        el.children := [];
        var i := 0;
        while i < |titles|
          invariant 0 <= i <= |titles|
          invariant el.children == Fragments(heads[..i], bodies[..i])
        {
          FragmentsSnoc(heads, bodies, i);
          el.children := el.children + [Fragment(heads[i])];
          el.children := el.children + [Fragment(bodies[i])];
          i := i + 1;
        }
        assert heads[..|titles|] == heads && bodies[..|panes|] == bodies;
      }
    }
  }

  datatype Outcome = Untouched | Constructed(instance: Tab2collapse)

  /** `$.fn.tab2collapse` on one element, with the corrected gate. */
  method Attach(el: Host, arg: Arg<CallerOptions>, documentWidth: int, esc: string -> string)
    returns (r: Outcome)
    modifies el
    ensures r.Constructed? <==> Gate(arg, documentWidth) == Construct
    ensures r.Constructed? ==> r.instance.el == el && el.children == Collapse(old(el.children), esc)
    ensures r.Untouched? ==> el.children == old(el.children)
  {
    if Gate(arg, documentWidth) == Construct {
      var t := new Tab2collapse(el, esc);
      return Constructed(t);
    }
    return Untouched;
  }
}
