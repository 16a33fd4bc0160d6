/**
 * What both plugins read from the tab markup, and the render loop they share: for every
 * index, one heading fragment from the title and one body fragment from the pane.
 */
module Tabs {
  import opened Wrappers
  import opened Mustache

  /** A tab anchor: its `href` attribute (None when undefined) and its inner HTML. */
  datatype Title = Title(target: Option<string>, html: string)

  /** A tab pane: its `id` attribute (None when undefined) and its inner HTML. */
  datatype Pane = Pane(id: Option<string>, html: string)

  /** The plugin's options argument, classified by JavaScript's `typeof`. */
  datatype Arg<T> = NotAnObject | Null | AnObject(value: T)

  /** An escaped attribute value, or nothing when the attribute is undefined. */
  function AttrText(a: Option<string>, esc: string -> string): string
  {
    if a.Some? then esc(a.value) else ""
  }

  function AttrField(key: string, attr: Option<string>): Fields
  {
    if attr.Some? then map[key := attr.value] else map[]
  }

  /** The object `head` built at tabcordion.js:165 and tab2collapse.js:98: `target` from `href`, `title` from the anchor's HTML. */
  function HeadFields(t: Title): Fields
  {
    AttrField("target", t.target)["title" := t.html]
  }

  /** The object `body` built at tabcordion.js:166 and tab2collapse.js:99: `id` from the pane's `id`, `content` from its HTML. */
  function BodyFields(p: Pane): Fields
  {
    AttrField("id", p.id)["content" := p.html]
  }

  lemma HeadFieldsLookup(t: Title, esc: string -> string)
    ensures Lookup(HeadFields(t), "title") == t.html
    ensures EscapedValue(HeadFields(t), "target", esc) == AttrText(t.target, esc)
  {
  }

  lemma BodyFieldsLookup(p: Pane, esc: string -> string)
    ensures Lookup(BodyFields(p), "content") == p.html
    ensures EscapedValue(BodyFields(p), "id", esc) == AttrText(p.id, esc)
  {
  }

  /**
   * The first loop of both builders: fills `heads` and `bodies` index by index, the heading
   * from title i and the body from pane i. The callers have already checked the counts.
   */
  method RenderPairs(heading: Template, content: Template, titles: seq<Title>, panes: seq<Pane>,
                     esc: string -> string)
    returns (heads: seq<string>, bodies: seq<string>)
    requires |titles| == |panes|
    ensures |heads| == |titles| && |bodies| == |panes|
    ensures forall i :: 0 <= i < |titles| ==>
              heads[i] == Render(heading, HeadFields(titles[i]), esc) &&
              bodies[i] == Render(content, BodyFields(panes[i]), esc)
  {
    heads, bodies := [], [];
    var i := 0;
    while i < |titles|
      invariant 0 <= i <= |titles|
      invariant |heads| == i && |bodies| == i
      invariant forall k :: 0 <= k < i ==>
                  heads[k] == Render(heading, HeadFields(titles[k]), esc) &&
                  bodies[k] == Render(content, BodyFields(panes[k]), esc)
    {
      heads := heads + [Render(heading, HeadFields(titles[i]), esc)];
      bodies := bodies + [Render(content, BodyFields(panes[i]), esc)];
      i := i + 1;
    }
  }
}
