/**
 * The part of Mustache's `render` that the plugins rely on: a template is a sequence of
 * literal text, escaped slots `{{ key }}` and raw slots `{{{ key }}}`. The HTML escaping
 * function is left abstract: it is a parameter `esc` of every function that renders.
 */
module Mustache {

  datatype Token = Text(s: string) | Escaped(key: string) | Raw(key: string)

  type Template = seq<Token>

  /** The view object handed to `render`: a flat map from key to string. */
  type Fields = map<string, string>

  /** A slot whose key is missing (an undefined attribute) renders as the empty string. */
  function Lookup(fields: Fields, key: string): string
  {
    if key in fields then fields[key] else ""
  }

  /** Escaping is applied only to a value that is present. */
  function EscapedValue(fields: Fields, key: string, esc: string -> string): string
  {
    if key in fields then esc(fields[key]) else ""
  }

  function Expand(tok: Token, fields: Fields, esc: string -> string): string
  {
    match tok
    case Text(s) => s
    case Escaped(k) => EscapedValue(fields, k, esc)
    case Raw(k) => Lookup(fields, k)
  }

  function Render(t: Template, fields: Fields, esc: string -> string): string
  {
    if t == [] then "" else Expand(t[0], fields, esc) + Render(t[1..], fields, esc)
  }

  /** Rendering a concatenation of templates concatenates the renderings. */
  lemma {:induction false} RenderConcat(a: Template, b: Template, fields: Fields, esc: string -> string)
    ensures Render(a + b, fields, esc) == Render(a, fields, esc) + Render(b, fields, esc)
  {
    if a == [] {
      assert a + b == b;
    } else {
      assert (a + b)[0] == a[0];
      assert (a + b)[1..] == a[1..] + b;
      RenderConcat(a[1..], b, fields, esc);
    }
  }

  /** A one-token template renders as that token's expansion. */
  lemma RenderSingle(tok: Token, fields: Fields, esc: string -> string)
    ensures Render([tok], fields, esc) == Expand(tok, fields, esc)
  {
    assert [tok][1..] == [];
  }

  /**
   * The shape of every template in both plugins: text, one escaped slot, text, one raw
   * slot, text. The escaped slot goes through `esc`, the raw slot is inserted verbatim.
   */
  lemma RenderTwoSlots(pre: string, escKey: string, mid: string, rawKey: string, post: string,
                       fields: Fields, esc: string -> string)
    ensures Render([Text(pre), Escaped(escKey), Text(mid), Raw(rawKey), Text(post)], fields, esc)
            == pre + EscapedValue(fields, escKey, esc) + mid + Lookup(fields, rawKey) + post
  {
    var e, l := EscapedValue(fields, escKey, esc), Lookup(fields, rawKey);
    var s4 := [Text(post)];
    var s3 := [Raw(rawKey)] + s4;
    var s2 := [Text(mid)] + s3;
    var s1 := [Escaped(escKey)] + s2;
    var s0 := [Text(pre)] + s1;
    RenderSingle(Text(post), fields, esc);
    RenderSingle(Raw(rawKey), fields, esc);
    RenderSingle(Text(mid), fields, esc);
    RenderSingle(Escaped(escKey), fields, esc);
    RenderSingle(Text(pre), fields, esc);
    RenderConcat([Raw(rawKey)], s4, fields, esc);
    assert Render(s3, fields, esc) == l + post;
    RenderConcat([Text(mid)], s3, fields, esc);
    assert Render(s2, fields, esc) == mid + (l + post);
    RenderConcat([Escaped(escKey)], s2, fields, esc);
    assert Render(s1, fields, esc) == e + (mid + (l + post));
    RenderConcat([Text(pre)], s1, fields, esc);
    assert s0 == [Text(pre), Escaped(escKey), Text(mid), Raw(rawKey), Text(post)];
  }
}
