/**
 * The live toggler of tabcordion.js. A `Tabcordion` instance holds its container and its
 * merged options; on every evaluation it compares `breakWidth` with the document width
 * and either hides the tabs and shows (building it if needed) an accordion group, or
 * removes the group and shows the tabs again.
 *
 * The container is an abstract record: the titles under `.nav-tabs`, the panes under
 * `.tab-content`, whether each of those two parts is shown, and the accordion groups that
 * the plugin has prepended to it.
 */
module TabcordionPlugin {
  import opened Wrappers
  import opened Mustache
  import opened Tabs

  // ---------------------------------------------------------------- options

  /** Values of `resizeEl`: null, the container itself, or some other element. */
  datatype ElementRef = NullRef | TheContainer | OtherElement(handle: nat)

  /** Values of `scheduler`: null or a caller-supplied function. */
  datatype CallbackRef = NullCallback | Callback(handle: nat)

  /** A string-valued option key as `$.extend` copies it: absent, `null`, or a string. */
  datatype JsString = Undefined | JsNull | Str(s: string)

  datatype TabsOptions = TabsOptions(panelTitleTag: JsString)

  datatype AccordionOptions = AccordionOptions(elementId: JsString)

  /** The merged options an instance keeps for its whole life. */
  datatype Options = Options(resizeEl: ElementRef, onResize: bool, delay: int, breakWidth: int,
                             tabs: TabsOptions, accordion: AccordionOptions, scheduler: CallbackRef)

  /** The caller's options object; `None` is a key that is absent or undefined. */
  datatype CallerOptions = CallerOptions(resizeEl: Option<ElementRef>, onResize: Option<bool>,
                                         delay: Option<int>, breakWidth: Option<int>,
                                         tabs: Option<TabsOptions>, accordion: Option<AccordionOptions>,
                                         scheduler: Option<CallbackRef>)

  const NoOverrides := CallerOptions(None, None, None, None, None, None, None)

  /** `$.fn.tabcordion.defaults`. */
  function Defaults(): Options
  {
    Options(NullRef, true, 500, 500, TabsOptions(Str("h4")), AccordionOptions(Str("accordion")), NullCallback)
  }

  function Override<T>(base: T, given: Option<T>): T
  {
    if given.Some? then given.value else base
  }

  /**
   * `$.extend({}, defaults, {resizeEl: $el}, options)`: a shallow merge, so a caller's
   * `tabs` or `accordion` object replaces the default one as a whole.
   */
  function Merge(c: CallerOptions): (o: Options)
    ensures o.resizeEl == (if c.resizeEl.Some? then c.resizeEl.value else TheContainer)
    ensures o.onResize == (if c.onResize.Some? then c.onResize.value else true)
    ensures o.delay == (if c.delay.Some? then c.delay.value else 500)
    ensures o.breakWidth == (if c.breakWidth.Some? then c.breakWidth.value else 500)
    ensures o.tabs == (if c.tabs.Some? then c.tabs.value else TabsOptions(Str("h4")))
    ensures o.accordion == (if c.accordion.Some? then c.accordion.value else AccordionOptions(Str("accordion")))
    ensures o.scheduler == (if c.scheduler.Some? then c.scheduler.value else NullCallback)
  {
    var d := Defaults().(resizeEl := TheContainer);
    Options(Override(d.resizeEl, c.resizeEl), Override(d.onResize, c.onResize), Override(d.delay, c.delay),
            Override(d.breakWidth, c.breakWidth), Override(d.tabs, c.tabs), Override(d.accordion, c.accordion),
            Override(d.scheduler, c.scheduler))
  }

  /** JavaScript's `'…' + x` for a string option that may be undefined or `null`. */
  function JsText(v: JsString): string
  {
    match v
    case Undefined => "undefined"
    case JsNull => "null"
    case Str(s) => s
  }

  /** The tag wrapping each heading title and the id used for `data-parent` and removal. */
  function TitleTag(o: Options): string { JsText(o.tabs.panelTitleTag) }

  function ElementId(o: Options): string { JsText(o.accordion.elementId) }

  /** With no caller options, every key takes its default and the tag is `h4`. */
  lemma MergeNoOverrides()
    ensures Merge(NoOverrides) == Defaults().(resizeEl := TheContainer)
    ensures TitleTag(Merge(NoOverrides)) == "h4" && ElementId(Merge(NoOverrides)) == "accordion"
  {
  }

  /** A caller `tabs` object without `panelTitleTag` leaves the tag undefined. */
  lemma ShallowMergeDropsTag(c: CallerOptions)
    requires c.tabs == Some(TabsOptions(Undefined))
    ensures TitleTag(Merge(c)) == "undefined"
  {
  }

  /**
   * `$.extend` copies a `null` value: a caller `panelTitleTag: null` or `elementId: null`
   * splices the text `null` into the markup and into the removal selector.
   */
  lemma NullStringOptions(c: CallerOptions)
    requires c.tabs == Some(TabsOptions(JsNull)) && c.accordion == Some(AccordionOptions(JsNull))
    ensures TitleTag(Merge(c)) == "null" && ElementId(Merge(c)) == "null"
  {
  }

  // ---------------------------------------------------------------- templates

  /** The id the generated group is given and looked up by, whatever `elementId` is. */
  const AccordionId := "accordion"

  datatype Templates = Templates(heading: Template, content: Template, containerStart: string,
                                 containerItemStart: string, containerItemEnd: string, containerEnd: string)

  // The literal pieces of the heading and content templates.
  const HeadingOpen := "<div class=\"panel-heading\"><"
  const TitleOpen := " class=\"panel-title\"><a class=\"accordion-toggle\" data-toggle=\"collapse\" data-parent=\"#"
  const HrefOpen := "\" href=\""
  const SuffixClose := "_accordion\">"
  const HeadingClose := "></div>"
  const ContentOpen := "<div id=\""
  const ContentMid := "_accordion\" class=\"panel-collapse collapse\"><div class=\"panel-body\">"
  const ContentClose := "</div></div>"

  /** `getTemplates`: the option values are spliced into the heading template's text. */
  function GetTemplates(o: Options): Templates
  {
    Templates(
      [Text(HeadingOpen + TitleTag(o) + TitleOpen + ElementId(o) + HrefOpen),
       Escaped("target"), Text(SuffixClose), Raw("title"), Text("</a></" + TitleTag(o) + HeadingClose)],
      [Text(ContentOpen), Escaped("id"), Text(ContentMid), Raw("content"), Text(ContentClose)],
      "<div class=\"panel-group\" id=\"accordion\">",
      "<div class=\"panel panel-default\">",
      "</div>",
      "</div>")
  }

  function Heading(o: Options, t: Title, esc: string -> string): string
  {
    Render(GetTemplates(o).heading, HeadFields(t), esc)
  }

  function Body(o: Options, p: Pane, esc: string -> string): string
  {
    Render(GetTemplates(o).content, BodyFields(p), esc)
  }

  /**
   * Heading i links to the escaped target with the `_accordion` suffix, names `elementId`
   * as its parent and wraps the raw title HTML in `panelTitleTag`.
   */
  lemma HeadingShape(o: Options, t: Title, esc: string -> string)
    ensures Heading(o, t, esc)
            == HeadingOpen + TitleTag(o) + TitleOpen + ElementId(o) + HrefOpen + AttrText(t.target, esc)
               + SuffixClose + t.html + "</a></" + TitleTag(o) + HeadingClose
  {
    var tm := GetTemplates(o).heading;
    RenderTwoSlots(tm[0].s, "target", SuffixClose, "title", tm[4].s, HeadFields(t), esc);
    HeadFieldsLookup(t, esc);
  }

  /** Body i carries the escaped pane id with the `_accordion` suffix and the raw pane HTML. */
  lemma BodyShape(o: Options, p: Pane, esc: string -> string)
    ensures Body(o, p, esc)
            == ContentOpen + AttrText(p.id, esc) + ContentMid + p.html + ContentClose
  {
    var tm := GetTemplates(o).content;
    RenderTwoSlots(tm[0].s, "id", tm[2].s, "content", tm[4].s, BodyFields(p), esc);
    BodyFieldsLookup(p, esc);
  }

  /** One panel: item start, heading i, body i, item end. */
  function Panel(o: Options, t: Title, p: Pane, esc: string -> string): string
  {
    var tm := GetTemplates(o);
    tm.containerItemStart + Heading(o, t, esc) + Body(o, p, esc) + tm.containerItemEnd
  }

  function Panels(o: Options, ts: seq<Title>, ps: seq<Pane>, esc: string -> string): seq<string>
    requires |ts| == |ps|
  {
    seq(|ts|, i requires 0 <= i < |ts| => Panel(o, ts[i], ps[i], esc))
  }

  function Concat(ss: seq<string>): string
  {
    if ss == [] then "" else Concat(ss[..|ss| - 1]) + ss[|ss| - 1]
  }

  /** The markup of a freshly built group: the panels in index order inside the group element. */
  function GroupMarkup(o: Options, ts: seq<Title>, ps: seq<Pane>, esc: string -> string): string
    requires |ts| == |ps|
  {
    var tm := GetTemplates(o);
    tm.containerStart + Concat(Panels(o, ts, ps, esc)) + tm.containerEnd
  }

  /** The group element always carries id `accordion`, whatever `elementId` says. */
  lemma GroupIdHardCoded(o: Options, ts: seq<Title>, ps: seq<Pane>, esc: string -> string)
    requires |ts| == |ps|
    ensures var start := "<div class=\"panel-group\" id=\"accordion\">";
            |GroupMarkup(o, ts, ps, esc)| >= |start| && GroupMarkup(o, ts, ps, esc)[..|start|] == start
  {
    var start := "<div class=\"panel-group\" id=\"accordion\">";
    var rest := Concat(Panels(o, ts, ps, esc)) + GetTemplates(o).containerEnd;
    assert GroupMarkup(o, ts, ps, esc) == start + rest;
    assert (start + rest)[..|start|] == start;
  }

  lemma AppendPanel(start: string, done: seq<string>, out: string, a: string, b: string, c: string, d: string)
    requires out == start + Concat(done)
    ensures out + a + b + c + d == start + Concat(done + [a + b + c + d])
  {
    ConcatSnoc(done, a + b + c + d);
  }

  lemma ConcatSnoc(ss: seq<string>, x: string)
    ensures Concat(ss + [x]) == Concat(ss) + x
  {
    assert (ss + [x])[..|ss|] == ss;
  }

  /** With no tabs at all the group is still built, empty. */
  lemma EmptyGroup(o: Options, esc: string -> string)
    ensures GroupMarkup(o, [], [], esc) == "<div class=\"panel-group\" id=\"accordion\"></div>"
  {
    assert Panels(o, [], [], esc) == [];
  }

  /**
   * The build step (both loops of `tab2collapse`): render heads and bodies by index, then
   * concatenate the group start, each panel in index order, and the group end.
   */
  method BuildGroup(o: Options, titles: seq<Title>, panes: seq<Pane>, esc: string -> string)
    returns (output: string)
    requires |titles| == |panes|
    ensures output == GroupMarkup(o, titles, panes, esc)
  {
    var templates := GetTemplates(o);
    var heads, bodies := RenderPairs(templates.heading, templates.content, titles, panes, esc);
    ghost var panels := Panels(o, titles, panes, esc);
    output := templates.containerStart;
    var i := 0;
    while i < |titles|
      invariant 0 <= i <= |titles|
      invariant output == templates.containerStart + Concat(panels[..i])
    {
      ghost var before := output;
      output := output + templates.containerItemStart;
      output := output + heads[i];
      output := output + bodies[i];
      output := output + templates.containerItemEnd;
      assert panels[i] == templates.containerItemStart + heads[i] + bodies[i] + templates.containerItemEnd;
      AppendPanel(templates.containerStart, panels[..i], before, templates.containerItemStart, heads[i], bodies[i],
                  templates.containerItemEnd);
      assert panels[..i + 1] == panels[..i] + [panels[i]];
      i := i + 1;
    }
    assert panels[..|titles|] == panels;
    output := output + templates.containerEnd;
  }

  // ---------------------------------------------------------------- container state

  /** A group the plugin prepended: its id, its markup and whether its headings are shown. */
  datatype Group = Group(id: string, markup: string, headingsShown: bool)

  /** A snapshot of the container. */
  datatype View = View(titles: seq<Title>, panes: seq<Pane>, tabsShown: bool, contentShown: bool,
                       groups: seq<Group>)

  /** `$el.find('#accordion').length != 0`. */
  predicate HasAccordion(gs: seq<Group>)
  {
    exists g :: g in gs && g.id == AccordionId
  }

  /** `$el.find(' >.panel-group .panel .panel-heading').show()`. */
  function ShowHeadings(gs: seq<Group>): seq<Group>
  {
    seq(|gs|, i requires 0 <= i < |gs| => gs[i].(headingsShown := true))
  }

  /** `$el.find(' > #' + id).remove()`: drops every group with that id, keeping the order. */
  function RemoveById(gs: seq<Group>, id: string): (r: seq<Group>)
    ensures forall g :: g in r <==> g in gs && g.id != id
    ensures |r| <= |gs|
  {
    if gs == [] then []
    else if gs[0].id == id then RemoveById(gs[1..], id)
    else [gs[0]] + RemoveById(gs[1..], id)
  }

  lemma {:induction false} RemoveByIdIdempotent(gs: seq<Group>, id: string)
    ensures RemoveById(RemoveById(gs, id), id) == RemoveById(gs, id)
  {
    if gs != [] {
      RemoveByIdIdempotent(gs[1..], id);
      if gs[0].id != id {
        assert ([gs[0]] + RemoveById(gs[1..], id))[1..] == RemoveById(gs[1..], id);
      }
    }
  }

  /** No group carries the id: removal changes nothing. */
  lemma {:induction false} RemoveByIdAbsent(gs: seq<Group>, id: string)
    requires forall g :: g in gs ==> g.id != id
    ensures RemoveById(gs, id) == gs
  {
    if gs != [] {
      assert forall g :: g in gs[1..] ==> g in gs;
      RemoveByIdAbsent(gs[1..], id);
      assert [gs[0]] + gs[1..] == gs;
    }
  }

  /** `tab2collapse`: hide both tab parts first, then build the group or re-show its headings. */
  function AfterTab2collapse(v: View, o: Options, esc: string -> string): (r: View)
    ensures !r.tabsShown && !r.contentShown
    ensures r.titles == v.titles && r.panes == v.panes
  {
    var hidden := v.(tabsShown := false, contentShown := false);
    if !HasAccordion(v.groups) then
      if |v.titles| != |v.panes| then hidden
      else hidden.(groups := [Group(AccordionId, GroupMarkup(o, v.titles, v.panes, esc), true)] + v.groups)
    else hidden.(groups := ShowHeadings(v.groups))
  }

  /** `collapse2tab`: remove the child whose id is `elementId`, then show both tab parts. */
  function AfterCollapse2tab(v: View, o: Options): (r: View)
    ensures r.tabsShown && r.contentShown
    ensures r.titles == v.titles && r.panes == v.panes
    ensures forall g :: g in r.groups <==> g in v.groups && g.id != ElementId(o)
  {
    v.(groups := RemoveById(v.groups, ElementId(o)), tabsShown := true, contentShown := true)
  }

  /** `onResize`: the tabs end up shown exactly when `breakWidth` does not exceed the width. */
  function AfterResize(v: View, o: Options, documentWidth: int, esc: string -> string): (r: View)
    ensures r.tabsShown == !(o.breakWidth > documentWidth)
    ensures r.contentShown == r.tabsShown
    ensures r.titles == v.titles && r.panes == v.panes
  {
    if o.breakWidth > documentWidth then AfterTab2collapse(v, o, esc) else AfterCollapse2tab(v, o)
  }

  /** `onResize` evaluated once per settled resize, for a sequence of measured widths. */
  function Run(v: View, o: Options, widths: seq<int>, esc: string -> string): View
    decreases |widths|
  {
    if widths == [] then v else Run(AfterResize(v, o, widths[0], esc), o, widths[1..], esc)
  }

  /**
   * What the plugin's own steps keep true of a container that started without groups: at
   * most one group, with id `accordion` and the markup built from the current tabs.
   */
  ghost predicate Consistent(v: View, o: Options, esc: string -> string)
  {
    |v.groups| <= 1 &&
    forall g :: g in v.groups ==>
      g.id == AccordionId && |v.titles| == |v.panes| && g.markup == GroupMarkup(o, v.titles, v.panes, esc)
  }

  /** In a consistent container, any group present is found by the `#accordion` lookup. */
  lemma ConsistentGroupFound(v: View, o: Options, esc: string -> string)
    requires Consistent(v, o, esc)
    ensures v.groups != [] ==> HasAccordion(v.groups)
  {
    if v.groups != [] {
      assert v.groups[0] in v.groups;
    }
  }

  /** Count mismatch with no group yet: nothing is built, but the tabs are hidden anyway. */
  lemma MismatchBuildsNothing(v: View, o: Options, esc: string -> string)
    requires !HasAccordion(v.groups) && |v.titles| != |v.panes|
    ensures AfterTab2collapse(v, o, esc).groups == v.groups
    ensures !AfterTab2collapse(v, o, esc).tabsShown && !AfterTab2collapse(v, o, esc).contentShown
  {
  }

  /** No group yet and matching counts: exactly one new group is prepended. */
  lemma BuildPrependsGroup(v: View, o: Options, esc: string -> string)
    requires !HasAccordion(v.groups) && |v.titles| == |v.panes|
    ensures AfterTab2collapse(v, o, esc).groups
            == [Group(AccordionId, GroupMarkup(o, v.titles, v.panes, esc), true)] + v.groups
  {
  }

  /** Lazy build: an existing group is kept as it is; only its headings are shown. */
  lemma ExistingGroupReused(v: View, o: Options, esc: string -> string)
    requires HasAccordion(v.groups)
    ensures var r := AfterTab2collapse(v, o, esc);
            |r.groups| == |v.groups| &&
            forall i :: 0 <= i < |v.groups| ==>
              r.groups[i].id == v.groups[i].id && r.groups[i].markup == v.groups[i].markup && r.groups[i].headingsShown
  {
  }

  lemma AfterTab2collapseConsistent(v: View, o: Options, esc: string -> string)
    requires Consistent(v, o, esc)
    ensures Consistent(AfterTab2collapse(v, o, esc), o, esc)
  {
    var r := AfterTab2collapse(v, o, esc);
    if HasAccordion(v.groups) {
      var g :| g in v.groups && g.id == AccordionId;
      assert v.groups == [g];
      assert r.groups == [g.(headingsShown := true)];
    } else if |v.titles| == |v.panes| {
      ConsistentGroupFound(v, o, esc);
    }
  }

  lemma AfterCollapse2tabConsistent(v: View, o: Options, esc: string -> string)
    requires Consistent(v, o, esc)
    ensures Consistent(AfterCollapse2tab(v, o), o, esc)
  {
  }

  /** Every evaluation keeps the container consistent, so it never holds two groups. */
  lemma AfterResizeConsistent(v: View, o: Options, documentWidth: int, esc: string -> string)
    requires Consistent(v, o, esc)
    ensures Consistent(AfterResize(v, o, documentWidth, esc), o, esc)
    ensures |AfterResize(v, o, documentWidth, esc).groups| <= 1
  {
    if o.breakWidth > documentWidth {
      AfterTab2collapseConsistent(v, o, esc);
    } else {
      AfterCollapse2tabConsistent(v, o, esc);
    }
  }

  lemma {:induction false} RunConsistent(v: View, o: Options, widths: seq<int>, esc: string -> string)
    requires Consistent(v, o, esc)
    ensures Consistent(Run(v, o, widths, esc), o, esc)
    ensures |Run(v, o, widths, esc).groups| <= 1
    decreases |widths|
  {
    if widths != [] {
      AfterResizeConsistent(v, o, widths[0], esc);
      RunConsistent(AfterResize(v, o, widths[0], esc), o, widths[1..], esc);
    }
  }

  /**
   * Staying below the break width over any number of evaluations leaves exactly one group,
   * with the markup of a single build from the tabs, and its headings shown.
   */
  lemma {:induction false} StayingCollapsedBuildsOnce(v: View, o: Options, widths: seq<int>, esc: string -> string)
    requires Consistent(v, o, esc) && |v.titles| == |v.panes| && widths != []
    requires forall i :: 0 <= i < |widths| ==> o.breakWidth > widths[i]
    ensures Run(v, o, widths, esc).groups == [Group(AccordionId, GroupMarkup(o, v.titles, v.panes, esc), true)]
    ensures !Run(v, o, widths, esc).tabsShown && !Run(v, o, widths, esc).contentShown
    decreases |widths|
  {
    var g := Group(AccordionId, GroupMarkup(o, v.titles, v.panes, esc), true);
    var w := AfterResize(v, o, widths[0], esc);
    assert w == AfterTab2collapse(v, o, esc);
    if HasAccordion(v.groups) {
      assert v.groups[0] in v.groups;
      assert w.groups == [g];
    } else {
      ConsistentGroupFound(v, o, esc);
      assert w.groups == [g];
    }
    if |widths| > 1 {
      AfterResizeConsistent(v, o, widths[0], esc);
      StayingCollapsedBuildsOnce(w, o, widths[1..], esc);
    } else {
      assert Run(w, o, widths[1..], esc) == w;
    }
  }

  lemma Collapse2tabIdempotent(v: View, o: Options)
    ensures AfterCollapse2tab(AfterCollapse2tab(v, o), o) == AfterCollapse2tab(v, o)
  {
    RemoveByIdIdempotent(v.groups, ElementId(o));
  }

  /**
   * With the default `elementId`, collapsing then restoring leaves no group and the tabs
   * shown with the same titles and panes, and collapsing again rebuilds the same markup.
   */
  lemma RoundTrip(v: View, o: Options, esc: string -> string)
    requires Consistent(v, o, esc) && ElementId(o) == AccordionId
    ensures var back := AfterCollapse2tab(AfterTab2collapse(v, o, esc), o);
            back.groups == [] && back.tabsShown && back.contentShown &&
            back.titles == v.titles && back.panes == v.panes
    ensures |v.titles| == |v.panes| ==>
              AfterTab2collapse(AfterCollapse2tab(AfterTab2collapse(v, o, esc), o), o, esc)
              == AfterTab2collapse(v, o, esc)
  {
    var a := AfterTab2collapse(v, o, esc);
    AfterTab2collapseConsistent(v, o, esc);
    var back := AfterCollapse2tab(a, o);
    ConsistentGroupFound(back, o, esc);
    if |v.titles| == |v.panes| {
      var g := Group(AccordionId, GroupMarkup(o, v.titles, v.panes, esc), true);
      if HasAccordion(v.groups) {
        assert v.groups[0] in v.groups;
        assert a.groups == [g];
      } else {
        ConsistentGroupFound(v, o, esc);
      }
      assert !HasAccordion(back.groups);
    }
  }

  /**
   * With any other `elementId`, `collapse2tab` removes nothing (the group's id is
   * `accordion`), so the group stays in the container beside the shown tabs.
   */
  lemma OtherElementIdKeepsGroup(v: View, o: Options, esc: string -> string)
    requires Consistent(v, o, esc) && ElementId(o) != AccordionId
    ensures AfterCollapse2tab(v, o).groups == v.groups
  {
    RemoveByIdAbsent(v.groups, ElementId(o));
  }

  // ---------------------------------------------------------------- objects

  /** The container element a Tabcordion instance is attached to. */
  class Container {
    var titles: seq<Title>
    var panes: seq<Pane>
    var tabsShown: bool
    var contentShown: bool
    var groups: seq<Group>

    function State(): View
      reads this
    {
      View(titles, panes, tabsShown, contentShown, groups)
    }
  }

  class Tabcordion {
    const el: Container
    const options: Options

    /** Merges the options and evaluates the presentation once, immediately. */
    constructor (el: Container, caller: CallerOptions, documentWidth: int, esc: string -> string)
      modifies el
      ensures this.el == el && options == Merge(caller)
      ensures el.State() == AfterResize(old(el.State()), options, documentWidth, esc)
    {
      this.el := el;
      options := Merge(caller);
      new;
      OnResize(documentWidth, esc);
    }

    method Tab2collapse(esc: string -> string)
      modifies el
      ensures el.State() == AfterTab2collapse(old(el.State()), options, esc)
    {
      el.tabsShown := false;
      el.contentShown := false;
      if !HasAccordion(el.groups) {
        var titles, panes := el.titles, el.panes;
        if |titles| != |panes| {
          return;
        }
        var output := BuildGroup(options, titles, panes, esc);
        el.groups := [Group(AccordionId, output, true)] + el.groups;
      } else {
        el.groups := ShowHeadings(el.groups);
      }
    }

    method Collapse2tab()
      modifies el
      ensures el.State() == AfterCollapse2tab(old(el.State()), options)
    {
      el.groups := RemoveById(el.groups, ElementId(options));
      el.tabsShown := true;
      el.contentShown := true;
    }

    method OnResize(documentWidth: int, esc: string -> string)
      modifies el
      ensures el.State() == AfterResize(old(el.State()), options, documentWidth, esc)
    {
      if options.breakWidth > documentWidth {
        Tab2collapse(esc);
      } else {
        Collapse2tab();
      }
    }
  }

  /** The options object the constructor sees: `null` is an object to `typeof` and `$.extend` skips it. */
  function CallerOf(arg: Arg<CallerOptions>): CallerOptions
  {
    if arg.AnObject? then arg.value else NoOverrides
  }

  /** `$.fn.tabcordion` on one element: anything but an object is refused. */
  method Attach(el: Container, arg: Arg<CallerOptions>, documentWidth: int, esc: string -> string)
    returns (inst: Option<Tabcordion>)
    modifies el
    ensures inst.None? <==> arg.NotAnObject?
    ensures inst.None? ==> el.State() == old(el.State())
    ensures inst.Some? ==>
              inst.value.el == el && inst.value.options == Merge(CallerOf(arg)) &&
              el.State() == AfterResize(old(el.State()), inst.value.options, documentWidth, esc)
  {
    if arg.NotAnObject? {
      return None;
    }
    var t := new Tabcordion(el, CallerOf(arg), documentWidth, esc);
    return Some(t);
  }
}
