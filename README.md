# Tabcordion and Tab2collapse, modelled in Dafny

Two jQuery plugins turn a Bootstrap tab widget into a collapsible accordion on narrow
screens.

- **Tabcordion** (`tabcordion.js`) is a live toggler. It merges the caller's options with
  its defaults and then evaluates the presentation once, immediately. Each evaluation
  compares `breakWidth` with the document width:
  - `tab2collapse` hides the tab list and the content area. It then builds the accordion
    group (the first time) or re-shows the headings of the group that already exists.
  - `collapse2tab` removes the group and shows the tab list and content area again.
- **Tab2collapse** (`tab2collapse.js`) is a one-shot collapser. When the width gate passes,
  it reads the tab titles and panes once. If their counts match, it replaces the
  container's children with `heading_0, body_0, heading_1, body_1, …`.

Files:

- `wrappers.dfy`: `Option`.
- `mustache.dfy`: the Mustache rendering the plugins use.
  - A template is literal text, escaped slots `{{ key }}` and raw slots `{{{ key }}}`.
  - A missing key renders as the empty string.
  - The HTML escaping function is a parameter `esc: string -> string`, so every result
    holds for any escaping function.
- `tabs.dfy`: what both plugins read from the tab markup.
  - A title is an `href` (possibly undefined) and inner HTML. A pane is an `id` (possibly
    undefined) and inner HTML.
  - It also holds the options-argument classification by `typeof`.
  - It also holds the render loop both plugins share: one heading and one body per index.
- `tabcordion.dfy`: module `TabcordionPlugin`.
  - The options and their shallow merge.
  - `getTemplates`.
  - An abstract container record: titles, panes, two shown flags, and the groups the
    plugin prepended.
  - The value-level transitions `AfterTab2collapse`, `AfterCollapse2tab` and `AfterResize`,
    with the lemmas about them.
  - The classes `Container` and `Tabcordion`. The class methods change the container in
    place and are proved equal to the transitions.
  - `Consistent` is the invariant every evaluation keeps: at most one group, with id
    `accordion`, holding the markup built from the current tabs.
- `tab2collapse.dfy`: module `Tab2collapsePlugin`.
  - The container's direct children are tab lists, content areas, appended fragments and
    anything else.
  - The title and pane selectors.
  - The templates.
  - The spec function `Collapse`.
  - The `Tab2collapse` constructor, which empties the container and appends fragments in a
    loop.
  - The width gate.

Behaviour a reader might not expect, which the model reproduces from the code:

- A count mismatch still leaves the tabs hidden. `tab2collapse` hides both tab parts at
  tabcordion.js:144-145, before the count check at line 158 returns, so no group is shown
  (`MismatchBuildsNothing`).
- The existing-group look-up at tabcordion.js:147 is `#accordion`, not `elementId`, and
  the group element gets the hard-coded id `accordion` (line 109). Removal at line 129
  uses `accordion.elementId`. With any other `elementId`, `collapse2tab` removes nothing
  (`OtherElementIdKeepsGroup`).
- `null` passes the `typeof` guard at tabcordion.js:41, although the comment at line 42
  asks for "an {} and nothing else". `$.extend` skips a `null` source, so the instance is
  built with the defaults (`CallerOf`, `Attach`). In tab2collapse.js the same `null`
  throws (see Findings).
- The merge at tabcordion.js:81-83 is shallow. A caller `tabs: {}` leaves `panelTitleTag`
  undefined, so the heading tags read `undefined` (`ShallowMergeDropsTag`).
- `$.extend` copies a `null` option value. A caller `panelTitleTag: null` or
  `elementId: null` writes the text `null` into the markup and the removal selector
  (`NullStringOptions`).
- Zero tabs still build an empty group (`EmptyGroup`).
- Running Tab2collapse a second time on the same container empties it
  (`CollapseTwiceEmpties`).

## Model

| member | source | states |
|---|---|---|
| `Mustache.RenderConcat` | tabcordion.js:104-107 | Rendering a concatenation of templates is the concatenation of their renderings. `RenderTwoSlots` derives the shape of the heading and content templates from it. |
| `Mustache.RenderTwoSlots` | tabcordion.js:94 | A text/escaped/text/raw/text template renders with the escaped slot passed through `esc` and the triple-mustache slot inserted verbatim. |
| `Tabs.HeadFieldsLookup` | tabcordion.js:168-169 | The heading view gives the raw anchor HTML as `title`, and `target` is the escaped `href`, or empty when `href` is undefined. |
| `Tabs.BodyFieldsLookup` | tabcordion.js:172-173 | The body view gives the raw pane HTML as `content`, and `id` is the escaped pane id, or empty when undefined. |
| `Tabs.RenderPairs` | tabcordion.js:163-175 | The fill loop (the same as tab2collapse.js:96-108) returns one heading per title and one body per pane: entry i is rendered from title i and pane i. |
| `TabcordionPlugin.Merge` | tabcordion.js:81-83 | Key by key, a caller value overrides the default. Otherwise `resizeEl` is the container, `onResize` true, `delay` 500, `breakWidth` 500, tag `h4`, id `accordion`, scheduler null. A caller `tabs`/`accordion` object replaces the default object whole. |
| `TabcordionPlugin.MergeNoOverrides` | tabcordion.js:51-63 | With no caller keys the options are the defaults (with `resizeEl` the container), so the tag is `h4` and the element id `accordion`. |
| `TabcordionPlugin.ShallowMergeDropsTag` | tabcordion.js:81-83 | A caller `tabs` object without `panelTitleTag` makes the tag text `undefined`. |
| `TabcordionPlugin.NullStringOptions` | tabcordion.js:81-83 | A caller `panelTitleTag: null` and `elementId: null` are copied by the merge, so the tag and the element id read `null`. |
| `TabcordionPlugin.HeadingShape` | tabcordion.js:104 | Heading i wraps the raw title in `panelTitleTag`, names `#elementId` as parent, and links to `esc(target) + "_accordion"`. |
| `TabcordionPlugin.BodyShape` | tabcordion.js:107 | Body i has id `esc(id) + "_accordion"` and contains the raw pane HTML. |
| `TabcordionPlugin.GroupIdHardCoded` | tabcordion.js:109 | Whatever `elementId` is, the built markup starts with `<div class="panel-group" id="accordion">`. |
| `TabcordionPlugin.EmptyGroup` | tabcordion.js:177-184 | With zero tabs, the built group is the group element with nothing inside. |
| `TabcordionPlugin.BuildGroup` | tabcordion.js:163-184 | The two build loops return the group start, then for each index in order item start + heading i + body i + item end, then the group end. |
| `TabcordionPlugin.RemoveById` | tabcordion.js:129 | Removal keeps exactly the groups whose id differs from the given id. |
| `TabcordionPlugin.RemoveByIdIdempotent` | tabcordion.js:129 | Removing by id twice is the same as removing once. |
| `TabcordionPlugin.RemoveByIdAbsent` | tabcordion.js:129 | When no group has the id, removal changes nothing. |
| `TabcordionPlugin.AfterTab2collapse` | tabcordion.js:141-191 | In every branch, including the count-mismatch return, the tab list and content area end up hidden, and the titles and panes are unchanged. |
| `TabcordionPlugin.AfterCollapse2tab` | tabcordion.js:126-133 | Both tab parts are shown, the titles and panes are unchanged, and exactly the groups whose id is not `elementId` remain. |
| `TabcordionPlugin.AfterResize` | tabcordion.js:216-223 | The tabs and content end up shown exactly when `breakWidth > documentWidth` is false (so `tab2collapse` runs exactly when it holds); the titles and panes are unchanged. |
| `TabcordionPlugin.ConsistentGroupFound` | tabcordion.js:147 | In a consistent container, any group present is found by the `#accordion` look-up. |
| `TabcordionPlugin.MismatchBuildsNothing` | tabcordion.js:144-160 | With no group yet and title count different from pane count, no group is created, yet both tab parts are hidden. |
| `TabcordionPlugin.BuildPrependsGroup` | tabcordion.js:177-186 | With no group yet and matching counts, exactly one group (id `accordion`, the built markup, headings shown) is prepended. |
| `TabcordionPlugin.ExistingGroupReused` | tabcordion.js:187-190 | When a group exists, no markup is built: every group keeps its id and markup, and its headings become shown. |
| `TabcordionPlugin.AfterTab2collapseConsistent` | tabcordion.js:141-191 | `tab2collapse` preserves the invariant: at most one group, id `accordion`, markup built from the current tabs. |
| `TabcordionPlugin.AfterCollapse2tabConsistent` | tabcordion.js:126-133 | `collapse2tab` preserves the same invariant. |
| `TabcordionPlugin.AfterResizeConsistent` | tabcordion.js:216-223 | Every evaluation preserves the invariant, so the container never holds two groups. |
| `TabcordionPlugin.RunConsistent` | tabcordion.js:216-223 | After any sequence of evaluations the invariant holds and there is at most one group. |
| `TabcordionPlugin.StayingCollapsedBuildsOnce` | tabcordion.js:147 | Over any non-empty run of evaluations below the break width, exactly one group remains. It holds the markup of a single build from the tabs, its headings are shown and the tabs are hidden. |
| `TabcordionPlugin.Collapse2tabIdempotent` | tabcordion.js:126-133 | Applying `collapse2tab` twice gives the same container as applying it once. |
| `TabcordionPlugin.RoundTrip` | tabcordion.js:126-191 | With the default `elementId`, `tab2collapse` then `collapse2tab` leaves no group, both tab parts shown, and titles and panes unchanged. A later `tab2collapse` gives the same container as the first one. |
| `TabcordionPlugin.OtherElementIdKeepsGroup` | tabcordion.js:129 | With an `elementId` other than `accordion`, `collapse2tab` leaves the group in place. |
| `TabcordionPlugin.Tabcordion.constructor` | tabcordion.js:77-89 | The instance keeps the container and the merged options, and the container has had exactly one evaluation at the given width. |
| `TabcordionPlugin.Tabcordion.Tab2collapse` | tabcordion.js:141-191 | In place, the container becomes `AfterTab2collapse` of its old state. |
| `TabcordionPlugin.Tabcordion.Collapse2tab` | tabcordion.js:126-133 | In place, the container becomes `AfterCollapse2tab` of its old state. |
| `TabcordionPlugin.Tabcordion.OnResize` | tabcordion.js:216-223 | In place, the container becomes `AfterResize` of its old state at the given width. |
| `TabcordionPlugin.Attach` | tabcordion.js:37-46 | No instance is made exactly when the argument is not an object, and then the container is unchanged. Otherwise the instance holds the merged options (`null` gives the defaults) and has evaluated once. |
| `Tab2collapsePlugin.HeadingShape` | tab2collapse.js:63 | Heading i uses a fixed `h4`, `data-parent="#accordion"`, `href` = `esc(target)` with no suffix, and the raw title. |
| `Tab2collapsePlugin.BodyShape` | tab2collapse.js:66 | Body i has id `esc(id)` with no suffix and the raw pane HTML. |
| `Tab2collapsePlugin.FragmentsAt` | tab2collapse.js:111-117 | The appended children number exactly 2 × n, with heading i at 2i and body i at 2i + 1. |
| `Tab2collapsePlugin.FragmentsHaveNoTabs` | tab2collapse.js:111-117 | The appended children contain no tab list and no content area. |
| `Tab2collapsePlugin.FragmentsSnoc` | tab2collapse.js:114-115 | Each iteration appends heading i and then body i. |
| `Tab2collapsePlugin.TitlesAppend` | tab2collapse.js:88 | The title selection of two runs of children is the concatenation of their selections. |
| `Tab2collapsePlugin.PanesAppend` | tab2collapse.js:89 | The same holds for the pane selection. |
| `Tab2collapsePlugin.RenderedPairs` | tab2collapse.js:96-108 | What the fill loop returns with this plugin's templates is its headings and bodies, in index order. |
| `Tab2collapsePlugin.MismatchUnchanged` | tab2collapse.js:91-93 | When the title count differs from the pane count, the container's children are unchanged. |
| `Tab2collapsePlugin.CollapseContents` | tab2collapse.js:111-117 | On matching counts, the old children are gone. The container holds exactly 2 × n fragments in index order, and is empty when there are no pairs. |
| `Tab2collapsePlugin.CollapseTwiceEmpties` | tab2collapse.js:88-117 | Collapsing an already collapsed container finds zero titles and zero panes and leaves it empty. |
| `Tab2collapsePlugin.GateAsWritten` | tab2collapse.js:38-39 | As written: it throws exactly for `null`, and constructs exactly for an object whose `breakWidth` is defined and greater than the width. |
| `Tab2collapsePlugin.NullOptionsThrow` | tab2collapse.js:38-39 | As written, a `null` options argument throws. |
| `Tab2collapsePlugin.Gate` | tab2collapse.js:38-41 | Corrected: it never throws, and constructs exactly for an object whose `breakWidth` exceeds the document width. |
| `Tab2collapsePlugin.GatesAgreeOffNull` | tab2collapse.js:38-39 | The corrected gate and the gate as written agree on every argument except `null`. |
| `Tab2collapsePlugin.Tab2collapse.constructor` | tab2collapse.js:79-118 | The container's children become `Collapse` of the old children: unchanged on a count mismatch, otherwise replaced by the interleaved fragments. |
| `Tab2collapsePlugin.Attach` | tab2collapse.js:34-43 | An instance is made exactly when the gate says so. The container is then collapsed; otherwise it is untouched. |

## Findings

| source | as written | input that shows it | evidently intended | confidence | as-written member | corrected member |
|---|---|---|---|---|---|---|
| tab2collapse.js:38-39 | `typeof option === 'object' && option` lets `null` through (`typeof null` is `'object'`), and `options.breakWidth` then reads a property of `null` | `$(el).tab2collapse(null)` throws a TypeError instead of leaving the container alone | every non-object argument, `null` included, is a silent no-op | high; not executed | `Tab2collapsePlugin.GateAsWritten` (shown by `Tab2collapsePlugin.NullOptionsThrow`) | `Tab2collapsePlugin.Gate`, used by `Tab2collapsePlugin.Attach` |

## Left out

- Debounce and scheduler (`eventHandler`, tabcordion.js:197-211, and the `timeout` field) are left out. They are timer callbacks and a foreign function, not sequential logic. One settled evaluation is `OnResize`, and a series of them is `Run`.
- The window `resize` subscription (tabcordion.js:84-87) is left out: it is event plumbing. The `onResize` option is merged and kept, but only this subscription reads it.
- `$(document).width()` is not measured: the document width is a parameter of every evaluation.
- `resizeEl` and `scheduler` are merged and kept as opaque values. Nothing modelled reads them; the source never reads `resizeEl`.
- `$this.data(...)` reuse is left out. The data is never set in either file, so a new instance is always constructed.
- `Attach` (both plugins) is modelled on one element. `this.each` applies it to every matched element independently.
- jQuery selector matching, HTML parsing and `show`/`hide` CSS are abstracted. The containers are the records above and the fragments are strings.
- `TabcordionPlugin.HasAccordion` only sees groups the plugin prepended. An element with id `accordion` inside the page's own tab or pane HTML would also satisfy `find('#accordion')`, and that is not modelled.
- `TabcordionPlugin.RemoveById` only removes prepended groups. A page child whose id equals `elementId` would also be removed, and that is not modelled. An `elementId` that makes the selector invalid (jQuery throws) is not modelled either.
- Mustache's escaping algorithm is not modelled: it is the parameter `esc`. A `panelTitleTag` or `elementId` containing Mustache delimiters would be parsed as tags; the model treats them as literal text.
- Widths and `breakWidth` are integers. JavaScript floating-point numbers, numeric strings and other operands that `>` coerces are not modelled.
- Bootstrap's collapse runtime (expanding and collapsing bodies) is not part of this model.
- `Tab2collapsePlugin.Attach` uses the corrected gate. The code as written, throwing on `null`, is `GateAsWritten`.
- `TabcordionPlugin.CallerOptions`: a `tabs: null` or `accordion: null` key is not modelled. `$.extend` copies it, and the first build then throws a TypeError reading `panelTitleTag` or `elementId` (tabcordion.js:104, and :129 for `accordion`). The TypeError is not modelled either. `None` stands only for an absent or undefined key.
- `TabcordionPlugin.Merge`: `$.fn.tabcordion.defaults` (tabcordion.js:51-63) is a public, mutable object. The model takes the defaults as shipped (`Defaults`), and a page that edits them is not modelled.
