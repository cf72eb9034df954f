/**
 * The delegated event listeners jQuery keeps for the sheet controls, and the two
 * functions that (re)bind them: `activateImageEventListeners` and
 * `activateSheetWideEventListeners`.  jQuery keys a delegated handler by the container
 * it is bound on, one event type and the selector; `.on` appends a handler under each
 * event type it names and `.off` drops every handler bound under those types with that
 * selector.  Each activate function calls `.off` before `.on`, so however often one
 * container is activated, each of its keys holds exactly one handler.
 */
module Listeners {
  import opened Wrappers
  import opened Text
  import opened Dom
  import opened ActionTable
  import opened Dispatch

  /** Identity of a controls container element (an image's wrapper, or `#sheet-controls`). */
  type ContainerId = nat

  datatype Key = Key(container: ContainerId, eventType: string, selector: string)

  /** A bound handler: the `handleAction(event, journalSheet, actionType, isItem)` call it makes. */
  datatype Binding = Binding(app: SheetId, actionType: string, isItem: bool)

  type Table = map<Key, seq<Binding>>

  const ImageClickSelector := ".clickableImageControls [data-action]"
  const HoverSelector := "[data-hover-action]"
  const ChangeSelector := "[data-change-action]"
  const SheetClickSelector := "[data-action]"
  /** `"mouseenter mouseleave"`, split into its event types as jQuery does. */
  const HoverEvents := ["mouseenter", "mouseleave"]

  /** The action paths `activateImageEventListeners` writes onto the image. */
  const ImageHoverAction := "image.hover.showTileIndicator"
  const ImageClickAction := "image.click.sendImageDataToDisplay"

  /** The handlers bound under `k`, in binding order. */
  function Handlers(t: Table, k: Key): seq<Binding> {
    if k in t then t[k] else []
  }

  predicate Selects(k: Key, c: ContainerId, types: seq<string>, sel: string) {
    k.container == c && k.eventType in types && k.selector == sel
  }

  /** `$(c).off(types, sel)`. */
  function Off(t: Table, c: ContainerId, types: seq<string>, sel: string): (r: Table)
    ensures forall k :: k in r <==> k in t && !Selects(k, c, types, sel)
    ensures forall k :: Handlers(r, k) == if Selects(k, c, types, sel) then [] else Handlers(t, k)
  {
    map k | k in t && !Selects(k, c, types, sel) :: t[k]
  }

  /** `$(c).on(types, sel, handler)`. */
  function On(t: Table, c: ContainerId, types: seq<string>, sel: string, b: Binding): (r: Table)
    ensures forall k :: k in r <==> k in t || Selects(k, c, types, sel)
    ensures forall k :: Handlers(r, k) == if Selects(k, c, types, sel) then Handlers(t, k) + [b] else Handlers(t, k)
  {
    var added := set e | e in types :: Key(c, e, sel);
    map k | k in t.Keys + added :: if Selects(k, c, types, sel) then Handlers(t, k) + [b] else t[k]
  }

  /** `.off(types, sel).on(types, sel, handler)`: every selected key ends with this one handler, the rest are untouched. */
  function Rebind(t: Table, c: ContainerId, types: seq<string>, sel: string, b: Binding): (r: Table)
    ensures forall k :: k in r <==> k in t || Selects(k, c, types, sel)
    ensures forall k :: Handlers(r, k) == if Selects(k, c, types, sel) then [b] else Handlers(t, k)
  {
    On(Off(t, c, types, sel), c, types, sel, b)
  }

  /** The table after `activateImageEventListeners` bound container `c` for sheet `app`. */
  function ImageListeners(t: Table, c: ContainerId, app: SheetId): Table {
    var t1 := Rebind(t, c, ["click"], ImageClickSelector, Binding(app, "action", true));
    var t2 := Rebind(t1, c, HoverEvents, HoverSelector, Binding(app, "hoverAction", true));
    Rebind(t2, c, ["change"], ChangeSelector, Binding(app, "changeAction", true))
  }

  /** The table after `activateSheetWideEventListeners` bound container `c` for sheet `app`. */
  function SheetWideListeners(t: Table, c: ContainerId, app: SheetId): Table {
    Rebind(t, c, ["click"], SheetClickSelector, Binding(app, "action", false))
  }

  /** The keys `activateImageEventListeners` binds on `c`, and the handler each ends with. */
  function ImageBinding(k: Key, c: ContainerId, app: SheetId): Option<Binding> {
    if Selects(k, c, ["click"], ImageClickSelector) then Some(Binding(app, "action", true))
    else if Selects(k, c, HoverEvents, HoverSelector) then Some(Binding(app, "hoverAction", true))
    else if Selects(k, c, ["change"], ChangeSelector) then Some(Binding(app, "changeAction", true))
    else None
  }

  /**
   * After image activation: click on the controls, mouseenter and mouseleave on hover
   * controls and change on change controls each hold exactly one item-scoped handler
   * with their action type; every other key keeps what it had.
   */
  lemma ImageListenersEffect(t: Table, c: ContainerId, app: SheetId, k: Key)
    ensures k in ImageListeners(t, c, app) <==> k in t || ImageBinding(k, c, app).Some?
    ensures Handlers(ImageListeners(t, c, app), k) ==
      match ImageBinding(k, c, app) case Some(b) => [b] case None => Handlers(t, k)
  {
  }

  /** After sheet-wide activation, a click on any `[data-action]` in `c` has exactly one sheet-wide handler. */
  lemma SheetWideListenersEffect(t: Table, c: ContainerId, app: SheetId, k: Key)
    ensures k in SheetWideListeners(t, c, app) <==> k in t || Selects(k, c, ["click"], SheetClickSelector)
    ensures Handlers(SheetWideListeners(t, c, app), k) ==
      if Selects(k, c, ["click"], SheetClickSelector) then [Binding(app, "action", false)] else Handlers(t, k)
  {
  }

  /** Re-activating a container replaces its handlers: activating twice is activating once, with the last sheet. */
  lemma {:induction false} ImageListenersIdempotent(t: Table, c: ContainerId, app1: SheetId, app2: SheetId)
    ensures ImageListeners(ImageListeners(t, c, app1), c, app2) == ImageListeners(t, c, app2)
  {
    var once := ImageListeners(t, c, app2);
    var twice := ImageListeners(ImageListeners(t, c, app1), c, app2);
    forall k ensures (k in twice <==> k in once) && Handlers(twice, k) == Handlers(once, k) {
      ImageListenersIdempotentAt(t, c, app1, app2, k);
    }
    TableExt(twice, once);
  }

  lemma ImageListenersIdempotentAt(t: Table, c: ContainerId, app1: SheetId, app2: SheetId, k: Key)
    ensures var once := ImageListeners(t, c, app2);
            var twice := ImageListeners(ImageListeners(t, c, app1), c, app2);
            (k in twice <==> k in once) && Handlers(twice, k) == Handlers(once, k)
  {
    ImageListenersEffect(ImageListeners(t, c, app1), c, app2, k);
    ImageListenersEffect(t, c, app1, k);
    ImageListenersEffect(t, c, app2, k);
  }

  lemma {:induction false} SheetWideListenersIdempotent(t: Table, c: ContainerId, app1: SheetId, app2: SheetId)
    ensures SheetWideListeners(SheetWideListeners(t, c, app1), c, app2) == SheetWideListeners(t, c, app2)
  {
    var once := SheetWideListeners(t, c, app2);
    var twice := SheetWideListeners(SheetWideListeners(t, c, app1), c, app2);
    forall k ensures (k in twice <==> k in once) && Handlers(twice, k) == Handlers(once, k) {
      SheetWideListenersEffect(SheetWideListeners(t, c, app1), c, app2, k);
      SheetWideListenersEffect(t, c, app1, k);
      SheetWideListenersEffect(t, c, app2, k);
    }
    TableExt(twice, once);
  }

  /** Two tables with the same keys and the same handlers under each are the same table. */
  lemma TableExt(a: Table, b: Table)
    requires forall k :: k in a <==> k in b
    requires forall k :: Handlers(a, k) == Handlers(b, k)
    ensures a == b
  {
    forall k | k in a ensures a[k] == b[k] {
      assert Handlers(a, k) == a[k];
    }
  }

  /** Image activation run on one container again and again, for the sheets in `apps`, in order. */
  function ImageActivations(t: Table, c: ContainerId, apps: seq<SheetId>): Table
    decreases |apps|
  {
    if apps == [] then t else ImageActivations(ImageListeners(t, c, apps[0]), c, apps[1..])
  }

  /**
   * However many times one container is activated, each key the image controls use
   * holds exactly one handler, the one bound by the last activation.
   */
  lemma {:induction false} RepeatedActivationsBindOnce(t: Table, c: ContainerId, apps: seq<SheetId>, k: Key)
    requires apps != []
    ensures ImageBinding(k, c, apps[|apps| - 1]).Some? ==>
      Handlers(ImageActivations(t, c, apps), k) == [ImageBinding(k, c, apps[|apps| - 1]).value]
    ensures ImageBinding(k, c, apps[0]).None? ==> Handlers(ImageActivations(t, c, apps), k) == Handlers(t, k)
    decreases |apps|
  {
    var t1 := ImageListeners(t, c, apps[0]);
    ImageListenersEffect(t, c, apps[0], k);
    if |apps| > 1 {
      RepeatedActivationsBindOnce(t1, c, apps[1..], k);
      assert apps[1..][|apps[1..]| - 1] == apps[|apps| - 1];
      assert ImageBinding(k, c, apps[1..][0]).None? <==> ImageBinding(k, c, apps[0]).None?;
    }
  }

  /** At most one handler under every key. */
  ghost predicate AtMostOne(t: Table) {
    forall k :: |Handlers(t, k)| <= 1
  }

  /** Both activate functions keep "at most one handler per key". */
  lemma ActivationKeepsAtMostOne(t: Table, c: ContainerId, app: SheetId)
    requires AtMostOne(t)
    ensures AtMostOne(ImageListeners(t, c, app))
    ensures AtMostOne(SheetWideListeners(t, c, app))
  {
    forall k ensures |Handlers(ImageListeners(t, c, app), k)| <= 1 {
      ImageListenersEffect(t, c, app, k);
    }
  }

  /** The image after `activateImageEventListeners` wrote its hover and click action attributes. */
  function TagImage(dom: Element, img: Path): Element
    requires ValidPath(dom, img)
  {
    var d := At(dom, img).data;
    WithData(dom, img, d["hoverAction" := ImageHoverAction]["action" := ImageClickAction])
  }

  /** What tagging changes: only the image's data, which gains its hover and click action paths. */
  lemma TagImageEffect(dom: Element, img: Path)
    requires ValidPath(dom, img) && IsImg(At(dom, img))
    ensures Dispatchable(TagImage(dom, img), img, true)
    ensures IsImg(At(TagImage(dom, img), img))
    ensures ActionPath(TagImage(dom, img), img, true, "action") == Some(ImageClickAction)
    ensures ActionPath(TagImage(dom, img), img, true, "hoverAction") == Some(ImageHoverAction)
    ensures Closest(TagImage(dom, img), img, ContainerClass) == Closest(dom, img, ContainerClass)
  {
    var d := At(dom, img).data;
    WithDataEffect(dom, img, d["hoverAction" := ImageHoverAction]["action" := ImageClickAction], img);
    SameShapeGet(TagImage(dom, img), dom, img);
    SameShapeClosest(TagImage(dom, img), dom, img, ContainerClass);
  }

  /**
   * `handleAction` called on a tagged image with action type `"action"`, item-scoped,
   * runs the descriptor at `image.click.sendImageDataToDisplay` with the image itself as
   * subject, whenever that descriptor owns an `onClick`.
   */
  lemma TaggedImageActionResolves(dom: Element, img: Path, app: SheetId, table: ActionObject)
    requires ValidPath(dom, img) && IsImg(At(dom, img))
    requires var d := Walk(table, ["image", "click", "sendImageDataToDisplay"]);
             d.Some? && OnClick in d.value.handlers
    ensures Dispatchable(TagImage(dom, img), img, true)
    ensures var r := Resolve(TagImage(dom, img), img, app, table, "action", true);
            r.Some? && r.value.phase == OnClick
            && r.value.context.action == ImageClickAction
            && r.value.context.imgElement == Some(img)
  {
    TagImageEffect(dom, img);
    ClickActionPath(table);
  }

  /**
   * A `mouseenter` or `mouseleave` on a tagged image reaches the `[data-hover-action]`
   * handler, which runs the `onHover` of `image.hover.showTileIndicator` with the image
   * itself as subject, whenever that descriptor owns one.  The parent item is the image's
   * nearest `.clickableImageContainer`, if any: for an image directly inside its wrapper
   * (and not itself carrying the class), that wrapper.
   */
  lemma TaggedImageHoverResolves(dom: Element, img: Path, app: SheetId, table: ActionObject)
    requires ValidPath(dom, img) && IsImg(At(dom, img))
    requires var d := Walk(table, ["image", "hover", "showTileIndicator"]);
             d.Some? && OnHover in d.value.handlers
    ensures Dispatchable(TagImage(dom, img), img, true)
    ensures var r := Resolve(TagImage(dom, img), img, app, table, "hoverAction", true);
            r.Some? && r.value.phase == OnHover
            && r.value.context.action == ImageHoverAction
            && r.value.context.imgElement == Some(img)
            && r.value.context.parentItem == Closest(dom, img, ContainerClass)
    ensures |img| > 0 && HasClass(dom, img[..|img| - 1], ContainerClass) && ContainerClass !in At(dom, img).classes ==>
              Closest(dom, img, ContainerClass) == Some(img[..|img| - 1])
  {
    TaggedHoverCall(dom, img, app, table);
    if |img| > 0 && HasClass(dom, img[..|img| - 1], ContainerClass) && ContainerClass !in At(dom, img).classes {
      ClosestIsParent(dom, img, ContainerClass);
    }
  }

  /** The exact call a hover on a tagged image makes. */
  lemma TaggedHoverCall(dom: Element, img: Path, app: SheetId, table: ActionObject)
    requires ValidPath(dom, img) && IsImg(At(dom, img))
    requires var d := Walk(table, ["image", "hover", "showTileIndicator"]);
             d.Some? && OnHover in d.value.handlers
    ensures Dispatchable(TagImage(dom, img), img, true)
    ensures Resolve(TagImage(dom, img), img, app, table, "hoverAction", true)
      == Some(Call(OnHover, Context(ImageHoverAction, app, Closest(dom, img, ContainerClass), Some(img))))
  {
    TagImageEffect(dom, img);
    HoverActionPath(table);
  }

  /** `getProperty(table, "image.click.sendImageDataToDisplay")` is `table.image.click.sendImageDataToDisplay`. */
  lemma ClickActionPath(table: ActionObject)
    ensures GetProperty(table, Some(ImageClickAction)) == Walk(table, ["image", "click", "sendImageDataToDisplay"])
  {
    var segments := ["image", "click", "sendImageDataToDisplay"];
    assert Join(segments, '.') == ImageClickAction;
    DotPathLookup(table, segments);
  }

  /** `getProperty(table, "image.hover.showTileIndicator")` is `table.image.hover.showTileIndicator`. */
  lemma HoverActionPath(table: ActionObject)
    ensures GetProperty(table, Some(ImageHoverAction)) == Walk(table, ["image", "hover", "showTileIndicator"])
  {
    var segments := ["image", "hover", "showTileIndicator"];
    assert Join(segments, '.') == ImageHoverAction;
    DotPathLookup(table, segments);
  }

  /** The listeners jQuery holds for one page. */
  class ListenerTable {
    var bound: Table

    constructor ()
      ensures bound == map[]
    {
      bound := map[];
    }

    /** `$(controlsContainer).off(types, sel)`. */
    method Detach(c: ContainerId, types: seq<string>, sel: string)
      modifies this
      ensures bound == Off(old(bound), c, types, sel)
    {
      bound := Off(bound, c, types, sel);
    }

    /** `$(controlsContainer).on(types, sel, handler)`. */
    method Attach(c: ContainerId, types: seq<string>, sel: string, b: Binding)
      modifies this
      ensures bound == On(old(bound), c, types, sel, b)
    {
      bound := On(bound, c, types, sel, b);
    }

    /**
     * `activateImageEventListeners`: tag the image with its hover and click actions and
     * rebind the three delegated handlers on its controls container.
     */
    method ActivateImageEventListeners(dom: Element, img: Path, c: ContainerId, app: SheetId)
      returns (tagged: Element)
      requires ValidPath(dom, img)
      modifies this
      ensures tagged == TagImage(dom, img)
      ensures bound == ImageListeners(old(bound), c, app)
      ensures old(AtMostOne(bound)) ==> AtMostOne(bound)
    {
      ghost var before := bound;
      tagged := TagImage(dom, img);
      Detach(c, ["click"], ImageClickSelector);
      Attach(c, ["click"], ImageClickSelector, Binding(app, "action", true));
      Detach(c, HoverEvents, HoverSelector);
      Attach(c, HoverEvents, HoverSelector, Binding(app, "hoverAction", true));
      Detach(c, ["change"], ChangeSelector);
      Attach(c, ["change"], ChangeSelector, Binding(app, "changeAction", true));
      if AtMostOne(before) {
        ActivationKeepsAtMostOne(before, c, app);
      }
    }

    /** `activateSheetWideEventListeners`: rebind the sheet-wide click handler on `c`. */
    method ActivateSheetWideEventListeners(c: ContainerId, app: SheetId)
      modifies this
      ensures bound == SheetWideListeners(old(bound), c, app)
      ensures old(AtMostOne(bound)) ==> AtMostOne(bound)
    {
      ghost var before := bound;
      Detach(c, ["click"], SheetClickSelector);
      Attach(c, ["click"], SheetClickSelector, Binding(app, "action", false));
      if AtMostOne(before) {
        ActivationKeepsAtMostOne(before, c, app);
      }
    }
  }
}
