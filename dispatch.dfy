/**
 * `SheetImageApp.handleAction`: the decision of which phase handler of which action
 * descriptor an interaction event runs, and with what options.  `Resolve` is that
 * decision as a function; `HandleAction` is the event handler itself, which suppresses
 * the event's default behaviour and then runs at most one handler, recorded in a log.
 */
module Dispatch {
  import opened Wrappers
  import opened Dom
  import opened ActionTable

  /** Identity of the sheet application (`journalSheet`) a listener was bound for. */
  type SheetId = nat

  /** The class of the wrapper put around every image that carries controls. */
  const ContainerClass := "clickableImageContainer"

  /** The options object handed to a phase handler (`html` is the sheet's element, so `app` determines it). */
  datatype Context = Context(
    action: string,
    app: SheetId,
    parentItem: Option<Path>,
    imgElement: Option<Path>)

  /** One run of the handler `phase` of the looked-up descriptor. */
  datatype Call = Call(phase: Phase, context: Context)

  /**
   * What `handleAction` needs of the markup to run without a TypeError: the target is
   * in the sheet; an item-scoped target that is not an image sits inside an image
   * container; an item-scoped label has an element before it.
   */
  predicate Dispatchable(dom: Element, target: Path, isItem: bool) {
    && ValidPath(dom, target)
    && (isItem && !IsImg(At(dom, target)) ==> Closest(dom, target, ContainerClass).Some?)
    && (isItem && At(dom, target).nodeName == "LABEL" ==> HasPrev(target))
  }

  /**
   * `imgElement`: nothing for a sheet-wide control; the target itself when it is an
   * image; otherwise the first image inside the target's nearest image container.
   */
  function SubjectImage(dom: Element, target: Path, isItem: bool): (img: Option<Path>)
    requires Dispatchable(dom, target, isItem)
    ensures img.Some? ==> ValidPath(dom, img.value) && IsImg(At(dom, img.value))
  {
    if !isItem then None
    else if IsImg(At(dom, target)) then Some(target)
    else
      var c := Closest(dom, target, ContainerClass).value;
      match FirstImg(At(dom, c))
      case Some(q) =>
        GetAppend(dom, c, q);
        Some(c + q)
      case None => None
  }

  /** `parentItem`: present only alongside an image, as that image's nearest container (which may be null). */
  function ParentItem(dom: Element, img: Option<Path>): Option<Path>
    requires img.Some? ==> ValidPath(dom, img.value)
  {
    match img
    case None => None
    case Some(p) => Closest(dom, p, ContainerClass)
  }

  /** The element whose action attribute is read: for an item-scoped label, the element before it. */
  function EffectiveTarget(dom: Element, target: Path, isItem: bool): (t: Path)
    requires Dispatchable(dom, target, isItem)
    ensures ValidPath(dom, t)
  {
    if isItem && At(dom, target).nodeName == "LABEL" then
      PrevValid(dom, target);
      Prev(target)
    else target
  }

  /**
   * An item-scoped label reads its action path from the element before it: whatever data
   * that element carries is what `handleAction` reads.
   */
  lemma ItemLabelReadsPrev(dom: Element, target: Path, d: map<string, string>, t: string)
    requires Dispatchable(dom, target, true) && At(dom, target).nodeName == "LABEL"
    ensures ValidPath(dom, Prev(target))
    ensures Dispatchable(WithData(dom, Prev(target), d), target, true)
    ensures ActionPath(WithData(dom, Prev(target), d), target, true, t) == if t in d then Some(d[t]) else None
  {
    PrevValid(dom, target);
    var dom' := WithData(dom, Prev(target), d);
    WithDataEffect(dom, Prev(target), d, target);
    WithDataEffect(dom, Prev(target), d, Prev(target));
    SameShapeGet(dom', dom, target);
    SameShapeClosest(dom', dom, target, ContainerClass);
  }

  /**
   * Every target other than an item-scoped label reads its action path from its own
   * data: the controls themselves, images, and sheet-wide labels (substitution is
   * item-scoped only).
   */
  lemma TargetReadsItself(dom: Element, target: Path, isItem: bool, d: map<string, string>, t: string)
    requires Dispatchable(dom, target, isItem)
    requires !(isItem && At(dom, target).nodeName == "LABEL")
    ensures Dispatchable(WithData(dom, target, d), target, isItem)
    ensures ActionPath(WithData(dom, target, d), target, isItem, t) == if t in d then Some(d[t]) else None
  {
    WithDataEffect(dom, target, d, target);
    SameShapeGet(WithData(dom, target, d), dom, target);
    SameShapeClosest(WithData(dom, target, d), dom, target, ContainerClass);
  }

  /** `targetElement.data()[actionType]`. */
  function ActionPath(dom: Element, target: Path, isItem: bool, actionType: string): Option<string>
    requires Dispatchable(dom, target, isItem)
  {
    var data := At(dom, EffectiveTarget(dom, target, isItem)).data;
    if actionType in data then Some(data[actionType]) else None
  }

  /** The handler call `handleAction` makes for an event on `target`, if any. */
  function Resolve(dom: Element, target: Path, app: SheetId, table: ActionObject,
                   actionType: string, isItem: bool): Option<Call>
    requires Dispatchable(dom, target, isItem)
  {
    var action := ActionPath(dom, target, isItem, actionType);
    var phase := PhaseFor(actionType);
    match GetProperty(table, action)
    case Some(descriptor) =>
      if phase in descriptor.handlers then
        var img := SubjectImage(dom, target, isItem);
        Some(Call(phase, Context(action.value, app, ParentItem(dom, img), img)))
      else None
    case None => None
  }

  /**
   * A handler runs exactly when the action path read from the effective target names a
   * descriptor that owns the slot for this action type; the call then goes to that
   * slot, for that path and that sheet.
   */
  lemma InvokedExactlyWhenOwned(dom: Element, target: Path, app: SheetId, table: ActionObject,
                                actionType: string, isItem: bool)
    requires Dispatchable(dom, target, isItem)
    ensures var r := Resolve(dom, target, app, table, actionType, isItem);
            var d := GetProperty(table, ActionPath(dom, target, isItem, actionType));
            && (r.Some? <==> d.Some? && PhaseFor(actionType) in d.value.handlers)
            && (r.Some? ==>
                  && r.value.phase == PhaseFor(actionType)
                  && Some(r.value.context.action) == ActionPath(dom, target, isItem, actionType)
                  && r.value.context.action != ""
                  && r.value.context.app == app)
  {
  }

  /** A call's options carry `parentItem` only together with `imgElement`; a sheet-wide control carries neither. */
  lemma ContextItemFields(dom: Element, target: Path, app: SheetId, table: ActionObject,
                          actionType: string, isItem: bool)
    requires Dispatchable(dom, target, isItem)
    requires Resolve(dom, target, app, table, actionType, isItem).Some?
    ensures var ctx := Resolve(dom, target, app, table, actionType, isItem).value.context;
            && (ctx.parentItem.Some? ==> ctx.imgElement.Some?)
            && (!isItem ==> ctx.imgElement.None? && ctx.parentItem.None?)
            && (ctx.imgElement.Some? ==> IsImg(At(dom, ctx.imgElement.value)))
  {
  }

  /** For an item-scoped image target, the image is the target itself and the parent item is its nearest container. */
  lemma ImageTargetIsItsOwnSubject(dom: Element, target: Path)
    requires Dispatchable(dom, target, true) && IsImg(At(dom, target))
    ensures SubjectImage(dom, target, true) == Some(target)
    ensures ParentItem(dom, SubjectImage(dom, target, true)) == Closest(dom, target, ContainerClass)
  {
  }

  /**
   * For an item-scoped control that is not an image, the subject image is the first
   * image, in document order, inside the control's nearest container (none when the
   * container holds no image), and the parent item then lies between that container
   * and the image.
   */
  lemma ControlSubjectIsContainerImage(dom: Element, target: Path, r: Path)
    requires Dispatchable(dom, target, true) && !IsImg(At(dom, target))
    ensures var c := Closest(dom, target, ContainerClass).value;
            var img := SubjectImage(dom, target, true);
            && (img.None? ==> !ImgBelow(At(dom, c), r))
            && (img.Some? ==>
                  && c < img.value
                  && (ImgBelow(At(dom, c), r) ==> DocLe(img.value[|c|..], r))
                  && var parent := ParentItem(dom, img);
                     parent.Some? && c <= parent.value <= img.value)
  {
    var c := Closest(dom, target, ContainerClass).value;
    var box := At(dom, c);
    match FirstImg(box)
    case None =>
      NoFirstImg(box, r);
    case Some(q) =>
      var p := c + q;
      GetAppend(dom, c, q);
      assert p[|c|..] == q;
      if ImgBelow(box, r) {
        FirstImgIsFirst(box, r);
      }
      assert p[..|c|] == c;
      var parent := Closest(dom, p, ContainerClass);
      assert HasClass(dom, p[..|c|], ContainerClass);
  }

  /**
   * An item-scoped label never contributes its own attributes: whatever data attributes
   * the label carries, the resolved call is the same, since the action path is read
   * from the element before it.
   */
  lemma LabelAttributesIgnored(dom: Element, target: Path, app: SheetId, table: ActionObject,
                               actionType: string, d: map<string, string>)
    requires Dispatchable(dom, target, true) && At(dom, target).nodeName == "LABEL"
    ensures Dispatchable(WithData(dom, target, d), target, true)
    ensures Resolve(WithData(dom, target, d), target, app, table, actionType, true)
         == Resolve(dom, target, app, table, actionType, true)
  {
    var dom' := WithData(dom, target, d);
    WithDataEffect(dom, target, d, target);
    SameShapeGet(dom', dom, target);
    SameShapeClosest(dom', dom, target, ContainerClass);
    assert Dispatchable(dom', target, true);
    PrevValid(dom, target);
    WithDataEffect(dom, target, d, Prev(target));
    assert ActionPath(dom', target, true, actionType) == ActionPath(dom, target, true, actionType);
    var c := Closest(dom, target, ContainerClass).value;
    SameShapeGet(dom', dom, c);
    SameShapeFirstImg(At(dom', c), At(dom, c));
    assert SubjectImage(dom', target, true) == SubjectImage(dom, target, true);
    var img := SubjectImage(dom, target, true);
    if img.Some? {
      SameShapeGet(dom', dom, img.value);
      SameShapeClosest(dom', dom, img.value, ContainerClass);
    }
  }

  /** The handlers run so far, in order: the observable effect of dispatch. */
  class HandlerLog {
    var calls: seq<Call>

    constructor ()
      ensures calls == []
    {
      calls := [];
    }
  }

  /**
   * `handleAction(event, journalSheet, actionType, isItem)`: suppress the default
   * behaviour, whatever the action type, then run the resolved handler once, or nothing.
   */
  method HandleAction(event: UiEvent, log: HandlerLog, dom: Element, target: Path, app: SheetId,
                      table: ActionObject, actionType: string, isItem: bool)
    requires Dispatchable(dom, target, isItem)
    modifies event, log
    ensures event.defaultPrevented
    ensures log.calls == old(log.calls) +
      match Resolve(dom, target, app, table, actionType, isItem)
      case Some(call) => [call]
      case None => []
  {
    event.PreventDefault();
    var targetElement := target;
    var imgElement: Option<Path> := None;
    if isItem {
      if !IsImg(At(dom, targetElement)) {
        var container := Closest(dom, targetElement, ContainerClass).value;
        var found := FirstImg(At(dom, container));
        if found.Some? {
          GetAppend(dom, container, found.value);
          imgElement := Some(container + found.value);
        }
      } else {
        imgElement := Some(targetElement);
      }
      if At(dom, targetElement).nodeName == "LABEL" {
        PrevValid(dom, targetElement);
        targetElement := Prev(targetElement);
      }
    }
    var data := At(dom, targetElement).data;
    var action: Option<string> := if actionType in data then Some(data[actionType]) else None;
    var handler := OnClick;
    if actionType == "hoverAction" {
      handler := OnHover;
    } else if actionType == "changeAction" {
      handler := OnChange;
    }
    var actionData := GetProperty(table, action);
    if actionData.Some? && handler in actionData.value.handlers {
      var parentItem := if imgElement.Some? then Closest(dom, imgElement.value, ContainerClass) else None;
      log.calls := log.calls + [Call(handler, Context(action.value, app, parentItem, imgElement))];
    }
  }
}
