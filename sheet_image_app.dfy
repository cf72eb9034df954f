/**
 * The pure parts of `SheetImageApp` outside dispatch: which class `applyImageClasses`
 * gives the images of a sheet (and to which images), and the list of display methods
 * offered to the image-controls template.
 */
module SheetImageApp {
  import opened Wrappers
  import opened Text
  import opened Dom
  import Settings

  const ClickableImage := "clickableImage"
  const RightClickableImage := "rightClickableImage"

  /** The settings key of a document type: its name with the first character lower-cased. */
  function SheetTypeKey(documentName: string): string {
    LowerFirst(documentName)
  }

  /**
   * The class `applyImageClasses` adds to a sheet's images, if any: none for a player,
   * none when the sheet type is switched off in `modularChoices` (a missing entry is
   * off), `clickableImage` for journal entries and `rightClickableImage` for every
   * other enabled type.
   */
  function ImageClassChoice(isGM: bool, modularChoices: map<string, bool>, documentName: string): (r: Option<string>)
    ensures var key := SheetTypeKey(documentName);
            r.Some? <==> isGM && key in modularChoices && modularChoices[key]
    ensures r.Some? ==> (r.value == ClickableImage <==> SheetTypeKey(documentName) == "journalEntry")
    ensures r.Some? ==> (r.value == RightClickableImage <==> SheetTypeKey(documentName) != "journalEntry")
  {
    if !isGM then None
    else
      var key := SheetTypeKey(documentName);
      if key in modularChoices && modularChoices[key] then
        if key == "journalEntry" then Some(ClickableImage) else Some(RightClickableImage)
      else None
  }

  /** With the default settings, a GM gets controls on journal entries (left click), actors and items (right click). */
  lemma DefaultSheetClasses(moduleId: string)
    ensures var choices := Settings.ArtGalleryDefaults(moduleId).sheetSettings.modularChoices;
            && ImageClassChoice(true, choices, "JournalEntry") == Some(ClickableImage)
            && ImageClassChoice(true, choices, "Actor") == Some(RightClickableImage)
            && ImageClassChoice(true, choices, "Item") == Some(RightClickableImage)
            && ImageClassChoice(true, choices, "Scene") == None
            && ImageClassChoice(false, choices, "JournalEntry") == None
  {
    Settings.DefaultSheetTypesEnabled(moduleId);
    assert SheetTypeKey("JournalEntry") == "journalEntry";
    assert SheetTypeKey("Actor") == "actor";
    assert SheetTypeKey("Item") == "item";
    assert SheetTypeKey("Scene") == "scene";
  }

  /** The elements the selector `"img, video, .lightbox-image"` matches. */
  predicate IsMedia(e: Element) {
    e.nodeName == "IMG" || e.nodeName == "VIDEO" || "lightbox-image" in e.classes
  }

  /** `e` and its descendants, each matching element given the class `cls`. */
  function MarkSubtree(e: Element, cls: string): (r: Element)
    ensures r.nodeName == e.nodeName && r.data == e.data && |r.children| == |e.children|
    ensures r.classes == if IsMedia(e) then e.classes + {cls} else e.classes
  {
    var kids := seq(|e.children|, i requires 0 <= i < |e.children| => MarkSubtree(e.children[i], cls));
    Element(e.nodeName, if IsMedia(e) then e.classes + {cls} else e.classes, e.data, kids)
  }

  /** `html.find("img, video, .lightbox-image").addClass(cls)`: the descendants of the root, not the root itself. */
  function MarkMedia(root: Element, cls: string): Element {
    root.(children := seq(|root.children|, i requires 0 <= i < |root.children| => MarkSubtree(root.children[i], cls)))
  }

  /**
   * Marking leaves the tree's shape, tags and data alone, and adds the class to exactly
   * the matching elements below the root.
   */
  lemma {:induction false} MarkSubtreeAt(e: Element, cls: string, p: Path)
    ensures ValidPath(MarkSubtree(e, cls), p) <==> ValidPath(e, p)
    ensures ValidPath(e, p) ==>
      var before := At(e, p);
      var after := At(MarkSubtree(e, cls), p);
      && after.nodeName == before.nodeName && after.data == before.data
      && after.classes == if IsMedia(before) then before.classes + {cls} else before.classes
    decreases |p|
  {
    if p != [] && p[0] < |e.children| {
      MarkSubtreeAt(e.children[p[0]], cls, p[1..]);
    }
  }

  lemma MarkMediaAt(root: Element, cls: string, p: Path)
    ensures ValidPath(MarkMedia(root, cls), p) <==> ValidPath(root, p)
    ensures ValidPath(root, p) ==>
      var before := At(root, p);
      var after := At(MarkMedia(root, cls), p);
      && after.nodeName == before.nodeName && after.data == before.data
      && after.classes == if p != [] && IsMedia(before) then before.classes + {cls} else before.classes
  {
    if p != [] && p[0] < |root.children| {
      MarkSubtreeAt(root.children[p[0]], cls, p[1..]);
    }
  }

  /** `applyImageClasses` on a sheet's HTML, up to the class marking (control injection is not modelled). */
  function ApplyImageClasses(isGM: bool, modularChoices: map<string, bool>, documentName: string, html: Element): Element {
    match ImageClassChoice(isGM, modularChoices, documentName)
    case None => html
    case Some(cls) => MarkMedia(html, cls)
  }

  /**
   * A player's sheet, or a sheet of a type switched off, is left as it was; otherwise
   * every image, video and lightbox image below the root carries the chosen class.
   */
  lemma ApplyImageClassesEffect(isGM: bool, modularChoices: map<string, bool>, documentName: string,
                                html: Element, p: Path)
    ensures ImageClassChoice(isGM, modularChoices, documentName).None? ==>
      ApplyImageClasses(isGM, modularChoices, documentName, html) == html
    ensures var r := ApplyImageClasses(isGM, modularChoices, documentName, html);
            var choice := ImageClassChoice(isGM, modularChoices, documentName);
            choice.Some? && p != [] && ValidPath(html, p) && IsMedia(At(html, p)) ==>
              ValidPath(r, p) && choice.value in At(r, p).classes
  {
    var choice := ImageClassChoice(isGM, modularChoices, documentName);
    if choice.Some? {
      MarkMediaAt(html, choice.value, p);
    }
  }

  /** An entry of `SheetImageApp.displayMethods`. */
  datatype DisplayMethod = DisplayMethod(name: string, icon: string, tooltip: string)

  /** `SheetImageApp.displayMethods`, in order. */
  function DisplayMethods(): seq<DisplayMethod> {
    [
      DisplayMethod("window", "fas fa-external-link-alt", "display image in pop-out window"),
      DisplayMethod("journalEntry", "fas fa-book-open", "display image in a dedicated journal entry"),
      DisplayMethod("artScene", "far fa-image", "display image in dedicated scene"),
      DisplayMethod("anyScene", "fas fa-vector-square", "display image in any scene with a frame tile and display tile")
    ]
  }

  /** The four display methods have distinct names, in this order. */
  lemma DisplayMethodNames()
    ensures |DisplayMethods()| == 4
    ensures forall i, j :: 0 <= i < j < |DisplayMethods()| ==> DisplayMethods()[i].name != DisplayMethods()[j].name
    ensures DisplayMethods()[0].name == "window" && DisplayMethods()[1].name == "journalEntry"
    ensures DisplayMethods()[2].name == "artScene" && DisplayMethods()[3].name == "anyScene"
  {
  }
}
