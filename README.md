# Journal to Canvas Slideshow: sheet image controls, in Dafny

This project models the interaction core of the Foundry VTT module *Journal to Canvas
Slideshow*. The module puts controls over the images of journal, actor and item sheets.
User interactions (click, hover, change) on those controls are routed to action
descriptors kept in a nested action table. The model covers:

- **dispatch** (`SheetImageApp.handleAction`): which phase handler (`onClick`, `onHover`,
  `onChange`) of which descriptor runs, and with which subject image and parent item;
- **listener binding** (`activateImageEventListeners`, `activateSheetWideEventListeners`):
  the jQuery delegated-handler table and its `.off(...).on(...)` rebinding;
- **the fade toggle** (`addFadeStylesToSheet`);
- **the sheet class choice** in `applyImageClasses`, and the `displayMethods` list;
- **the settings defaults** (`artGalleryDefaultSettings`, the `sheetFadeOpacity` slider) and
  the payloads of the two `onChange` broadcasts.

Modules, leaves first:

- `Wrappers`: `Option`.
- `Text`: `split` and `join` on one character, and lower-casing the first character.
- `Dom`: an element tree addressed by child-index paths, `closest`, `querySelector("img")`,
  and data-attribute writes.
- `ActionTable`: the action table and Foundry's `getProperty` lookup.
- `Dispatch`: `handleAction`.
- `Listeners`: the listener table class and the activate functions.
- `Fade`: the window-content class with its button array.
- `SheetImageApp`: the image class choice, image marking and display methods.
- `Settings`: the settings defaults and broadcasts.

State the source changes in place is modelled imperatively:

- `Listeners.ListenerTable` holds the table of bound handlers.
- `Fade.WindowContent` holds a class set and an array of buttons. Its method toggles them in a loop.
- `Dispatch.HandleAction` sets the event's `defaultPrevented` flag. It appends the handler
  it runs to a `HandlerLog`.

Each of these methods is proved against a pure function. The properties are proved about
those functions.

Facts about the code that shape the model:

- A control with no `.clickableImageContainer` ancestor makes `handleAction` dereference null
  (scripts/SheetImageApp.js:145). An item-scoped label with no previous sibling makes `prev()`
  return an empty jQuery set (line 150). Its `.data()` is then `undefined`, and reading
  `[actionType]` from it throws a TypeError (line 153). The model makes both conditions a
  precondition (`Dispatch.Dispatchable`). At the call sites the container condition holds:
  every image is wrapped in a `.clickableImageContainer`, and its controls are appended inside
  that wrapper (lines 102-104). That every label among the controls has an element before it is
  an assumption about the image-controls template, which is not part of this model.
- An item-scoped label is replaced by its previous element sibling, through jQuery's `prev()`
  (line 150).
- `handleAction` calls `preventDefault` before anything else, for every action type (line 136).
- `activateImageEventListeners` binds three selectors on the image's wrapper, and with them four
  keys: click, mouseenter, mouseleave and change (lines 193-213).
- The image itself carries `data-hover-action` and `data-action` (lines 190-191). The
  `[data-hover-action]` selector matches it, so hovering the image reaches `handleAction`
  (`Listeners.TaggedImageHoverResolves`). The item-scoped click selector is
  `.clickableImageControls [data-action]`, and the image sits beside the controls rather than
  inside them. So no listener of this file sends a click on the image itself to `handleAction`.
  `Listeners.TaggedImageActionResolves` states what `handleAction` does when it is called on the
  image with the `"action"` type.

## Model

| member | source | states |
|---|---|---|
| `Text.Split` | scripts/SheetImageApp.js:164 | the pieces of a dot path never contain the separator, and there is at least one |
| `Text.JoinSplit` | scripts/SheetImageApp.js:164 | joining the pieces of a split restores the string |
| `Text.SplitJoin` | scripts/SheetImageApp.js:164 | splitting a join of separator-free pieces restores the pieces |
| `Text.LowerChar` | scripts/SheetImageApp.js:42 | upper-case ASCII letters become their lower-case letter; everything else is unchanged |
| `Text.LowerFirst` | scripts/SheetImageApp.js:42 | same length; the first character is lower-cased and the rest is unchanged |
| `Dom.Prev` | scripts/SheetImageApp.js:150 | `prev()` is the sibling one index earlier under the same parent |
| `Dom.PrevValid` | scripts/SheetImageApp.js:150 | a label that has an earlier sibling has a previous element in the sheet |
| `Dom.Closest` | scripts/SheetImageApp.js:145 | `closest` returns the element or an ancestor carrying the class, and none nearer has it; null means no element on the way up has it |
| `Dom.FirstImg` | scripts/SheetImageApp.js:145 | `querySelector("img")` returns a strict descendant that is an `IMG` |
| `Dom.FirstImgFrom` | scripts/SheetImageApp.js:145 | the search over the children from index i finds an `IMG` at or after child i |
| `Dom.FirstImgIsFirst` | scripts/SheetImageApp.js:145 | when any `IMG` is below, the one found comes no later in document order |
| `Dom.NoFirstImg` | scripts/SheetImageApp.js:145 | a null result means there is no `IMG` below |
| `Dom.WithData` | scripts/SheetImageApp.js:190-191 | the sheet with the data attributes of the element at a path replaced, as `attr("data-…", …)` does |
| `Dom.WithDataEffect` | scripts/SheetImageApp.js:190-191 | writing data attributes keeps the tree's shape, tags and classes, and changes data only at the written element |
| `Dom.UiEvent.PreventDefault` | scripts/SheetImageApp.js:136 | the event's default behaviour is suppressed |
| `ActionTable.HandlerName` | scripts/SheetImageApp.js:154-163 | a phase's handler property is one of `onClick`, `onHover`, `onChange` |
| `ActionTable.PhaseFor` | scripts/SheetImageApp.js:154-163 | `hoverAction` selects `onHover`, `changeAction` selects `onChange`, and every other action type selects `onClick` (each an if-and-only-if) |
| `ActionTable.Walk` | scripts/SheetImageApp.js:164 | follows the named members one segment at a time; absent as soon as one is missing |
| `ActionTable.GetProperty` | scripts/SheetImageApp.js:164 | `getProperty(sheetImageActions, action)`: an absent or empty path finds nothing; otherwise its dot-separated segments are walked |
| `ActionTable.WalkAppend` | scripts/SheetImageApp.js:164 | looking up `a + b` is looking up `a`, then `b` from there |
| `ActionTable.MissingSegmentIsAbsent` | scripts/SheetImageApp.js:164 | once a segment is missing, the whole lookup is absent |
| `ActionTable.DotPathLookup` | scripts/SheetImageApp.js:164 | `getProperty(table, "a.b.c")` reaches exactly the entry the segments `a`, `b`, `c` name |
| `Dispatch.SubjectImage` | scripts/SheetImageApp.js:141-148 | a subject image, when there is one, is an `IMG` element of the sheet |
| `Dispatch.Dispatchable` | scripts/SheetImageApp.js:141-153 | the markup `handleAction` needs to run without a TypeError: the target is in the sheet; an item-scoped non-image target has a `.clickableImageContainer` ancestor (line 145); an item-scoped label has an element before it (lines 150-153) |
| `Dispatch.EffectiveTarget` | scripts/SheetImageApp.js:150 | the element the action path is read from exists in the sheet |
| `Dispatch.ItemLabelReadsPrev` | scripts/SheetImageApp.js:150-153 | an item-scoped label reads its action path from the element before it: whatever data that element carries is what is read |
| `Dispatch.TargetReadsItself` | scripts/SheetImageApp.js:141-153 | every target other than an item-scoped label, whether a control, an image or a sheet-wide label, reads its action path from its own data; substitution is item-scoped only |
| `Dispatch.ActionPath` | scripts/SheetImageApp.js:153 | `targetElement.data()[actionType]`, read from the effective target; absent when it has no such attribute |
| `Dispatch.ParentItem` | scripts/SheetImageApp.js:175 | `parentItem`: absent without an image; otherwise the image's nearest `.clickableImageContainer`, which may itself be absent |
| `Dispatch.Resolve` | scripts/SheetImageApp.js:135-180 | the handler call `handleAction` makes (its phase and options), or none |
| `Dispatch.InvokedExactlyWhenOwned` | scripts/SheetImageApp.js:164-179 | a handler runs if and only if the looked-up descriptor exists and owns the slot for the action type; the call then has that slot, that non-empty path and that sheet |
| `Dispatch.ContextItemFields` | scripts/SheetImageApp.js:171-177 | `parentItem` appears only together with `imgElement`; a sheet-wide call has neither; `imgElement` is an image |
| `Dispatch.ImageTargetIsItsOwnSubject` | scripts/SheetImageApp.js:146-148 | an item-scoped `IMG` target is its own subject image, and its parent item is its nearest container |
| `Dispatch.ControlSubjectIsContainerImage` | scripts/SheetImageApp.js:144-145 | for any other item-scoped control, the subject is the first image in document order inside the nearest container (none when the container has no image); the parent item lies between that container and the image |
| `Dispatch.LabelAttributesIgnored` | scripts/SheetImageApp.js:150-153 | an item-scoped label's own data attributes never change the outcome |
| `Dispatch.HandleAction` | scripts/SheetImageApp.js:135-180 | the default is always prevented, and the log grows by the resolved call exactly once or not at all |
| `Listeners.Off` | scripts/SheetImageApp.js:194 | `.off` empties exactly the keys with that container, one of those event types and that selector |
| `Listeners.On` | scripts/SheetImageApp.js:195-199 | `.on` appends the handler under exactly those keys and leaves the rest alone |
| `Listeners.Rebind` | scripts/SheetImageApp.js:193-199 | `.off` then `.on` leaves exactly one handler under each selected key and changes no other key |
| `Listeners.ImageListenersEffect` | scripts/SheetImageApp.js:193-213 | image activation binds click on `.clickableImageControls [data-action]` with `"action"`, both `mouseenter` and `mouseleave` on `[data-hover-action]` with `"hoverAction"`, and change on `[data-change-action]` with `"changeAction"`; each holds one item-scoped handler and all other keys are kept |
| `Listeners.SheetWideListenersEffect` | scripts/SheetImageApp.js:125-131 | sheet-wide activation binds one click handler on `[data-action]` with `isItem` false, and changes nothing else |
| `Listeners.ImageListenersIdempotent` | scripts/SheetImageApp.js:193-213 | activating a container twice gives the same table as activating it once, with the later sheet |
| `Listeners.SheetWideListenersIdempotent` | scripts/SheetImageApp.js:125-131 | the same, for sheet-wide activation |
| `Listeners.ImageListeners` | scripts/SheetImageApp.js:193-213 | the table after image activation: three `.off(...).on(...)` rebinds on the wrapper, for click, hover and change |
| `Listeners.SheetWideListeners` | scripts/SheetImageApp.js:125-131 | the table after sheet-wide activation: one rebind of the `[data-action]` click handler with `isItem` false |
| `Listeners.RepeatedActivationsBindOnce` | scripts/SheetImageApp.js:193-213 | however many times one container is activated, each image-control key holds exactly one handler, from the last activation |
| `Listeners.ActivationKeepsAtMostOne` | scripts/SheetImageApp.js:122-132 | both activate functions keep at most one handler under every key |
| `Listeners.TagImage` | scripts/SheetImageApp.js:190-191 | the sheet after the image is given `data-hover-action="image.hover.showTileIndicator"` and `data-action="image.click.sendImageDataToDisplay"` |
| `Listeners.TagImageEffect` | scripts/SheetImageApp.js:190-191 | after tagging, the image is still an `IMG`; `handleAction` on it is well defined; and it reads those two action paths for `"action"` and `"hoverAction"` |
| `Listeners.ClickActionPath` | scripts/SheetImageApp.js:191 | the click action written on images looks up `image.click.sendImageDataToDisplay` |
| `Listeners.HoverActionPath` | scripts/SheetImageApp.js:190 | the hover action written on images looks up `image.hover.showTileIndicator` |
| `Listeners.TaggedImageActionResolves` | scripts/SheetImageApp.js:190-191 | `handleAction` called item-scoped on a tagged image with action type `"action"` runs that descriptor's `onClick`, when it owns one, with the image as its own subject |
| `Listeners.TaggedHoverCall` | scripts/SheetImageApp.js:190-206 | the exact call a hover on a tagged image makes: `onHover` of `image.hover.showTileIndicator`, for this sheet, with the image as `imgElement` and its nearest `.clickableImageContainer` (if any) as `parentItem` |
| `Listeners.TaggedImageHoverResolves` | scripts/SheetImageApp.js:190-206 | a `mouseenter` or `mouseleave` on a tagged image, which `[data-hover-action]` matches, runs the `onHover` of `image.hover.showTileIndicator` when it owns one; the image is its own subject; the parent item is its nearest `.clickableImageContainer`, if any, and for an image directly inside a wrapper (and not itself carrying the class), that wrapper |
| `Listeners.ListenerTable.Detach` | scripts/SheetImageApp.js:194 | the table becomes `Off` of the old table |
| `Listeners.ListenerTable.Attach` | scripts/SheetImageApp.js:195-199 | the table becomes `On` of the old table |
| `Listeners.ListenerTable.ActivateImageEventListeners` | scripts/SheetImageApp.js:186-214 | the image is tagged with its hover and click actions; the table is the three rebindings of the old one; at most one handler per key is kept |
| `Listeners.ListenerTable.ActivateSheetWideEventListeners` | scripts/SheetImageApp.js:122-132 | the table is the sheet-wide rebinding of the old one; at most one handler per key is kept |
| `Fade.FadedClasses` | scripts/SheetImageApp.js:222-233 | a faded window loses `fade` and `fade-all`; otherwise it gains `fade`, and also `fade-all` exactly when the action is `fadeContent` or it already had it; no other class changes |
| `Fade.ButtonAfter` | scripts/SheetImageApp.js:219 | only `fadeJournal` buttons change; they lose `active` when the window was faded and gain it otherwise |
| `Fade.FadeRoundTrip` | scripts/SheetImageApp.js:227-233 | two presses on an unfaded window restore its classes |
| `Fade.ActiveMatchesFade` | scripts/SheetImageApp.js:227-233 | after a press, a fade button is active exactly when the window is faded |
| `Fade.WindowContent.AddFadeStylesToSheet` | scripts/SheetImageApp.js:216-235 | the default is prevented; the classes become `FadedClasses` of the old ones; every button becomes `ButtonAfter` of its old state |
| `SheetImageApp.SheetTypeKey` | scripts/SheetImageApp.js:42 | the document name with its first character lower-cased, the key looked up in `modularChoices` |
| `SheetImageApp.IsMedia` | scripts/SheetImageApp.js:43 | the elements the selector `"img, video, .lightbox-image"` matches: an `IMG`, a `VIDEO`, or an element with the class `lightbox-image` |
| `SheetImageApp.ImageClassChoice` | scripts/SheetImageApp.js:36-51 | a class is chosen exactly for a GM whose lower-cased sheet type is enabled; it is `clickableImage` exactly for `journalEntry`, and `rightClickableImage` otherwise |
| `SheetImageApp.DefaultSheetClasses` | scripts/SheetImageApp.js:41-50 | with the default settings, a GM gets `clickableImage` on journal entries and `rightClickableImage` on actors and items; other types and players get nothing |
| `SheetImageApp.MarkSubtree` | scripts/SheetImageApp.js:47-50 | marking keeps tag, data and child count, and adds the class to a matching element only |
| `SheetImageApp.MarkMedia` | scripts/SheetImageApp.js:47-50 | `html.find("img, video, .lightbox-image").addClass(cls)`: the descendants of the root are each marked by `MarkSubtree`, so only those that match the selector gain the class, and the root is left as it was |
| `SheetImageApp.MarkMediaAt` | scripts/SheetImageApp.js:47-50 | below the root, exactly the images, videos and lightbox images gain the class; shape, tags and data are unchanged |
| `SheetImageApp.ApplyImageClasses` | scripts/SheetImageApp.js:35-51 | the sheet's HTML after the class marking of `applyImageClasses`: unchanged when no class is chosen |
| `SheetImageApp.ApplyImageClassesEffect` | scripts/SheetImageApp.js:35-62 | a player's sheet or a disabled type is left unchanged; otherwise every matching descendant carries the chosen class |
| `SheetImageApp.DisplayMethods` | scripts/SheetImageApp.js:7-28 | the four entries of `displayMethods`, each with its name, icon and tooltip, in order |
| `SheetImageApp.DisplayMethodNames` | scripts/SheetImageApp.js:7-28 | four display methods with distinct names: window, journalEntry, artScene, anyScene |
| `Settings.AssetFolderBasePath` | scripts/settings.js:5 | `modules/<MODULE_ID>/assets/` |
| `Settings.ArtGalleryDefaults` | scripts/settings.js:7-100 | `artGalleryDefaultSettings`, with `MODULE_ID` as a parameter and the label and hint text left out |
| `Settings.DefaultFadeChoiceDeclared` | scripts/settings.js:67-75 | the default `fadeAll` is one of the declared choices |
| `Settings.DefaultColorSchemeConsistent` | scripts/settings.js:36-47 | colours, property names and variations have the same keys, and every property name starts with `--` |
| `Settings.DefaultIndicatorColorsConsistent` | scripts/settings.js:76-91 | the indicator colours and their property names have the same keys, and every property name starts with `--` |
| `Settings.DefaultsConsistent` | scripts/settings.js:7-100 | the whole default record meets the consistency predicate |
| `Settings.DefaultTileImagesUnderAssets` | scripts/settings.js:92-99 | both default tile paths start with `modules/<MODULE_ID>/assets/` |
| `Settings.DefaultSheetTypesEnabled` | scripts/settings.js:25-29 | `journalEntry`, `actor` and `item` are the enabled sheet types |
| `Settings.SheetFadeOpacity` | scripts/settings.js:134-147 | the `sheetFadeOpacity` registration: default 50, and a slider from 0 to 100 in steps of 10 |
| `Settings.FadeOpacityDefaultOnSlider` | scripts/settings.js:139-146 | the default 50 lies in [0, 100] and is a whole number of steps of 10 |
| `Settings.ArtGallerySettingsChanged` | scripts/settings.js:117-120 | the broadcast is `updateJTCSSettings` with origin `JTCSSettings`, carrying the value read back after the change |
| `Settings.AccentColorChanged` | scripts/settings.js:129-131 | the broadcast is `updateJTCSSettings` with origin `JTCSSettings`, carrying the new colour |
| `Settings.CallbacksShareHookAndOrigin` | scripts/settings.js:117-131 | both callbacks use the same hook and origin; the gallery payload ignores the value the callback was handed |

## Left out

- Foundry and jQuery calls are not modelled: `game.settings.register`/`registerMenu`, `ColorSetting`,
  the `Hooks.callAll` transport, `game.users`, `game.scenes` and `game.JTCS.*`. Only the payloads
  and decisions around them are modelled.
- Template rendering and DOM insertion are not modelled: `injectImageControls` (`renderTemplate`,
  `wrap`, `append`, `randomID`, writing `dataset.name`) and `injectSheetWideControls`.
- Image identity (`convertImageSourceToID`) is a foreign call and is not modelled.
- The contents of `sheetImageActions` and `sheetControls` are defined elsewhere. The action
  table is a parameter.
- Foundry's `getProperty` is not part of this model. It is taken to walk own object members
  segment by segment. A missing or empty key finds nothing. Members inherited from the object
  prototype are not modelled: they never own `onClick`, `onHover` or `onChange`, so dispatch
  does nothing for them either way.
- jQuery's `.data()` is taken to read the current `data-*` attributes, already camel-cased. Its
  cache and its conversion of numeric or JSON values are not modelled.
- `Dispatch.Resolve`: it requires an image container for an item-scoped non-image target. It
  also requires an earlier sibling for an item-scoped label. The source throws a TypeError in
  both cases.
- Asynchronous execution and the fire-and-forget handler calls are not modelled: dispatch is
  synchronous. A handler's own effect and errors are outside the model. The log records that
  it ran.
- `setJournalFadeOpacity` is CSS style mutation. It also reads a `journalFadeOpacity` setting
  that is never registered.
- Logging (`console.log`, `console.table`) is not modelled.
- Control injection after marking in `applyImageClasses` is not modelled (lines 53-57).
- `Text.LowerChar` lower-cases ASCII letters only, where JavaScript's `toLowerCase` is Unicode.
- Settings label and hint text, and the `useActorSheetImages` and `showWelcomeMessage`
  registrations, are not modelled. `MODULE_ID` is a parameter, because `debug-mode.js` is not
  part of this model.
- `Settings.ArtGallerySettingsChanged`: the value read back after the change is a parameter.
  Reading storage is a foreign call.
- Finding the closest `.window-content` from the pressed button is not modelled. A null result
  there would throw. `Fade.WindowContent` is that element, with its buttons in document order.
