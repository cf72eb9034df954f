/**
 * The module's settings: the default value of the `artGallerySettings` record, the
 * `sheetFadeOpacity` slider, and the broadcasts the two `onChange` callbacks send.
 * Label and hint text is left out; `MODULE_ID` is defined in a file that is not part
 * of this model, so it is a parameter wherever it is used.
 */
module Settings {

  datatype SheetSettings = SheetSettings(modularChoices: map<string, bool>)

  datatype ColorScheme = ColorScheme(
    colors: map<string, string>,
    propertyNames: map<string, string>,
    colorVariations: map<string, bool>,
    autoContrast: bool)

  datatype DedicatedDisplay = DedicatedDisplay(value: string)

  datatype DedicatedDisplayData = DedicatedDisplayData(journal: DedicatedDisplay, scene: DedicatedDisplay)

  datatype FadeOpacityData = FadeOpacityData(value: real)

  /** A choice among named options: `chosen` names one key of `choices` (whose values are the labels). */
  datatype ChoiceSetting = ChoiceSetting(chosen: string, choices: map<string, string>)

  datatype IndicatorColors = IndicatorColors(colors: map<string, string>, propertyNames: map<string, string>)

  datatype TileImages = TileImages(paths: map<string, string>)

  datatype ArtGallerySettings = ArtGallerySettings(
    sheetSettings: SheetSettings,
    colorSchemeData: ColorScheme,
    dedicatedDisplayData: DedicatedDisplayData,
    sheetFadeOpacityData: FadeOpacityData,
    fadeSheetImagesData: ChoiceSetting,
    indicatorColorData: IndicatorColors,
    defaultTileImages: TileImages)

  /** `assetFolderBasePath`. */
  function AssetFolderBasePath(moduleId: string): string {
    "modules/" + moduleId + "/assets/"
  }

  /** `artGalleryDefaultSettings`. */
  function ArtGalleryDefaults(moduleId: string): ArtGallerySettings {
    var base := AssetFolderBasePath(moduleId);
    ArtGallerySettings(
      SheetSettings(map["journalEntry" := true, "actor" := true, "item" := true]),
      ColorScheme(
        map["accentColor" := "#44c3fd", "backgroundColor" := "#ffffff"],
        map["accentColor" := "--JTCS-accent-color", "backgroundColor" := "--JTCS-background-color"],
        map["accentColor" := true, "backgroundColor" := true],
        true),
      DedicatedDisplayData(DedicatedDisplay("Art"), DedicatedDisplay("Art")),
      FadeOpacityData(0.5),
      ChoiceSetting("fadeAll", map[
        "fadeBackground" := "Fade Background and UI Only",
        "fadeAll" := "Fade Background, UI AND Images"]),
      IndicatorColors(
        map["frameTileColor" := "#cf8f40", "artTileColor" := "#5e97ff",
            "unlinkedTileColor" := "#aaf3a2", "defaultTileColor" := "#ff458c"],
        map["frameTileColor" := "--data-frame-color", "artTileColor" := "--data-art-color",
            "unlinkedTileColor" := "--data-unlinked-color", "defaultTileColor" := "--data-default-color"]),
      TileImages(map[
        "frameTilePath" := base + "Bounding_Tile.webp",
        "artTilePath" := base + "DarkBackground.webp"]))
  }

  /** Every value of `names` is a CSS custom property name. */
  predicate CustomPropertyNames(names: map<string, string>) {
    forall k :: k in names ==> "--" <= names[k]
  }

  /** The internal consistency of a settings record. */
  predicate ConsistentSettings(s: ArtGallerySettings) {
    && s.fadeSheetImagesData.chosen in s.fadeSheetImagesData.choices
    && s.colorSchemeData.colors.Keys == s.colorSchemeData.propertyNames.Keys
    && s.colorSchemeData.colors.Keys == s.colorSchemeData.colorVariations.Keys
    && CustomPropertyNames(s.colorSchemeData.propertyNames)
    && s.indicatorColorData.colors.Keys == s.indicatorColorData.propertyNames.Keys
    && CustomPropertyNames(s.indicatorColorData.propertyNames)
  }

  /** The default fade option is one of the declared choices. */
  lemma DefaultFadeChoiceDeclared(moduleId: string)
    ensures var f := ArtGalleryDefaults(moduleId).fadeSheetImagesData;
            f.chosen in f.choices && f.choices.Keys == {"fadeBackground", "fadeAll"}
  {
  }

  /** The default colour scheme names the same colours in its colour, property and variation maps. */
  lemma DefaultColorSchemeConsistent(moduleId: string)
    ensures var c := ArtGalleryDefaults(moduleId).colorSchemeData;
            && c.colors.Keys == c.propertyNames.Keys == c.colorVariations.Keys
            && CustomPropertyNames(c.propertyNames)
  {
    var c := ArtGalleryDefaults(moduleId).colorSchemeData;
    assert c.colors.Keys == {"accentColor", "backgroundColor"};
    assert "--" <= "--JTCS-accent-color" && "--" <= "--JTCS-background-color";
  }

  /** The default indicator colours and their property names cover the same tiles. */
  lemma DefaultIndicatorColorsConsistent(moduleId: string)
    ensures var c := ArtGalleryDefaults(moduleId).indicatorColorData;
            c.colors.Keys == c.propertyNames.Keys && CustomPropertyNames(c.propertyNames)
  {
    var c := ArtGalleryDefaults(moduleId).indicatorColorData;
    assert c.colors.Keys == {"frameTileColor", "artTileColor", "unlinkedTileColor", "defaultTileColor"};
    assert "--" <= "--data-frame-color" && "--" <= "--data-art-color";
    assert "--" <= "--data-unlinked-color" && "--" <= "--data-default-color";
  }

  /** The defaults are consistent as a whole. */
  lemma DefaultsConsistent(moduleId: string)
    ensures ConsistentSettings(ArtGalleryDefaults(moduleId))
  {
    DefaultFadeChoiceDeclared(moduleId);
    DefaultColorSchemeConsistent(moduleId);
    DefaultIndicatorColorsConsistent(moduleId);
  }

  /** Both default tile images live under `modules/<MODULE_ID>/assets/`. */
  lemma DefaultTileImagesUnderAssets(moduleId: string)
    ensures var paths := ArtGalleryDefaults(moduleId).defaultTileImages.paths;
            && paths.Keys == {"frameTilePath", "artTilePath"}
            && forall k :: k in paths ==> AssetFolderBasePath(moduleId) <= paths[k]
    ensures "modules/" <= AssetFolderBasePath(moduleId)
  {
    var base := AssetFolderBasePath(moduleId);
    assert base <= base + "Bounding_Tile.webp" && base <= base + "DarkBackground.webp";
    assert base == "modules/" + (moduleId + "/assets/");
  }

  /** Journal entry, actor and item sheets all start with image controls enabled. */
  lemma DefaultSheetTypesEnabled(moduleId: string)
    ensures var choices := ArtGalleryDefaults(moduleId).sheetSettings.modularChoices;
            && choices.Keys == {"journalEntry", "actor", "item"}
            && forall name :: name in choices ==> choices[name]
  {
  }

  /** A slider declaration (`range: {min, max, step}`). */
  datatype SliderRange = SliderRange(min: int, max: int, step: nat)

  datatype NumberSetting = NumberSetting(default: int, range: SliderRange)

  /** The `sheetFadeOpacity` registration: default 50 on a 0 to 100 slider in steps of 10. */
  function SheetFadeOpacity(): NumberSetting {
    NumberSetting(50, SliderRange(0, 100, 10))
  }

  /** A value the slider can take: within its bounds, a whole number of steps from its minimum. */
  predicate OnSlider(v: int, r: SliderRange) {
    r.step > 0 && r.min <= v <= r.max && (v - r.min) % r.step == 0
  }

  /** The `sheetFadeOpacity` default lies on its slider. */
  lemma FadeOpacityDefaultOnSlider()
    ensures OnSlider(SheetFadeOpacity().default, SheetFadeOpacity().range)
  {
  }

  /** The hook both callbacks raise and the origin they report. */
  const UpdateHook := "updateJTCSSettings"
  const SettingsOrigin := "JTCSSettings"

  /** `Hooks.callAll(hook, { origin, updateData })`. */
  datatype Broadcast<T> = Broadcast(hook: string, origin: string, updateData: T)

  /**
   * The `artGallerySettings` `onChange` callback: it ignores the value it is handed and
   * broadcasts the setting as read back from storage after the change.
   */
  function ArtGallerySettingsChanged<T>(handed: T, storedAfter: T): (b: Broadcast<T>)
    ensures b.hook == UpdateHook && b.origin == SettingsOrigin
    ensures b.updateData == storedAfter
  {
    Broadcast(UpdateHook, SettingsOrigin, storedAfter)
  }

  /** The `JTCSAccentColor` `onChange` callback: it broadcasts the new colour itself. */
  function AccentColorChanged(value: string): (b: Broadcast<string>)
    ensures b.hook == UpdateHook && b.origin == SettingsOrigin
    ensures b.updateData == value
  {
    Broadcast(UpdateHook, SettingsOrigin, value)
  }

  /** Both callbacks send the same kind of message; listeners tell them apart only by `updateData`. */
  lemma CallbacksShareHookAndOrigin(handed: ArtGallerySettings, stored: ArtGallerySettings, color: string)
    ensures ArtGallerySettingsChanged(handed, stored).hook == AccentColorChanged(color).hook
    ensures ArtGallerySettingsChanged(handed, stored).origin == AccentColorChanged(color).origin
    ensures ArtGallerySettingsChanged(handed, stored) == ArtGallerySettingsChanged(stored, stored)
  {
  }
}
