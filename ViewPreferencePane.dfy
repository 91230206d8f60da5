/**
 * The view preference pane: the table of texture filtering modes, the theme and icon-size
 * choices, and the handlers that store a changed control into the preferences and the
 * lookups that bring the controls back in line with the stored preferences.
 */
module ViewPreferences {
  import opened Wrappers

  // OpenGL texture filter names, as the OpenGL specification numbers them.
  const GL_NEAREST := 0x2600
  const GL_LINEAR := 0x2601
  const GL_NEAREST_MIPMAP_NEAREST := 0x2700
  const GL_LINEAR_MIPMAP_NEAREST := 0x2701
  const GL_NEAREST_MIPMAP_LINEAR := 0x2702
  const GL_LINEAR_MIPMAP_LINEAR := 0x2703

  datatype TextureMode = TextureMode(minFilter: int, magFilter: int, name: string)

  /** The modes offered by the texture mode combo box, in its order. */
  const TextureModes: seq<TextureMode> := [
    TextureMode(GL_NEAREST, GL_NEAREST, "Nearest"),
    TextureMode(GL_NEAREST_MIPMAP_NEAREST, GL_NEAREST, "Nearest (mipmapped)"),
    TextureMode(GL_NEAREST_MIPMAP_LINEAR, GL_NEAREST, "Nearest (mipmapped, interpolated)"),
    TextureMode(GL_LINEAR, GL_LINEAR, "Linear"),
    TextureMode(GL_LINEAR_MIPMAP_NEAREST, GL_LINEAR, "Linear (mipmapped)"),
    TextureMode(GL_LINEAR_MIPMAP_LINEAR, GL_LINEAR, "Linear (mipmapped, interpolated)")]

  predicate ModeMatches(i: nat, minFilter: int, magFilter: int)
    requires i < |TextureModes|
  {
    TextureModes[i].minFilter == minFilter && TextureModes[i].magFilter == magFilter
  }

  /**
   * `i` is what the texture-mode search answers for a filter pair: the first mode with
   * those filters, or the table size when no mode has them.
   */
  predicate IsTextureModeIndex(minFilter: int, magFilter: int, i: nat) {
    i <= |TextureModes| &&
    (forall j :: 0 <= j < i && j < |TextureModes| ==> !ModeMatches(j, minFilter, magFilter)) &&
    (i < |TextureModes| ==> ModeMatches(i, minFilter, magFilter))
  }

  /** No two modes of the table share a filter pair. */
  lemma TextureModePairsDistinct(i: nat, j: nat)
    requires i < |TextureModes| && j < |TextureModes|
    requires ModeMatches(j, TextureModes[i].minFilter, TextureModes[i].magFilter)
    ensures i == j
  {
  }

  /**
   * The index stored by choosing mode `i` is found again: searching for the filters of
   * mode `i` answers `i`, because the six filter pairs are distinct.
   */
  lemma TextureModeRoundTrip(i: nat, found: nat)
    requires i < |TextureModes|
    requires IsTextureModeIndex(TextureModes[i].minFilter, TextureModes[i].magFilter, found)
    ensures found == i
  {
    assert ModeMatches(i, TextureModes[i].minFilter, TextureModes[i].magFilter);
    if found < i {
      TextureModePairsDistinct(i, found);
    }
  }

  /** The icon sizes offered by the texture browser's icon-size combo box, in its order. */
  const IconSizes: seq<real> := [0.25, 0.5, 1.0, 1.5, 2.0, 2.5, 3.0]

  /**
   * The combo index shown for a stored icon size: the index of that size, and index 2
   * (size 1) for a size that is not offered.
   */
  function IconSizeIndex(size: real): (i: nat)
    ensures i < |IconSizes|
    ensures size in IconSizes ==> IconSizes[i] == size
    ensures size !in IconSizes ==> i == 2
  {
    if size == 0.25 then 0
    else if size == 0.5 then 1
    else if size == 1.5 then 3
    else if size == 2.0 then 4
    else if size == 2.5 then 5
    else if size == 3.0 then 6
    else 2
  }

  /** Choosing an icon size and showing the stored size selects the same entry again. */
  lemma IconSizeRoundTrip(i: nat)
    requires i < |IconSizes|
    ensures IconSizeIndex(IconSizes[i]) == i
  {
  }

  /** The number of map view layouts the layout combo box offers. */
  const LayoutCount := 4

  /** The preferences this pane reads and writes. */
  datatype Preferences = Preferences(
    mapViewLayout: int,
    textureMinFilter: int,
    textureMagFilter: int,
    theme: string,
    textureBrowserIconSize: real,
    rendererFontSize: int)

  /** What the controls show, as `doUpdateControls` sets them. */
  datatype Controls = Controls(
    layoutIndex: int,
    textureModeIndex: nat,
    themeIndex: nat,
    iconSizeIndex: nat,
    rendererFontSize: int)

  class ViewPreferencePane {
    /** The preference store. */
    var prefs: Preferences
    /** The entries of the theme combo box. */
    const themes: seq<string>
    /** Qt's string to integer conversion, which fails on text that is not a number. */
    const toInt: string -> Option<int>

    constructor (prefs: Preferences, themes: seq<string>, toInt: string -> Option<int>)
      ensures this.prefs == prefs && this.themes == themes && this.toInt == toInt
    {
      this.prefs := prefs;
      this.themes := themes;
      this.toInt := toInt;
    }

    /** The first mode with the given filters, or the table size when there is none. */
    method FindTextureMode(minFilter: int, magFilter: int) returns (i: nat)
      ensures IsTextureModeIndex(minFilter, magFilter, i)
    {
      i := 0;
      while i < |TextureModes|
        invariant i <= |TextureModes|
        invariant forall j :: 0 <= j < i ==> !ModeMatches(j, minFilter, magFilter)
      {
        if TextureModes[i].minFilter == minFilter && TextureModes[i].magFilter == magFilter {
          return;
        }
        i := i + 1;
      }
    }

    /** The first theme entry equal to `theme`, or entry 0 when there is none. */
    method FindThemeIndex(theme: string) returns (i: nat)
      ensures i < |themes| && themes[i] == theme ==> forall j :: 0 <= j < i ==> themes[j] != theme
      ensures theme in themes ==> i < |themes| && themes[i] == theme
      ensures theme !in themes ==> i == 0
    {
      i := 0;
      while i < |themes|
        invariant i <= |themes|
        invariant forall j :: 0 <= j < i ==> themes[j] != theme
      {
        if themes[i] == theme {
          return;
        }
        i := i + 1;
      }
      return 0;
    }

    /** Stores the chosen layout; there are four layouts. */
    method LayoutChanged(index: int)
      requires 0 <= index < LayoutCount
      modifies this`prefs
      ensures prefs == old(prefs).(mapViewLayout := index)
    {
      prefs := prefs.(mapViewLayout := index);
    }

    /** Stores both filters of the chosen texture mode, which must be one of the table. */
    method TextureModeChanged(value: int)
      requires 0 <= value < |TextureModes|
      modifies this`prefs
      ensures prefs == old(prefs).(textureMinFilter := TextureModes[value].minFilter,
                                   textureMagFilter := TextureModes[value].magFilter)
    {
      var minFilter := TextureModes[value].minFilter;
      var magFilter := TextureModes[value].magFilter;
      prefs := prefs.(textureMinFilter := minFilter);
      prefs := prefs.(textureMagFilter := magFilter);
    }

    /** Stores the theme the combo box shows. */
    method ThemeChanged(currentText: string)
      modifies this`prefs
      ensures prefs == old(prefs).(theme := currentText)
    {
      prefs := prefs.(theme := currentText);
    }

    /** Stores the icon size of the chosen entry; an index outside the seven stores nothing. */
    method TextureBrowserIconSizeChanged(index: int)
      modifies this`prefs
      ensures 0 <= index < |IconSizes| ==> prefs == old(prefs).(textureBrowserIconSize := IconSizes[index])
      ensures !(0 <= index < |IconSizes|) ==> prefs == old(prefs)
    {
      if 0 <= index < |IconSizes| {
        prefs := prefs.(textureBrowserIconSize := IconSizes[index]);
      }
    }

    /** Stores the font size only when the text is a number. */
    method RendererFontSizeChanged(text: string)
      modifies this`prefs
      ensures toInt(text).Some? ==> prefs == old(prefs).(rendererFontSize := toInt(text).value)
      ensures toInt(text).None? ==> prefs == old(prefs)
    {
      var value := toInt(text);
      if value.Some? {
        prefs := prefs.(rendererFontSize := value.value);
      }
    }

    /** What the controls show for the stored preferences. */
    method DoUpdateControls() returns (c: Controls)
      ensures c.layoutIndex == prefs.mapViewLayout
      ensures IsTextureModeIndex(prefs.textureMinFilter, prefs.textureMagFilter, c.textureModeIndex)
      ensures prefs.theme in themes ==> c.themeIndex < |themes| && themes[c.themeIndex] == prefs.theme
      ensures prefs.theme !in themes ==> c.themeIndex == 0
      ensures c.iconSizeIndex == IconSizeIndex(prefs.textureBrowserIconSize)
      ensures c.rendererFontSize == prefs.rendererFontSize
    {
      var textureModeIndex := FindTextureMode(prefs.textureMinFilter, prefs.textureMagFilter);
      var themeIndex := FindThemeIndex(prefs.theme);
      c := Controls(prefs.mapViewLayout, textureModeIndex, themeIndex,
                    IconSizeIndex(prefs.textureBrowserIconSize), prefs.rendererFontSize);
    }
  }
}
