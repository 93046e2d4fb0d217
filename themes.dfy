/**
 * The client's colour themes (SafeZone-Web/src/utils/themes.js): four palettes, each with a
 * dark and a light variant of the same thirteen colours, and the lookups with their fallbacks.
 */
module Themes {
  import opened Common

  /** One theme object; every palette variant has exactly these thirteen colour fields. */
  datatype Theme = Theme(
    background: string, sidebar: string, card: string, cardHover: string,
    accent: string, accentHover: string, text: string, textSecondary: string,
    textMuted: string, border: string, success: string, error: string, warning: string)

  datatype Palette = Palette(dark: Theme, light: Theme)

  const MidnightDark := Theme("#1A0F26", "#2D1B3D", "#3D2555", "#4A2E66", "#8B5CF6", "#7C3AED", "#E9D5FF", "#C4B5FD", "#A78BFA", "#4A2E66", "#10B981", "#EF4444", "#F59E0B")
  const MidnightLight := Theme("#D3CDE0", "#C5BFE0", "#E8E4F0", "#DCD6E8", "#4C1D95", "#3B0764", "#0F0E14", "#3B0764", "#4B5563", "#B39DDB", "#059669", "#DC2626", "#D97706")
  const OceanDark := Theme("#061E28", "#0F3443", "#1A4D5E", "#236179", "#06B6D4", "#0891B2", "#CFFAFE", "#A5F3FC", "#67E8F9", "#236179", "#10B981", "#EF4444", "#F59E0B")
  const OceanLight := Theme("#C9D8E2", "#BCCCD9", "#E2EDF2", "#D4E3EA", "#0C4A6E", "#082F49", "#020617", "#0C4A6E", "#334155", "#90A4AE", "#059669", "#DC2626", "#D97706")
  const ForestDark := Theme("#0D2319", "#1A3A2E", "#245240", "#2D6650", "#10B981", "#059669", "#D1FAE5", "#A7F3D0", "#6EE7B7", "#2D6650", "#10B981", "#EF4444", "#F59E0B")
  const ForestLight := Theme("#CCDBCF", "#B8D3C4", "#E0EBE4", "#D1E0D6", "#064E3B", "#022C22", "#020604", "#064E3B", "#3F3F46", "#81C784", "#059669", "#DC2626", "#D97706")
  const AmberDark := Theme("#1A1510", "#2D2416", "#3D3420", "#4D4428", "#F59E0B", "#D97706", "#FEF3C7", "#FDE68A", "#FCD34D", "#4D4428", "#10B981", "#EF4444", "#F59E0B")
  const AmberLight := Theme("#E6DCCF", "#D9CBB8", "#F0EBE0", "#E6DDCF", "#78350F", "#451A03", "#1C120B", "#78350F", "#44403C", "#BCAAA4", "#059669", "#DC2626", "#D97706")

  /** The eight theme objects of the table. */
  const AllThemes := [MidnightDark, MidnightLight, OceanDark, OceanLight, ForestDark, ForestLight, AmberDark, AmberLight]

  /** `themes[key]` for the table's own keys. */
  function PaletteOf(key: string): (r: Option<Palette>)
    ensures r.Some? <==> key in {"midnight", "ocean", "forest", "amber"}
    ensures r.Some? ==> r.value.dark in AllThemes && r.value.light in AllThemes
  {
    match key
    case "midnight" => Some(Palette(MidnightDark, MidnightLight))
    case "ocean" => Some(Palette(OceanDark, OceanLight))
    case "forest" => Some(Palette(ForestDark, ForestLight))
    case "amber" => Some(Palette(AmberDark, AmberLight))
    case _ => None
  }

  /** `palette[mode]` for a palette's own keys. */
  function ModeOf(p: Palette, mode: string): (r: Option<Theme>)
    ensures r.Some? <==> mode == "dark" || mode == "light"
    ensures r.Some? ==> r.value == p.dark || r.value == p.light
  {
    if mode == "dark" then Some(p.dark) else if mode == "light" then Some(p.light) else None
  }

  /**
   * `getTheme(palette, mode)`; `None` is an omitted argument, which takes the default.
   * An unknown palette falls back to midnight, then an unknown mode to dark.
   */
  function GetTheme(palette: Option<string>, mode: Option<string>): (r: Theme)
    ensures r in AllThemes
  {
    var key := palette.GetOr("midnight");
    var p := if PaletteOf(key).Some? then PaletteOf(key).value else Palette(MidnightDark, MidnightLight);
    var m := mode.GetOr("dark");
    if ModeOf(p, m).Some? then ModeOf(p, m).value else p.dark
  }

  /** Known keys select that entry of the table. */
  lemma GetThemeKnown(palette: string, mode: string)
    requires PaletteOf(palette).Some? && ModeOf(PaletteOf(palette).value, mode).Some?
    ensures GetTheme(Some(palette), Some(mode)) == ModeOf(PaletteOf(palette).value, mode).value
    ensures mode == "dark" ==> GetTheme(Some(palette), Some(mode)) == PaletteOf(palette).value.dark
    ensures mode == "light" ==> GetTheme(Some(palette), Some(mode)) == PaletteOf(palette).value.light
  {
  }

  /** The fallbacks: an unknown palette reads as midnight, an unknown mode as dark, the defaults are midnight and dark. */
  lemma GetThemeFallback(palette: string, mode: string)
    ensures PaletteOf(palette).None? ==> GetTheme(Some(palette), Some(mode)) == GetTheme(Some("midnight"), Some(mode))
    ensures mode != "dark" && mode != "light" ==> GetTheme(Some(palette), Some(mode)) == GetTheme(Some(palette), Some("dark"))
    ensures GetTheme(None, None) == MidnightDark
    ensures GetTheme(Some(palette), None) == GetTheme(Some(palette), Some("dark"))
    ensures GetTheme(None, Some(mode)) == GetTheme(Some("midnight"), Some(mode))
  {
  }

  /** Every one of the eight themes is reachable by its own palette and mode. */
  lemma GetThemeOnto(t: Theme)
    requires t in AllThemes
    ensures exists palette, mode ::
      (PaletteOf(palette).Some? && ModeOf(PaletteOf(palette).value, mode).Some? && GetTheme(Some(palette), Some(mode)) == t)
  {
    var i :| 0 <= i < |AllThemes| && AllThemes[i] == t;
    ThemeAt(i);
  }

  /** The theme at index `i` of the table is palette `i / 2` of the key list, dark for even `i` and light for odd. */
  lemma ThemeAt(i: nat)
    requires i < |AllThemes|
    ensures var palette, mode := Palettes()[i / 2], if i % 2 == 0 then "dark" else "light";
      PaletteOf(palette).Some? && ModeOf(PaletteOf(palette).value, mode).Some? && GetTheme(Some(palette), Some(mode)) == AllThemes[i]
  {
    var palette, mode := Palettes()[i / 2], if i % 2 == 0 then "dark" else "light";
    PaletteAt(i / 2);
    assert AllThemes[i] == if i % 2 == 0 then AllThemes[2 * (i / 2)] else AllThemes[2 * (i / 2) + 1];
    GetThemeKnown(palette, mode);
  }

  /** Key `k` of the list holds themes `2k` and `2k + 1` of the table. */
  lemma PaletteAt(k: nat)
    requires k < 4
    ensures PaletteOf(Palettes()[k]) == Some(Palette(AllThemes[2 * k], AllThemes[2 * k + 1]))
  {
    if k == 0 {
      assert Palettes()[0] == "midnight";
    } else if k == 1 {
      assert Palettes()[1] == "ocean";
    } else if k == 2 {
      assert Palettes()[2] == "forest";
    } else {
      assert Palettes()[3] == "amber";
    }
  }

  /** `getPalettes()`: the table's keys in their order. */
  function Palettes(): (r: seq<string>)
    ensures forall key :: key in r <==> PaletteOf(key).Some?
    ensures |r| == 4 && r[0] == "midnight"
  {
    ["midnight", "ocean", "forest", "amber"]
  }

  /** `THEME_PALETTES[key]`. */
  function DisplayNameOf(key: string): Option<string> {
    match key
    case "midnight" => Some("Midnight Purple")
    case "ocean" => Some("Ocean Blue")
    case "forest" => Some("Forest Green")
    case "amber" => Some("Warm Amber")
    case _ => None
  }

  /** `getPaletteName(key)` as its documentation promises: the display name of a known key, and the key itself otherwise. */
  function PaletteName(key: string): (r: string)
    ensures PaletteOf(key).Some? ==> r == DisplayNameOf(key).value && r != key
    ensures PaletteOf(key).None? ==> r == key
  {
    OrDefault(DisplayNameOf(key), key)
  }

  // ---------------------------------------------------------------------------
  // getTheme as written: `themes[palette]` is an ordinary property read, so it also finds
  // the members every object inherits from Object.prototype.
  // ---------------------------------------------------------------------------

  /** Keys every plain JavaScript object answers through its prototype. */
  const InheritedKeys := {"constructor", "hasOwnProperty", "isPrototypeOf", "propertyIsEnumerable",
    "toLocaleString", "toString", "valueOf", "__proto__", "__defineGetter__", "__defineSetter__",
    "__lookupGetter__", "__lookupSetter__"}

  /** What `themes[palette][mode]` evaluates to: a theme object or `undefined`. */
  datatype Looked = Found(theme: Theme) | Undefined

  /**
   * `getTheme` as written, for the modes "dark" and "light": an inherited key passes the
   * `!themes[palette]` test (its value is a function or Object.prototype), and has no
   * `dark` or `light` property, so the result is `undefined`.
   */
  function GetThemeAsWritten(palette: string, mode: string): (r: Looked)
    requires mode == "dark" || mode == "light"
    ensures r == Undefined <==> PaletteOf(palette).None? && palette in InheritedKeys
  {
    if PaletteOf(palette).Some? then Found(ModeOf(PaletteOf(palette).value, mode).value)
    else if palette in InheritedKeys then Undefined
    else Found(GetTheme(Some("midnight"), Some(mode)))
  }

  /** `getTheme("toString")` returns `undefined` instead of falling back to midnight. */
  lemma InheritedKeyEscapesFallback()
    ensures GetThemeAsWritten("toString", "dark") == Undefined
    ensures GetTheme(Some("toString"), Some("dark")) == MidnightDark
  {
    assert "toString" in InheritedKeys;
  }

  /** On every other key the corrected lookup agrees with the code as written. */
  lemma GetThemeAgrees(palette: string, mode: string)
    requires mode == "dark" || mode == "light"
    requires palette !in InheritedKeys
    ensures GetThemeAsWritten(palette, mode) == Found(GetTheme(Some(palette), Some(mode)))
  {
  }

  /** What `THEME_PALETTES[key] || key` evaluates to: a string, or an inherited member (a function, or Object.prototype). */
  datatype NameLookup = Name(text: string) | InheritedMember(key: string)

  /**
   * `getPaletteName` as written: `THEME_PALETTES[key]` is an ordinary property read, so an
   * inherited key yields its truthy inherited member and the `|| key` fallback is skipped.
   */
  function PaletteNameAsWritten(key: string): (r: NameLookup)
    ensures r.InheritedMember? <==> PaletteOf(key).None? && key in InheritedKeys
  {
    if PaletteOf(key).Some? then Name(DisplayNameOf(key).value)
    else if key in InheritedKeys then InheritedMember(key)
    else Name(key)
  }

  /** `getPaletteName('toString')` is the inherited function, not a string; the corrected name is the key. */
  lemma InheritedKeyEscapesName()
    ensures PaletteNameAsWritten("toString").InheritedMember?
    ensures PaletteName("toString") == "toString"
  {
    assert "toString" in InheritedKeys;
  }

  /** On every other key the corrected name agrees with the code as written. */
  lemma PaletteNameAgrees(key: string)
    requires key !in InheritedKeys
    ensures PaletteNameAsWritten(key) == Name(PaletteName(key))
  {
  }
}
