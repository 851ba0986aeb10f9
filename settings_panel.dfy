/** The cursor-colour row of the settings panel: the colour picker shows the
    container's cursor colour as read by `getRGBA`, and its change handler
    writes the picked colour back through the container's setter. */
module SettingsPanel {
  import opened Wrappers
  import RgbaColor
  import SettingsStore

  /** The colour the picker is given: `getRGBA(settingsContainer.editorCursorColor)`. */
  function PickerColor(s: SettingsStore.Settings): RgbaColor.Rgba
    reads s
  {
    RgbaColor.GetRgba(Some(s.editorCursorColor))
  }

  /** The picker's change handler for a colour with integer components: the
      formatted string is stored and shown verbatim, and the picker then shows
      the picked colour again. */
  method PickColor(s: SettingsStore.Settings, c: RgbaColor.Rgba)
    requires s.Valid()
    modifies s`store, s`editorCursorColor
    ensures s.Valid()
    ensures s.editorCursorColor == RgbaColor.FormatRgba(c)
    ensures s.store == old(s.store)[SettingsStore.CursorColorKey := RgbaColor.FormatRgba(c)]
    ensures PickerColor(s) == c
  {
    var cursorColor := RgbaColor.FormatRgba(c);
    assert cursorColor[0] == 'r';
    s.SetEditorCursorColor(cursorColor);
    RgbaColor.FormatRoundTrip(c);
  }

  /** With no stored cursor colour (or an empty one), the picker starts on the
      container's default colour, not on `getRGBA`'s own fallback. */
  lemma FreshPickerShowsDefault(store: map<string, string>)
    requires SettingsStore.CursorColorKey !in store || store[SettingsStore.CursorColorKey] == ""
    ensures RgbaColor.GetRgba(Some(SettingsStore.StoredOr(store, SettingsStore.CursorColorKey, SettingsStore.DefaultCursorColor)))
            == RgbaColor.Rgba(74, 144, 226, 1)
  {
    RgbaColor.DefaultCursorColourReads();
  }

  /** Clearing the cursor colour makes the picker show the default colour. */
  lemma ClearedColorShowsDefault()
    ensures RgbaColor.GetRgba(Some(SettingsStore.NormalizeCursorColor(""))) == RgbaColor.Rgba(74, 144, 226, 1)
  {
    RgbaColor.DefaultCursorColourReads();
  }
}
