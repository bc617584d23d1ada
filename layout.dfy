/** The theme applied before the page first paints: read from the persisted store blob,
    with the dark theme as the fallback. */
module Layout {
  import opened Types
  import opened Store

  /** The `state` object of the persisted blob, as far as the theme script reads it. */
  datatype StoredState = StoredState(theme: Option<string>)

  /** What reading the persisted blob gives: nothing (no item, or an empty one),
      something that cannot be read (storage access or parsing threw), or parsed JSON
      with or without a `state` object. */
  datatype StoredBlob = Missing | Unreadable | Json(state: Option<StoredState>)

  /** The value written to the document's theme attribute. */
  function ResolveTheme(blob: StoredBlob): (theme: string)
    ensures theme != ""
  {
    match blob
    case Json(Some(StoredState(Some(t)))) => if t != "" then t else ThemeName(DefaultTheme)
    case _ => ThemeName(DefaultTheme)
  }

  /** A stored, non-empty `state.theme` is applied as it is; in every other case the
      theme is `dark`, the store's own default. */
  lemma ResolveThemeRule(blob: StoredBlob)
    ensures (blob.Json? && blob.state.Some? && blob.state.value.theme.Some? && blob.state.value.theme.value != "")
      ==> ResolveTheme(blob) == blob.state.value.theme.value
    ensures blob == Missing || blob == Unreadable ==> ResolveTheme(blob) == "dark"
    ensures blob == Json(None) || blob == Json(Some(StoredState(None))) ==> ResolveTheme(blob) == "dark"
    ensures blob == Json(Some(StoredState(Some("")))) ==> ResolveTheme(blob) == "dark"
    ensures ThemeName(DefaultTheme) == "dark"
  {
  }

  /** Whatever theme the store persisted comes back on the next start. */
  lemma PersistedThemeRoundTrip(t: Theme)
    ensures ResolveTheme(Json(Some(StoredState(Some(ThemeName(t)))))) == ThemeName(t)
  {
  }
}
