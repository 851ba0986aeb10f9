/** The settings container: five pieces of state, each initialised from the
    browser's key-value store (`localStorage`) and written back by its setter.
    The store is a map from key to value; a missing key is `getItem`'s null.
    The theme manager and the translation library are not modelled: the theme
    manager is given as two functions fixed when the container is created, and
    each `i18n.changeLanguage` call is recorded. */
module SettingsStore {
  import opened Wrappers
  import opened JsStrings

  const LanguageKey := "settings/language"
  const CursorColorKey := "settings/editorCursorColor"
  const AuthorNameKey := "settings/authorName"
  const AuthorEmailKey := "settings/authorEmail"
  const ThemeKey := "settings/theme"

  const DefaultLanguage := "en-US"
  const DefaultCursorColor := "rgba(74, 144, 226, 1)"
  const DefaultAuthorName := "Anonymous"
  const DefaultAuthorEmail := "anonymous@crossnote.app"

  /** The languages the language setter accepts. */
  const Languages: set<string> := {"en-US", "zh-CN", "zh-TW", "ja-JP"}

  /** A theme as far as the container sees it: the manager's theme object, known by its name. */
  datatype Theme = Theme(name: string)

  /** `localStorage.getItem(key)`: None (null) when the key is missing. */
  function GetItem(store: map<string, string>, key: string): (v: Option<string>)
    ensures v.Some? <==> key in store
    ensures v.Some? ==> v.value == store[key]
  {
    if key in store then Some(store[key]) else None
  }

  /** `localStorage.getItem(key) || fallback`: the stored value unless it is missing or empty. */
  function StoredOr(store: map<string, string>, key: string, fallback: string): (v: string)
    ensures key in store && store[key] != "" ==> v == store[key]
    ensures key !in store || store[key] == "" ==> v == fallback
  {
    OrElse(GetItem(store, key).GetOr(""), fallback)
  }

  /** The language the language setter keeps for a requested one. */
  function NormalizeLanguage(language: string): (r: string)
    ensures r in Languages
    ensures language in Languages ==> r == language
    ensures language !in Languages ==> r == DefaultLanguage
  {
    if language == "en-US" || language == "zh-CN" || language == "zh-TW" || language == "ja-JP"
    then language
    else "en-US"
  }

  /** The cursor colour the cursor-colour setter keeps for a requested one. */
  function NormalizeCursorColor(color: string): (r: string)
    ensures r != ""
    ensures color != "" ==> r == color
    ensures color == "" ==> r == DefaultCursorColor
  {
    OrElse(color, DefaultCursorColor)
  }

  /** Normalising a language twice is normalising it once. */
  lemma NormalizeLanguageIdempotent(language: string)
    ensures NormalizeLanguage(NormalizeLanguage(language)) == NormalizeLanguage(language)
  {
  }

  /** The initial language is read from the store without the whitelist check. */
  lemma InitialLanguageUnchecked()
    ensures StoredOr(map[LanguageKey := "fr-FR"], LanguageKey, DefaultLanguage) !in Languages
  {
  }

  class Settings {
    /** The browser's key-value store. */
    var store: map<string, string>
    var language: string
    var editorCursorColor: string
    var authorName: string
    var authorEmail: string
    var theme: Theme
    /** `themeManager.selectedTheme`. */
    var managerTheme: Theme
    /** The arguments of every `i18n.changeLanguage` call, oldest first. */
    var languageChanges: seq<string>
    /** The theme names passed to the editor library's `setTheme`, oldest first. */
    var editorThemeCalls: seq<string>
    /** `themeManager.getTheme(name)`; the name may be null. */
    const getTheme: Option<string> -> Option<Theme>
    /** The theme the manager has selected after `selectTheme(name)`, given the one selected before. */
    const selectTheme: (Theme, string) -> Theme

    /** The language and cursor colour shown are the ones a fresh container
        would read back from the store. */
    ghost predicate Valid()
      reads this
    {
      && language == StoredOr(store, LanguageKey, DefaultLanguage)
      && editorCursorColor == StoredOr(store, CursorColorKey, DefaultCursorColor)
    }

    /** The initial state: each value read from the store, with its default when
        the key is missing or empty; the theme looked up by the stored name, or
        the manager's current theme. */
    constructor (store: map<string, string>, getTheme: Option<string> -> Option<Theme>,
                 selectTheme: (Theme, string) -> Theme, managerTheme: Theme)
      ensures Valid()
      ensures this.store == store
      ensures language == StoredOr(store, LanguageKey, DefaultLanguage)
      ensures editorCursorColor == StoredOr(store, CursorColorKey, DefaultCursorColor)
      ensures authorName == StoredOr(store, AuthorNameKey, DefaultAuthorName)
      ensures authorEmail == StoredOr(store, AuthorEmailKey, DefaultAuthorEmail)
      ensures theme == getTheme(GetItem(store, ThemeKey)).GetOr(managerTheme)
      ensures this.managerTheme == managerTheme && languageChanges == [] && editorThemeCalls == []
      ensures this.getTheme == getTheme && this.selectTheme == selectTheme
    {
      this.store := store;
      language := StoredOr(store, LanguageKey, DefaultLanguage);
      editorCursorColor := StoredOr(store, CursorColorKey, DefaultCursorColor);
      authorName := StoredOr(store, AuthorNameKey, DefaultAuthorName);
      authorEmail := StoredOr(store, AuthorEmailKey, DefaultAuthorEmail);
      theme := getTheme(GetItem(store, ThemeKey)).GetOr(managerTheme);
      this.managerTheme := managerTheme;
      languageChanges := [];
      editorThemeCalls := [];
      this.getTheme := getTheme;
      this.selectTheme := selectTheme;
    }

    /** `setLanguage`: a whitelisted language is kept, any other becomes en-US;
        the store, the state and the translation library all get that value. */
    method SetLanguage(requested: string)
      requires Valid()
      modifies this`store, this`language, this`languageChanges
      ensures Valid()
      ensures language == NormalizeLanguage(requested) && language in Languages
      ensures store == old(store)[LanguageKey := language]
      ensures languageChanges == old(languageChanges) + [language]
    {
      var chosen: string;
      if requested == "en-US" || requested == "zh-CN" || requested == "zh-TW" || requested == "ja-JP" {
        chosen := requested;
      } else {
        chosen := "en-US";
      }
      store := store[LanguageKey := chosen];
      language := chosen;
      languageChanges := languageChanges + [chosen];
    }

    /** `setEditorCursorColor`: the empty colour becomes the default; anything
        else is stored and shown verbatim. */
    method SetEditorCursorColor(requested: string)
      requires Valid()
      modifies this`store, this`editorCursorColor
      ensures Valid()
      ensures editorCursorColor == NormalizeCursorColor(requested)
      ensures store == old(store)[CursorColorKey := editorCursorColor]
    {
      var color := OrElse(requested, DefaultCursorColor);
      store := store[CursorColorKey := color];
      editorCursorColor := color;
    }

    /** `setAuthorName`: stored and shown verbatim, the empty name included. */
    method SetAuthorName(name: string)
      requires Valid()
      modifies this`store, this`authorName
      ensures Valid()
      ensures authorName == name && store == old(store)[AuthorNameKey := name]
    {
      store := store[AuthorNameKey := name];
      authorName := name;
    }

    /** `setAuthorEmail`: stored and shown verbatim, the empty address included. */
    method SetAuthorEmail(email: string)
      requires Valid()
      modifies this`store, this`authorEmail
      ensures Valid()
      ensures authorEmail == email && store == old(store)[AuthorEmailKey := email]
    {
      store := store[AuthorEmailKey := email];
      authorEmail := email;
    }

    /** `setTheme`: asks the manager to select the named theme, then stores and
        shows the theme the manager actually selected, whatever was requested. */
    method SetTheme(name: string)
      requires Valid()
      modifies this`store, this`theme, this`managerTheme
      ensures Valid()
      ensures managerTheme == selectTheme(old(managerTheme), name)
      ensures theme == managerTheme && store == old(store)[ThemeKey := theme.name]
    {
      managerTheme := selectTheme(managerTheme, name);
      store := store[ThemeKey := managerTheme.name];
      theme := managerTheme;
    }

    /** The container's mount effect: a non-empty stored theme name is selected
        again through `setTheme` and handed, as stored, to the editor library. */
    method MountEffect()
      requires Valid()
      modifies this`store, this`theme, this`managerTheme, this`editorThemeCalls
      ensures Valid()
      ensures var stored := GetItem(old(store), ThemeKey).GetOr("");
        if stored != "" then
          && managerTheme == selectTheme(old(managerTheme), stored)
          && theme == managerTheme && store == old(store)[ThemeKey := theme.name]
          && editorThemeCalls == old(editorThemeCalls) + [stored]
        else
          && theme == old(theme) && managerTheme == old(managerTheme) && store == old(store)
          && editorThemeCalls == old(editorThemeCalls)
    {
      var stored := GetItem(store, ThemeKey).GetOr("");
      if stored != "" {
        SetTheme(stored);
        editorThemeCalls := editorThemeCalls + [stored];
      }
    }
  }

  /** An empty author name is kept for the session, but a container created
      from the resulting store shows the default name again. */
  method EmptyAuthorNameNotKeptAcrossReload(s: Settings) returns (reloaded: Settings)
    requires s.Valid()
    modifies s
    ensures s.authorName == "" && reloaded.authorName == DefaultAuthorName
  {
    s.SetAuthorName("");
    reloaded := new Settings(s.store, s.getTheme, s.selectTheme, s.managerTheme);
  }
}
