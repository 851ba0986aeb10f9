# crossnote widget and settings rules in Dafny

This project models four small pieces of crossnote, a Markdown note-taking web
application, and proves what each promises:

- the **top panel of a persisted widget** (`WidgetTopPanel`). It has a source
  link, Edit and Delete controls, and an edit dialog with a buffered source
  field and a description sub-editor. Saving updates the widget optimistically,
  and deleting waits for the server's verdict;
- the **GitHub Gist widget**. It accepts a gist URL only when its host is
  exactly `gist.github.com`, keeps origin and path, and chooses between the
  embedded gist, an empty preview and a configuration card;
- the **settings container**. Five settings (language, editor cursor colour,
  author name and e-mail, theme) are read from the browser's key-value store
  with defaults and written back by their setters. The language and
  cursor-colour setters normalise their argument, the author setters store it
  verbatim, and the theme setter stores the theme manager's selection;
- **`getRGBA`**, the settings panel's parser for `rgba(r, g, b, a)` cursor
  colours, and the string its colour picker writes.

Modules, one per source file plus two helpers:

| module | file | models |
|---|---|---|
| `Wrappers` | wrappers.dfy | `Option` |
| `JsStrings` | js_strings.dfy | JavaScript `||` on strings, `startsWith`, `replace` with a string pattern |
| `RgbaColor` | rgba_color.dfy | `getRGBA` and the picker's `rgba(...)` template (src/components/Settings.tsx) |
| `SettingsPanel` | settings_panel.dfy | the cursor-colour picker of the settings panel (src/components/Settings.tsx) |
| `SettingsStore` | settings_store.dfy | the settings container (src/containers/settings.ts) |
| `GitHubGist` | github_gist.dfy | the Gist widget (src/editor/widgets/github_gist/index.tsx) |
| `WidgetPanel` | widget_panel.dfy | the widget top panel (src/editor/widgets/widget/WidgetTopPanel.tsx) |

The modelling choices:

- Component state becomes a class with the same fields. The panel's widget
  record is a class too, because the panel writes its description and source
  in place.
- Each event handler and effect is a method. It states the complete new state
  in its `ensures`. Field-level `modifies` frames (``this`field``) guarantee
  that no other field changes.
- Calls into code outside the repository are recorded in sequences of the
  calls made. This covers GraphQL mutations, notifications, `removeSelf`,
  `setAttributes`, `i18n.changeLanguage`, the editor's `setTheme`,
  `renderPreview` and navigation.
- The WHATWG URL parser and the theme manager become functions given when the
  object is created.
- A JavaScript value that is null, undefined or "" is modelled as "" where the
  code only tests it for truthiness. Where null is a value of its own, the
  model uses `Option`:
  - `getRGBA`'s argument (`RgbaColor.GetRgba`);
  - `localStorage.getItem`'s result (`SettingsStore.GetItem`) and the theme
    manager's `getTheme` argument;
  - the `data` of the delete mutation's result (`WidgetPanel.DeleteResult`);
  - the panel's sub-editor, null until the editor effect builds one
    (`WidgetPanel.TopPanel.editor`), and the update mutation's outcome, absent
    until it arrives (`WidgetPanel.TopPanel.updateResult`).

`getRGBA` is proved correct against an independent description of the strings
its regular expression matches (`IsLayout`/`Layout`): it accepts exactly those
strings, it reads their digit runs base 10, and it falls back to (51, 51, 51, 1)
on everything else.

## Model

| member | source | states |
|---|---|---|
| JsStrings.IndexOfFrom | src/editor/widgets/widget/WidgetTopPanel.tsx:254 | the position `replace` substitutes at is the first occurrence of the pattern at or after the start, and None means there is no occurrence |
| JsStrings.OrElse | src/containers/settings.ts:52 | JavaScript `a || b` on strings: a non-empty left operand is the result, otherwise the right one; the result is empty only when both are |
| JsStrings.StartsWith | src/editor/widgets/widget/WidgetTopPanel.tsx:252 | `startsWith`: the string's first characters are the prefix (a predicate) |
| JsStrings.ReplaceFirst | src/editor/widgets/widget/WidgetTopPanel.tsx:254 | `replace` with a string pattern and a replacement without `$` (line 254 passes ""): only the first occurrence is replaced, the text around it is kept, and a string without an occurrence is returned unchanged |
| JsStrings.ReplacePrefixStrips | src/editor/widgets/widget/WidgetTopPanel.tsx:252-254 | when the source starts with the origin, replacing the origin by "" removes exactly that prefix |
| RgbaColor.IsDigit | src/components/Settings.tsx:148 | `\d`: the characters 0 to 9 (a predicate) |
| RgbaColor.IsSpace | src/components/Settings.tsx:148 | `\s`: ECMAScript white space and line terminators (a predicate) |
| RgbaColor.ParseDecimal | src/components/Settings.tsx:159-162 | `parseInt(d, 10)` on a digit run, read from the left; its meaning is stated by `DecimalRoundTrip` (no leading zero) and `LeadingZeroIgnored` (leading zeros) |
| RgbaColor.LeadingZeroIgnored | src/components/Settings.tsx:159-162 | a leading zero, which `\d+` accepts, does not change the value read: "074" reads as 74 |
| RgbaColor.Parse | src/components/Settings.tsx:147-163 | the full match of the `rgba(...)` expression: only a string starting with `rgba(` can match; `ParseIff` proves it accepts exactly the described strings |
| RgbaColor.GetRgba | src/components/Settings.tsx:138-166 | `getRGBA`: undefined gives the default, and any other result is the full match's colour; `GetRgbaIsParse`, `GetRgbaFallback`, `GetRgbaRejects` and `GetRgbaReadsComponents` state the rest |
| RgbaColor.FormatRgba | src/components/Settings.tsx:523 | the picker's template writes a string that starts with `rgba(` and ends with `)`; `FormatRoundTrip` proves it reads back |
| RgbaColor.SpacesLen | src/components/Settings.tsx:148 | a greedy `\s*` consumes at most the whole text |
| RgbaColor.DigitsLen | src/components/Settings.tsx:148 | a greedy `\d+` consumes at most the whole text |
| RgbaColor.SpacesLenIsMaximal | src/components/Settings.tsx:148 | the white-space run consumed is all white space and is followed by no more white space |
| RgbaColor.DigitsLenIsMaximal | src/components/Settings.tsx:148 | the digit run consumed is all digits and is followed by no more digits |
| RgbaColor.SpacesLenStops | src/components/Settings.tsx:148 | a white-space run followed by anything else is consumed exactly |
| RgbaColor.DigitsLenStops | src/components/Settings.tsx:148 | a digit run followed by a non-digit is consumed exactly |
| RgbaColor.DigitChar | src/components/Settings.tsx:523 | each digit below ten is written as a decimal digit character of that value |
| RgbaColor.Decimal | src/components/Settings.tsx:523 | a component in the template literal is a non-empty run of decimal digits without a leading zero |
| RgbaColor.DecimalRoundTrip | src/components/Settings.tsx:157-163 | reading back the decimal digits the template literal writes for a non-negative integer gives that integer, for integers JavaScript writes without exponent notation and holds exactly (below 2^53) |
| RgbaColor.Fields | src/components/Settings.tsx:147-149 | scanning the components yields one value per expected terminator |
| RgbaColor.DecimalValues | src/components/Settings.tsx:159-162 | one parsed value per digit run |
| RgbaColor.ComponentComplete | src/components/Settings.tsx:148 | `\s*(\d+)\s*` and a terminator, in front of anything, is matched with the digit run's value |
| RgbaColor.FieldsComplete | src/components/Settings.tsx:148 | a sequence of components is matched with the values of their digit runs |
| RgbaColor.ParseOfFields | src/components/Settings.tsx:147-163 | four matched components and nothing after `)` give the colour of those four values |
| RgbaColor.ValuesAreDecimalValues | src/components/Settings.tsx:159-162 | the four colour fields are the digit runs' values in order |
| RgbaColor.ParseComplete | src/components/Settings.tsx:147-163 | every string the regular expression describes is accepted, with its four digit runs read base 10 |
| RgbaColor.ComponentSound | src/components/Settings.tsx:148 | whatever one component accepts is white space, a digit run, white space and the terminator |
| RgbaColor.LayoutCons | src/components/Settings.tsx:148 | one more component in front of a matching sequence still matches the regular expression's shape |
| RgbaColor.FieldsSound | src/components/Settings.tsx:148 | whatever a sequence of components accepts has the regular expression's shape |
| RgbaColor.ParseSoundWitness | src/components/Settings.tsx:147-163 | every accepted string is of the `rgba(` d `,` d `,` d `,` d `)` shape with optional white space, and the result is its digit runs' values |
| RgbaColor.ParseSound | src/components/Settings.tsx:147-163 | the same, stated with an existential |
| RgbaColor.ParseIff | src/components/Settings.tsx:147-163 | an `rgba(...)` match yielding a colour happens exactly when the string has the described shape with those digit values |
| RgbaColor.GetRgbaFallback | src/components/Settings.tsx:138-145 | undefined, "" and a string not starting with `rgba(` give (51, 51, 51, 1) |
| RgbaColor.GetRgbaIsParse | src/components/Settings.tsx:138-163 | on any string the result is the full match's colour when there is one and (51, 51, 51, 1) otherwise |
| RgbaColor.GetRgbaReadsComponents | src/components/Settings.tsx:157-163 | on a full match every component is its digit run read base 10 |
| RgbaColor.GetRgbaRejects | src/components/Settings.tsx:147-156 | a string not of the described shape gives (51, 51, 51, 1) |
| RgbaColor.PiecesHaveNoDot | src/components/Settings.tsx:148 | no string of the described shape contains a '.' |
| RgbaColor.DotFallsBack | src/components/Settings.tsx:147-156 | any string with a '.', such as one with a fractional component, gives (51, 51, 51, 1) |
| RgbaColor.FractionalAlphaFallsBack | src/components/Settings.tsx:147-156 | the picker's string for alpha 0.5 reads back as (51, 51, 51, 1), not as the picked colour |
| RgbaColor.FormatRoundTrip | src/components/Settings.tsx:523 | formatting integer components as `rgba(r, g, b, a)` and reading with `getRGBA` gives the same components |
| RgbaColor.DefaultCursorColourReads | src/containers/settings.ts:14-17 | the container's default cursor colour `rgba(74, 144, 226, 1)` reads back as (74, 144, 226, 1) |
| SettingsPanel.PickerColor | src/components/Settings.tsx:521 | the colour the picker is given is `getRGBA` of the container's cursor colour |
| SettingsPanel.PickColor | src/components/Settings.tsx:521-525 | for a colour with integer components (alpha 0 or 1), picking it stores its formatted string verbatim under the cursor-colour key, and the picker then shows the picked colour; no other setting changes |
| SettingsPanel.FreshPickerShowsDefault | src/components/Settings.tsx:521 | with no stored cursor colour the picker starts on (74, 144, 226, 1) |
| SettingsPanel.ClearedColorShowsDefault | src/containers/settings.ts:51-55 | after clearing the cursor colour the picker shows (74, 144, 226, 1) |
| SettingsStore.GetItem | src/containers/settings.ts:12 | `getItem` finds a value exactly for a stored key |
| SettingsStore.StoredOr | src/containers/settings.ts:11-23 | `getItem(key) || default`: the stored value when present and non-empty, the default otherwise |
| SettingsStore.NormalizeLanguage | src/containers/settings.ts:33-46 | the language kept is always one of en-US, zh-CN, zh-TW and ja-JP; a listed language is kept and any other becomes en-US |
| SettingsStore.NormalizeCursorColor | src/containers/settings.ts:52 | the colour kept is never empty; a non-empty colour is kept and "" becomes `rgba(74, 144, 226, 1)` |
| SettingsStore.NormalizeLanguageIdempotent | src/containers/settings.ts:33-46 | setting the kept language again keeps it |
| SettingsStore.InitialLanguageUnchecked | src/containers/settings.ts:11-13 | the initial language is not whitelist-checked: a stored `fr-FR` is shown as is |
| SettingsStore.Settings.constructor | src/containers/settings.ts:11-27 | each initial value is the stored one, or its default when missing or empty; the theme is the stored name's theme, or the manager's current one |
| SettingsStore.Settings.SetLanguage | src/containers/settings.ts:31-49 | store, state and translation library all receive the normalised language; only the language key changes; the shown language equals what a reload reads |
| SettingsStore.Settings.SetEditorCursorColor | src/containers/settings.ts:51-55 | store and state receive the colour, with "" replaced by the default; only that key changes |
| SettingsStore.Settings.SetAuthorName | src/containers/settings.ts:57-60 | store and state receive the name verbatim, "" included; only that key changes |
| SettingsStore.Settings.SetAuthorEmail | src/containers/settings.ts:62-65 | store and state receive the address verbatim, "" included; only that key changes |
| SettingsStore.Settings.SetTheme | src/containers/settings.ts:67-71 | the name stored is that of the theme the manager actually selected, which is the theme shown, whatever name was requested |
| SettingsStore.Settings.MountEffect | src/containers/settings.ts:73-82 | a non-empty stored theme name is selected again and passed to the editor library; otherwise nothing changes |
| SettingsStore.EmptyAuthorNameNotKeptAcrossReload | src/containers/settings.ts:18-60 | an empty author name is shown for the session, but a container created from the resulting store shows `Anonymous` |
| GitHubGist.GistAttributes | src/editor/widgets/github_gist/index.tsx:49-63 | attributes are set exactly when the URL parses and its host is exactly `gist.github.com`; they hold only `url`, equal to origin + pathname |
| GitHubGist.GistAttributesDropQueryAndFragment | src/editor/widgets/github_gist/index.tsx:56-58 | the stored URL is scheme, `//gist.github.com` and path, and adding back the query and fragment gives the full URL |
| GitHubGist.GistAttributesIgnoreQueryAndFragment | src/editor/widgets/github_gist/index.tsx:56-58 | two URLs differing only in query and fragment set the same attributes |
| GitHubGist.GistHostIsExact | src/editor/widgets/github_gist/index.tsx:53-54 | a host with a port or a subdomain of the gist host is rejected |
| GitHubGist.OpaqueOriginAccepted | src/editor/widgets/github_gist/index.tsx:52-58 | only the host is checked: a URL on the gist host whose origin is the opaque "null" is accepted and stored as "null" followed by its path |
| GitHubGist.HasUrl | src/editor/widgets/github_gist/index.tsx:65 | the `url` attribute is truthy: present and non-empty (a predicate) |
| GitHubGist.RenderView | src/editor/widgets/github_gist/index.tsx:65-111 | a non-empty `url` attribute renders the gist; without it, preview renders nothing and otherwise the configuration card |
| GitHubGist.DeleteControlOutsidePreview | src/editor/widgets/github_gist/index.tsx:65-111 | a delete control is offered exactly outside preview mode |
| GitHubGist.AcceptedUrlIsEmbedded | src/editor/widgets/github_gist/index.tsx:56-68 | a widget configured by any accepted URL (its origin is never empty) renders that gist |
| GitHubGist.GistWidget.View | src/editor/widgets/github_gist/index.tsx:65-111 | a widget renders what `RenderView` chooses for its props |
| GitHubGist.GistWidget.constructor | src/editor/widgets/github_gist/index.tsx:44-47 | the text buffer starts empty and no call has been made to the host |
| GitHubGist.GistWidget.SetGistUrl | src/editor/widgets/github_gist/index.tsx:49-63 | one `setAttributes` call for an accepted URL, none for a URL that does not parse or has another host |
| GitHubGist.GistWidget.OnChange | src/editor/widgets/github_gist/index.tsx:95 | the buffer holds the typed text |
| GitHubGist.GistWidget.OnKeyUp | src/editor/widgets/github_gist/index.tsx:97-101 | key code 13 submits the buffered text; any other key changes nothing |
| GitHubGist.GistWidget.ClickDelete | src/editor/widgets/github_gist/index.tsx:71-105 | a delete control calls `removeSelf` once |
| GitHubGist.TypeAndSubmit | src/editor/widgets/github_gist/index.tsx:95-101 | typing then pressing a key hands the host the accepted URL's attributes exactly when the key is Enter and the URL is accepted, and makes no other call; the buffer holds the typed text |
| WidgetPanel.Widget.constructor | src/editor/widgets/widget/WidgetTopPanel.tsx:97-101 | the widget record holds its fields as given |
| WidgetPanel.SourceLinkTarget | src/editor/widgets/widget/WidgetTopPanel.tsx:250-259 | a source under the origin navigates in-app to the source minus the origin; any other source opens externally |
| WidgetPanel.SourceLinkRoundTrip | src/editor/widgets/widget/WidgetTopPanel.tsx:252-254 | a link built as origin + path navigates in-app to exactly that path |
| WidgetPanel.VisibleControls | src/editor/widgets/widget/WidgetTopPanel.tsx:246-295 | the source link shows exactly for a non-empty source; Edit and Delete show exactly outside preview for a viewer who can configure |
| WidgetPanel.PreviewIsReadOnly | src/editor/widgets/widget/WidgetTopPanel.tsx:280-295 | a preview never offers Edit or Delete |
| WidgetPanel.TopPanel.constructor | src/editor/widgets/widget/WidgetTopPanel.tsx:107-123 | the dialog is closed, there is no editor, the source buffer is "" and nothing has been dispatched |
| WidgetPanel.TopPanel.DeleteWidget | src/editor/widgets/widget/WidgetTopPanel.tsx:125-131 | a delete request is dispatched exactly for a widget with an id |
| WidgetPanel.TopPanel.UpdateWidget | src/editor/widgets/widget/WidgetTopPanel.tsx:133-146 | with an editor and a widget, the update is dispatched and the widget gets the editor's text (or its old description when that is empty) and the buffered source at once; otherwise nothing is dispatched and the widget is unchanged; the dialog always closes and its sub-editor and textarea are gone |
| WidgetPanel.TopPanel.UpdateSettled | src/editor/widgets/widget/WidgetTopPanel.tsx:118-121 | the update's outcome is recorded and nothing else changes, so there is no rollback |
| WidgetPanel.TopPanel.CloseEditDialog | src/editor/widgets/widget/WidgetTopPanel.tsx:148-153 | the source buffer returns to the widget's source and the dialog closes, dropping its sub-editor and textarea; the widget is unchanged |
| WidgetPanel.TopPanel.OpenEditDialog | src/editor/widgets/widget/WidgetTopPanel.tsx:280-286 | the visible Edit control opens the dialog |
| WidgetPanel.TopPanel.EditSource | src/editor/widgets/widget/WidgetTopPanel.tsx:299-304 | the source buffer holds the typed text |
| WidgetPanel.TopPanel.AttachTextArea | src/editor/widgets/widget/WidgetTopPanel.tsx:189-208 | the sub-editor is seeded with the widget's description |
| WidgetPanel.TopPanel.TypeInEditor | src/editor/widgets/widget/WidgetTopPanel.tsx:135 | the sub-editor's text is the typed text |
| WidgetPanel.TopPanel.EditorCleanup | src/editor/widgets/widget/WidgetTopPanel.tsx:210-213 | the sub-editor and the textarea are dropped |
| WidgetPanel.TopPanel.SetWidget | src/editor/widgets/widget/WidgetTopPanel.tsx:189-233 | a new widget prop drops the sub-editor and resets the source buffer to the new widget's source, or "" without one |
| WidgetPanel.TopPanel.SourceSyncEffect | src/editor/widgets/widget/WidgetTopPanel.tsx:227-233 | the source buffer equals the widget's source, or "" without a widget |
| WidgetPanel.TopPanel.DeleteSettled | src/editor/widgets/widget/WidgetTopPanel.tsx:114-117 | the delete mutation's result is recorded |
| WidgetPanel.TopPanel.DeleteEffect | src/editor/widgets/widget/WidgetTopPanel.tsx:156-181 | an error or a `false` result raises exactly one notification and no removal; a `true` result clears the data and calls `removeSelf` if given; no id or no result changes nothing |
| WidgetPanel.TopPanel.AttachPreview | src/editor/widgets/widget/WidgetTopPanel.tsx:237-243 | the preview element is attached |
| WidgetPanel.TopPanel.PreviewEffect | src/editor/widgets/widget/WidgetTopPanel.tsx:183-187 | the preview renders the widget's current description once a preview element exists |
| WidgetPanel.TopPanel.FollowSourceLink | src/editor/widgets/widget/WidgetTopPanel.tsx:248-259 | following the visible source link records the navigation `SourceLinkTarget` chooses |
| WidgetPanel.EditSaveAndFail | src/editor/widgets/widget/WidgetTopPanel.tsx:133-187 | edit, save and a failed update: the widget keeps the new source and description, the preview shows the new description, and cancelling shows the saved source |
| WidgetPanel.DeleteConfirmedOnce | src/editor/widgets/widget/WidgetTopPanel.tsx:125-181 | a confirmed delete calls `removeSelf` once, even when the effect runs again |

## Left out

- The widget attribute codec, the widget registry and marker splicing belong to
  the `vickymd` editor package, which is not part of this model. `setAttributes`
  and `removeSelf` are recorded calls, and the props of a Gist widget do not
  change when it calls `setAttributes`.
- The GraphQL queries and mutations are network I/O. A mutation is a
  dispatched request; its outcome is an event (`DeleteSettled`, `UpdateSettled`).
- Side effects of the widget top panel are logged as events rather than
  performed: its failed-delete Noty notification (`TopPanel.notifications`)
  and the two navigations of its source link, `browserHistory.push` and
  `window.open` (`TopPanel.navigations`). The settings panel's other Noty
  notifications and the `window.location.reload` of its GitHub-unlink flow
  belong to the avatar upload and account flows, which are not modelled.
- Editor construction (`VickyMD.fromTextArea` and the editor options),
  `renderPreview` and the Markdown preview element, the editor `setTheme` call
  in the panel, `ThemeProvider` and `ReactDOM.render` in
  `GitHubGistWidgetCreator` are foreign DOM and editor libraries. The sub-editor
  is its text; a preview is the description handed over.
- The theme manager's internals and `i18n.changeLanguage` are not part of this
  model. The manager is `getTheme` and `selectTheme`, given to the container;
  language changes are recorded.
- The WHATWG URL parser is not re-implemented. It is a function given to the
  widget. `Consistent` states how the parts of a URL relate when its scheme is
  http, https, ws, wss or ftp, it has no user name or password, and it has no
  bare `?` or `#`. `GistAttributesDropQueryAndFragment` assumes it. Other URLs
  on the gist host are accepted too:
  - a user name and password in the URL are dropped silently, because
    origin + pathname leaves them out;
  - a URL with a non-special scheme (such as `git:`) has the opaque origin
    "null", so its `url` attribute becomes "null" followed by the path
    (`OpaqueOriginAccepted`);
  - a `file:` URL such as `file://gist.github.com/abc` has an origin the
    browser chooses (usually "null"), and `url` becomes that origin followed by
    the path;
  - a bare `?` or `#` is dropped like any query or fragment.
- Identicon and sha256 avatars, the owner avatar and its tooltip (`Widget.ownerName` stands for the owner's user name and is not read), the avatar upload and all JSX
  layout and styling have no logic to state.
- src/components/DeleteDialog.tsx only wires two buttons and is not modelled.
- Async ordering and races between in-flight mutations are not modelled: each
  outcome arrives as one event.
- React details are not modelled: the re-invocation of inline `ref` callbacks
  on every render, effect scheduling order, the effects' dependency lists
  (effects are methods that the caller invokes) and the re-render after
  `forceUpdate` (`PreviewEffect` is called explicitly).
- WidgetPanel.TopPanel.DeleteEffect: requires a widget, because the source
  reads `widget.id` without a null check. The whole panel in fact needs a
  widget: `Props` declares it non-null and the render reads it unguarded, so
  the null-widget branches of `SetWidget`, `AttachTextArea`,
  `CloseEditDialog`, `UpdateWidget`, `SourceSyncEffect` and `PreviewEffect`
  model the code's own guards for states the panel never reaches.
- RgbaColor.GetRgba: components are unbounded integers, so `parseInt`'s loss of
  precision above 2^53 is not modelled.
- RgbaColor.DecimalRoundTrip: holds for every unbounded integer; JavaScript writes integers from 1e21 on in exponent notation and loses precision above 2^53, which the model does not capture.
- SettingsPanel.PickColor: covers colours with integer components only. The picker's alpha is a fraction in [0, 1], and for a translucent colour the stored string contains a '.', so the picker then shows (51, 51, 51, 1) instead (`FractionalAlphaFallsBack`, `DotFallsBack`).
- RgbaColor.FormatRgba: formats integer components only. The picker's
  fractional alpha (JavaScript number formatting) is covered only through
  `DotFallsBack`.
- `\s` is taken as ECMAScript WhiteSpace and LineTerminator with the Unicode
  space separators listed explicitly, without the `u` flag.
