/** The shortcut properties of `DAOAppAction`: each one reads or assigns one
    field of the nested `themes`, `images` or `strings` object. */
module AppActionShortcuts {
  import opened Values
  import opened AppAction
  import AppActionStrings

  /** `cancelButtonTheme` / `okayButtonTheme` getters. */
  function CancelButtonTheme(a: Action): ButtonStyle { a.themes.cancelButton }
  function OkayButtonTheme(a: Action): ButtonStyle { a.themes.okayButton }

  /** `topImageUrl` getter. */
  function TopImageUrl(a: Action): DnsUrl { a.images.topUrl }

  /** The six string getters (`body`, `cancelLabel`, ..., `title`). */
  function Text(a: Action, f: AppActionStrings.Field): DnsString { a.strings.Get(f) }

  /** `cancelButtonTheme` setter: only `themes.cancelButton` changes. */
  function SetCancelButtonTheme(a: Action, v: ButtonStyle): (r: Action)
    ensures CancelButtonTheme(r) == v
    ensures OkayButtonTheme(r) == OkayButtonTheme(a)
    ensures r.(themes := a.themes) == a
    ensures r.themes.(cancelButton := a.themes.cancelButton) == a.themes
  {
    a.(themes := a.themes.(cancelButton := v))
  }

  /** `okayButtonTheme` setter: only `themes.okayButton` changes. */
  function SetOkayButtonTheme(a: Action, v: ButtonStyle): (r: Action)
    ensures OkayButtonTheme(r) == v
    ensures CancelButtonTheme(r) == CancelButtonTheme(a)
    ensures r.(themes := a.themes) == a
    ensures r.themes.(okayButton := a.themes.okayButton) == a.themes
  {
    a.(themes := a.themes.(okayButton := v))
  }

  /** `topImageUrl` setter: only `images.topUrl` changes. */
  function SetTopImageUrl(a: Action, v: DnsUrl): (r: Action)
    ensures TopImageUrl(r) == v
    ensures r.(images := a.images) == a
    ensures r.images.base == a.images.base
  {
    a.(images := a.images.(topUrl := v))
  }

  /** The six string setters: only the named field of `strings` changes. */
  function SetText(a: Action, f: AppActionStrings.Field, v: DnsString): (r: Action)
    ensures Text(r, f) == v
    ensures forall g :: g != f ==> Text(r, g) == Text(a, g)
    ensures r.(strings := a.strings) == a
    ensures r.strings.base == a.strings.base
  {
    a.(strings := a.strings.Set(f, v))
  }

  /** Assigning the value a shortcut already holds changes nothing. */
  lemma SetCurrentValueIsIdentity(a: Action, f: AppActionStrings.Field)
    ensures SetCancelButtonTheme(a, CancelButtonTheme(a)) == a
    ensures SetOkayButtonTheme(a, OkayButtonTheme(a)) == a
    ensures SetTopImageUrl(a, TopImageUrl(a)) == a
    ensures SetText(a, f, Text(a, f)) == a
  {
    var r := SetText(a, f, Text(a, f));
    AppActionStrings.Extensionality(r.strings, a.strings);
  }
}
