/**
 * The settings record kept in `config.json`. The file holds a JSON object
 * whose four keys may each be missing (a hand-edited or older file), so each
 * field is optional; readers apply their own defaults with `.get(key, default)`.
 * A settings update is an object of the same shape, and `dict.update` is
 * `Merge` below.
 */
module Settings {
  import opened Wrappers
  import Text

  datatype Config = Config(
    assignments: Option<map<string, string>>,
    appearanceMode: Option<string>,
    startWithWindows: Option<bool>,
    startMinimized: Option<bool>)

  /** The record used when no file exists. */
  function Defaults(): Config
  {
    Config(Some(map[]), Some("dark"), Some(false), Some(false))
  }

  /** `load_config`: the stored record when the file exists (`stored` is its content),
      otherwise the defaults: no assignments, dark appearance, no auto-start, not minimized. */
  function LoadConfig(stored: Option<Config>): (c: Config)
    ensures stored.Some? ==> c == stored.value
    ensures stored.None? ==>
      && c.assignments == Some(map[])
      && c.appearanceMode == Some("dark")
      && c.startWithWindows == Some(false)
      && c.startMinimized == Some(false)
  {
    if stored.None? then Defaults() else stored.value
  }

  /** An object with no keys, which Python treats as false in `if new_config:`. */
  predicate IsEmpty(c: Config)
  {
    c.assignments.None? && c.appearanceMode.None? && c.startWithWindows.None? && c.startMinimized.None?
  }

  function Pick<T>(base: Option<T>, upd: Option<T>): Option<T>
  {
    if upd.Some? then upd else base
  }

  /** `base.update(upd)`: every key present in `upd` takes `upd`'s value, every other key keeps `base`'s. */
  function Merge(base: Config, upd: Config): (r: Config)
    ensures upd.assignments.Some? ==> r.assignments == upd.assignments
    ensures upd.assignments.None? ==> r.assignments == base.assignments
    ensures upd.appearanceMode.Some? ==> r.appearanceMode == upd.appearanceMode
    ensures upd.appearanceMode.None? ==> r.appearanceMode == base.appearanceMode
    ensures upd.startWithWindows.Some? ==> r.startWithWindows == upd.startWithWindows
    ensures upd.startWithWindows.None? ==> r.startWithWindows == base.startWithWindows
    ensures upd.startMinimized.Some? ==> r.startMinimized == upd.startMinimized
    ensures upd.startMinimized.None? ==> r.startMinimized == base.startMinimized
  {
    Config(
      Pick(base.assignments, upd.assignments),
      Pick(base.appearanceMode, upd.appearanceMode),
      Pick(base.startWithWindows, upd.startWithWindows),
      Pick(base.startMinimized, upd.startMinimized))
  }

  /** Updating with an empty object, or a record with itself (what the settings page does,
      since it passes the very record it edits), changes nothing; a second identical update
      changes nothing more. */
  lemma MergeLaws(base: Config, upd: Config)
    ensures IsEmpty(upd) ==> Merge(base, upd) == base
    ensures Merge(base, base) == base
    ensures Merge(Merge(base, upd), upd) == Merge(base, upd)
  {
  }

  /** The values offered by the appearance option menu. */
  function AppearanceChoices(): seq<string>
  {
    ["Light", "Dark", "System"]
  }

  /** The mode stored for a menu choice, `value.lower()`. */
  function StoredMode(choice: string): (m: string)
    ensures |m| == |choice|
    ensures forall i :: 0 <= i < |m| ==> !Text.IsUpper(m[i])
    ensures forall i :: 0 <= i < |m| ==> Text.LowerChar(m[i]) == Text.LowerChar(choice[i])
  {
    Text.Lower(choice)
  }

  /** The menu text shown for a stored mode, `mode.capitalize()`, with "Dark" when the key is missing. */
  function MenuText(mode: Option<string>): string
  {
    Text.Capitalize(mode.GetOr("Dark"))
  }

  /** The three menu choices are stored as "light", "dark" and "system". */
  lemma StoredChoices()
    ensures StoredMode("Light") == "light"
    ensures StoredMode("Dark") == "dark"
    ensures StoredMode("System") == "system"
  {
    assert Text.Lower("Light") == "light";
    assert Text.Lower("Dark") == "dark";
    assert Text.Lower("System") == "system";
  }

  /** Storing a menu choice and reading it back shows the same choice again; the three
      choices are stored as "light", "dark" and "system". */
  lemma AppearanceRoundTrip(choice: string)
    requires choice in AppearanceChoices()
    ensures MenuText(Some(StoredMode(choice))) == choice
    ensures StoredMode(choice) in ["light", "dark", "system"]
  {
    Text.CapitalizeLower(choice);
    StoredChoices();
  }

  /** With no settings file the menu shows "Dark", as it does for the default record. */
  lemma DefaultMenuText()
    ensures MenuText(LoadConfig(None).appearanceMode) == "Dark"
    ensures MenuText(None) == "Dark"
  {
    assert Text.Lower("ark") == "ark";
    assert Text.Capitalize("dark")[1..] == "ark";
  }
}
