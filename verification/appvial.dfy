/**
 * The application's state and the operations the user interface triggers:
 * the launcher grid page (`LaunchGridPage`), the program picker
 * (`ProgramSelectionWindow`), the settings page (`ConfigPage`) and the main
 * window (`App`), which owns the key assignments, the pending key and the
 * settings record. Widgets are not modelled; what they display is kept as
 * plain fields (button captions, icons, listbox rows, checkbox values).
 * The settings file is the field `App.configFile`; icon extraction, which
 * goes through the Windows shell, is the function `extractIcon`.
 */
module Appvial {
  import opened Wrappers
  import opened Settings
  import Keys
  import Paths
  import Programs
  import Sorting

  /** An icon image obtained from the Windows shell for a program path. */
  datatype Icon = Icon(handle: nat)

  /** The icon a freshly built button shows for `key`: the icon extracted from its program,
      when it has a non-empty path and the extraction succeeds. */
  function ShownIcon(assignments: map<string, string>, key: string, extract: string -> Option<Icon>): Option<Icon>
  {
    var path := Lookup(assignments, key);
    if path.Some? && path.value != "" then extract(path.value) else None
  }

  /** The icon cache after the button for `key` was created: a path not yet cached is added
      when its extraction succeeds. */
  function CacheAfter(cache: map<string, Icon>, m: map<string, string>, key: string, extract: string -> Option<Icon>): map<string, Icon>
  {
    var path := Lookup(m, key);
    if path.Some? && path.value != "" && path.value !in cache && extract(path.value).Some?
    then cache[path.value := extract(path.value).value]
    else cache
  }

  /** The icons shown after the button for `key` was created. */
  function IconsAfter(icons: map<string, Icon>, m: map<string, string>, key: string, extract: string -> Option<Icon>): map<string, Icon>
  {
    var shown := ShownIcon(m, key, extract);
    if shown.Some? then icons[key := shown.value] else icons
  }

  /** The cache holds only successful extractions of assigned paths, each under its own path. */
  ghost predicate CacheSound(m: map<string, string>, extract: string -> Option<Icon>, cache: map<string, Icon>)
  {
    forall p :: p in cache ==> extract(p) == Some(cache[p]) && p in m.Values
  }

  /** Exactly the first `n` labels have buttons, each captioned after its program in `m`. */
  ghost predicate ButtonsBuilt(n: nat, m: map<string, string>, buttons: map<string, string>)
    requires n <= 12
  {
    && (forall i :: 0 <= i < n ==>
          Keys.KeyLabels()[i] in buttons && buttons[Keys.KeyLabels()[i]] == Paths.ButtonText(Lookup(m, Keys.KeyLabels()[i])))
    && (forall k :: k in buttons ==> k in Keys.KeyLabels()[..n])
  }

  /** Among the first `n` labels, those whose program has an icon show it; no other key has one. */
  ghost predicate IconsBuilt(n: nat, m: map<string, string>, extract: string -> Option<Icon>, icons: map<string, Icon>)
    requires n <= 12
  {
    && (forall i :: 0 <= i < n ==> (Keys.KeyLabels()[i] in icons <==> ShownIcon(m, Keys.KeyLabels()[i], extract).Some?))
    && (forall k :: k in icons ==> k in Keys.KeyLabels()[..n] && Some(icons[k]) == ShownIcon(m, k, extract))
  }

  /** The first `n` cells in row-major order hold their labels; no other cell is filled. */
  ghost predicate CellsBuilt(n: nat, cells: map<(nat, nat), string>)
  {
    && (forall r: nat, c: nat :: r < Keys.Rows && c < Keys.Cols && Keys.CellIndex(r, c) < n ==>
          (r, c) in cells && cells[(r, c)] == Keys.CellLabel(r, c))
    && (forall rc :: rc in cells ==> rc.0 < Keys.Rows && rc.1 < Keys.Cols && Keys.CellIndex(rc.0, rc.1) < n)
  }

  /** The state of a grid whose first `n` buttons, in row-major order, were built from `m`. */
  ghost predicate GridBuilt(n: nat, m: map<string, string>, extract: string -> Option<Icon>,
                            cache: map<string, Icon>, buttons: map<string, string>,
                            icons: map<string, Icon>, cells: map<(nat, nat), string>)
  {
    && n <= 12
    && CacheSound(m, extract, cache)
    && ButtonsBuilt(n, m, buttons)
    && IconsBuilt(n, m, extract, icons)
    && CellsBuilt(n, cells)
  }

  /** The `n`-th label differs from every earlier one. */
  lemma NextLabelIsNew(n: nat)
    requires n < 12
    ensures Keys.KeyLabels()[..n + 1] == Keys.KeyLabels()[..n] + [Keys.KeyLabels()[n]]
    ensures Keys.KeyLabels()[n] !in Keys.KeyLabels()[..n]
  {
    Keys.KeyLabelsDistinct();
    var key := Keys.KeyLabels()[n];
    assert Keys.KeyLabels()[..n + 1] == Keys.KeyLabels()[..n] + [key];
  }

  lemma CacheStep(m: map<string, string>, key: string, extract: string -> Option<Icon>, cache: map<string, Icon>)
    requires CacheSound(m, extract, cache)
    ensures CacheSound(m, extract, CacheAfter(cache, m, key, extract))
  {
  }

  lemma ButtonsStep(n: nat, m: map<string, string>, buttons: map<string, string>)
    requires n < 12 && ButtonsBuilt(n, m, buttons)
    ensures var key := Keys.KeyLabels()[n];
      ButtonsBuilt(n + 1, m, buttons[key := Paths.ButtonText(Lookup(m, key))])
  {
    NextLabelIsNew(n);
  }

  lemma IconsStep(n: nat, m: map<string, string>, extract: string -> Option<Icon>, icons: map<string, Icon>)
    requires n < 12 && IconsBuilt(n, m, extract, icons)
    ensures IconsBuilt(n + 1, m, extract, IconsAfter(icons, m, Keys.KeyLabels()[n], extract))
  {
    NextLabelIsNew(n);
  }

  lemma CellsStep(n: nat, r: nat, c: nat, cells: map<(nat, nat), string>)
    requires r < Keys.Rows && c < Keys.Cols && n == Keys.CellIndex(r, c)
    requires CellsBuilt(n, cells)
    ensures CellsBuilt(n + 1, cells[(r, c) := Keys.KeyLabels()[n]])
  {
  }

  /** Creating the button of the next cell extends a grid built up to that cell by one step. */
  lemma GridStep(n: nat, r: nat, c: nat, m: map<string, string>, extract: string -> Option<Icon>,
                 cache: map<string, Icon>, buttons: map<string, string>,
                 icons: map<string, Icon>, cells: map<(nat, nat), string>)
    requires r < Keys.Rows && c < Keys.Cols && n == Keys.CellIndex(r, c)
    requires GridBuilt(n, m, extract, cache, buttons, icons, cells)
    ensures var key := Keys.KeyLabels()[n];
      GridBuilt(n + 1, m, extract, CacheAfter(cache, m, key, extract),
                buttons[key := Paths.ButtonText(Lookup(m, key))],
                IconsAfter(icons, m, key, extract), cells[(r, c) := key])
  {
    var key := Keys.KeyLabels()[n];
    CacheStep(m, key, extract, cache);
    ButtonsStep(n, m, buttons);
    IconsStep(n, m, extract, icons);
    CellsStep(n, r, c, cells);
  }

  /** A complete grid for `m`: exactly the labels have buttons, exactly the labels whose program's
      icon can be extracted show it, and the cells hold the labels in row-major order. */
  ghost predicate GridComplete(m: map<string, string>, extract: string -> Option<Icon>,
                               buttons: map<string, string>, icons: map<string, Icon>,
                               cells: map<(nat, nat), string>)
  {
    && (forall k :: k in buttons <==> k in Keys.KeyLabels())
    && (forall k :: k in Keys.KeyLabels() ==> (k in icons <==> ShownIcon(m, k, extract).Some?))
    && (forall k :: k in icons ==> k in Keys.KeyLabels() && Some(icons[k]) == ShownIcon(m, k, extract))
    && (forall r: nat, c: nat :: r < Keys.Rows && c < Keys.Cols ==> (r, c) in cells && cells[(r, c)] == Keys.CellLabel(r, c))
    && (forall rc :: rc in cells ==> rc.0 < Keys.Rows && rc.1 < Keys.Cols)
  }

  /** A grid built over all twelve cells has every label's button, and nothing else. */
  lemma GridDone(m: map<string, string>, extract: string -> Option<Icon>,
                 cache: map<string, Icon>, buttons: map<string, string>,
                 icons: map<string, Icon>, cells: map<(nat, nat), string>)
    requires GridBuilt(12, m, extract, cache, buttons, icons, cells)
    ensures GridComplete(m, extract, buttons, icons, cells)
    ensures forall k :: k in Keys.KeyLabels() ==> buttons[k] == Paths.ButtonText(Lookup(m, k))
  {
    assert Keys.KeyLabels()[..12] == Keys.KeyLabels();
    Keys.KeyLabelsDistinct();
    forall k | k in Keys.KeyLabels() ensures k in buttons && buttons[k] == Paths.ButtonText(Lookup(m, k)) {
      var i :| 0 <= i < 12 && Keys.KeyLabels()[i] == k;
    }
  }

  /** The grid of twelve launcher buttons, one per key label. */
  class LaunchGridPage {
    const extractIcon: string -> Option<Icon>
    /** Cache of extracted icons, keyed by program path. */
    var iconImages: map<string, Icon>
    /** Caption of each key's button. */
    var buttons: map<string, string>
    /** Icon shown above each key's button, for the keys that have one. */
    var icons: map<string, Icon>
    /** The key whose button sits in each (row, column) cell. */
    var cells: map<(nat, nat), string>

    /** The cache holds only successful extractions, each under the path it was extracted from. */
    ghost predicate Valid()
      reads this
    {
      forall p :: p in iconImages ==> extractIcon(p) == Some(iconImages[p])
    }

    /** Every key label has a button captioned after its program in `m`. */
    ghost predicate Shows(m: map<string, string>)
      reads this
    {
      forall k :: k in Keys.KeyLabels() ==> k in buttons && buttons[k] == Paths.ButtonText(Lookup(m, k))
    }

    /** The grid as built from `m`: exactly the labels have buttons, exactly the labels whose
        program's icon can be extracted show it, and the cells hold the labels in row-major order. */
    ghost predicate BuiltFrom(m: map<string, string>)
      reads this
    {
      GridComplete(m, extractIcon, buttons, icons, cells)
    }

    /** What the first `n` steps of the row-major walk over the grid have built from `m`. */
    ghost predicate BuiltUpTo(n: nat, m: map<string, string>)
      reads this
    {
      GridBuilt(n, m, extractIcon, iconImages, buttons, icons, cells)
    }

    /** Builds the grid from `programAssignments`, walking the 2 x 6 cells row by row. */
    constructor (programAssignments: map<string, string>, extract: string -> Option<Icon>)
      ensures Valid() && extractIcon == extract
      ensures Shows(programAssignments) && BuiltFrom(programAssignments)
      ensures forall p :: p in iconImages ==> p in programAssignments.Values
    {
      extractIcon := extract;
      iconImages, buttons, icons, cells := map[], map[], map[], map[];
      new;
      var index := 0;
      for r := 0 to Keys.Rows
        invariant index == r * Keys.Cols
        invariant BuiltUpTo(index, programAssignments)
      {
        for c := 0 to Keys.Cols
          invariant index == r * Keys.Cols + c
          invariant BuiltUpTo(index, programAssignments)
        {
          var key := Keys.KeyLabels()[index];
          GridStep(index, r, c, programAssignments, extractIcon, iconImages, buttons, icons, cells);
          CreateButton(r, c, key, programAssignments);
          index := index + 1;
        }
      }
      GridDone(programAssignments, extractIcon, iconImages, buttons, icons, cells);
    }

    /** Adds the button for `key` in cell (row, col): its caption, and its icon, taken from the
        cache or extracted and then cached when extraction succeeds. */
    method CreateButton(row: nat, col: nat, key: string, programAssignments: map<string, string>)
      requires Valid()
      modifies this`iconImages, this`buttons, this`icons, this`cells
      ensures Valid()
      ensures buttons == old(buttons)[key := Paths.ButtonText(Lookup(programAssignments, key))]
      ensures cells == old(cells)[(row, col) := key]
      ensures icons == IconsAfter(old(icons), programAssignments, key, extractIcon)
      ensures iconImages == CacheAfter(old(iconImages), programAssignments, key, extractIcon)
    {
      var programPath := Lookup(programAssignments, key);
      var iconImg: Option<Icon> := None;
      if programPath.Some? && programPath.value != "" {
        iconImg := Lookup(iconImages, programPath.value);
        if iconImg.None? {
          iconImg := extractIcon(programPath.value);
          if iconImg.Some? {
            iconImages := iconImages[programPath.value := iconImg.value];
          }
        }
      }
      if iconImg.Some? {
        icons := icons[key := iconImg.value];
      }
      buttons := buttons[key := Paths.ButtonText(programPath)];
      cells := cells[(row, col) := key];
    }

    /** Re-captions the button of `key` after `path` was assigned to it; the icon is left as it was. */
    method UpdateButtonName(key: string, path: string)
      modifies this`buttons
      ensures buttons == if key in old(buttons) then old(buttons)[key := Paths.BeforeDot(Paths.Basename(path))] else old(buttons)
    {
      if key in buttons {
        buttons := buttons[key := Paths.BeforeDot(Paths.Basename(path))];
      }
    }
  }

  /** The modal program picker: the discovered programs, the rows currently listed, and
      the callback `app.AssignProgramToButton` for the row double-clicked. */
  class ProgramSelectionWindow {
    const app: App
    const allPrograms: seq<string>
    /** The full paths of the listed rows. */
    var programPaths: seq<string>
    /** The text of the listed rows. */
    var listbox: seq<string>

    /** Each listbox row shows the file name of the path behind it. */
    ghost predicate Valid()
      reads this
    {
      |listbox| == |programPaths| && forall i :: 0 <= i < |listbox| ==> listbox[i] == Paths.Basename(programPaths[i])
    }

    /** Opens with every discovered program listed (the search box starts empty). */
    constructor (app: App, dirs: seq<Programs.WalkDir>)
      ensures Valid() && this.app == app
      ensures allPrograms == Sorting.SortStrings(Programs.WalkPrograms(dirs))
      ensures programPaths == allPrograms
    {
      this.app := app;
      var programs := Programs.GetPrograms(dirs);
      allPrograms := programs;
      programPaths, listbox := [], [];
      new;
      UpdateList("");
      Programs.FilterEmptyQuery(allPrograms);
    }

    /** Lists the programs whose file name contains the search text, ignoring case. */
    method UpdateList(search: string)
      modifies this`programPaths, this`listbox
      ensures Valid()
      ensures programPaths == Programs.FilterPrograms(allPrograms, search)
    {
      var filtered := Programs.FilterPrograms(allPrograms, search);
      listbox := [];
      for i := 0 to |filtered|
        invariant |listbox| == i
        invariant forall j :: 0 <= j < i ==> listbox[j] == Paths.Basename(filtered[j])
      {
        listbox := listbox + [Paths.Basename(filtered[i])];
      }
      programPaths := filtered;
    }

    /** Hands the path of the first selected row to the main window; does nothing without a selection. */
    method OnDoubleClick(selection: seq<nat>) returns (picked: Option<string>)
      requires Valid() && app.Valid()
      requires forall k :: 0 <= k < |selection| ==> selection[k] < |listbox|
      modifies app, app.launcherPage`buttons
      ensures app.Valid() && app.launcherPage == old(app.launcherPage)
      ensures app.launcherPage.buttons.Keys == old(app.launcherPage.buttons.Keys)
      ensures picked == Programs.SelectedPath(programPaths, selection)
      ensures picked.None? ==> unchanged(app) && unchanged(app.launcherPage)
      ensures picked.Some? && old(app.selectedKey).Some? && old(app.selectedKey).value != "" ==>
        && app.programAssignments == old(app.programAssignments)[old(app.selectedKey).value := picked.value]
        && app.selectedKey == None
        && app.configData == old(app.configData).(assignments := Some(app.programAssignments))
        && app.configFile == Some(app.configData)
        && app.launcherPage.icons == old(app.launcherPage.icons)
      ensures picked.Some? && !(old(app.selectedKey).Some? && old(app.selectedKey).value != "") ==>
        unchanged(app) && unchanged(app.launcherPage)
    {
      picked := Programs.SelectedPath(programPaths, selection);
      if picked.Some? {
        app.AssignProgramToButton(picked.value);
      }
    }
  }

  /** The settings page. Its record is the very object `app.configData` (edits through the page are
      edits of the application's record) and its save callback is `app.SaveConfig`. */
  class ConfigPage {
    const app: App
    /** The "start with Windows" checkbox. */
    var startVar: bool
    /** The "start minimized to the tray" checkbox. */
    var minimizedVar: bool
    /** The text shown by the appearance menu. */
    var appearanceOption: string

    /** The controls start from the record, with the record's missing keys read as off, off and "Dark". */
    constructor (app: App)
      ensures this.app == app
      ensures startVar == app.configData.startWithWindows.GetOr(false)
      ensures minimizedVar == app.configData.startMinimized.GetOr(false)
      ensures appearanceOption == MenuText(app.configData.appearanceMode)
    {
      this.app := app;
      startVar := app.configData.startWithWindows.GetOr(false);
      minimizedVar := app.configData.startMinimized.GetOr(false);
      appearanceOption := MenuText(app.configData.appearanceMode);
    }

    /** Writes both checkbox values into the record and saves it. */
    method UpdateSettings()
      requires app.Valid()
      modifies app`configData, app`configFile
      ensures app.Valid()
      ensures app.configData == old(app.configData).(
        startWithWindows := Some(startVar), startMinimized := Some(minimizedVar),
        assignments := Some(app.programAssignments))
      ensures app.configFile == Some(app.configData)
    {
      app.configData := app.configData.(startWithWindows := Some(startVar));
      app.configData := app.configData.(startMinimized := Some(minimizedVar));
      MergeLaws(app.configData, app.configData);
      app.SaveConfig(Some(app.configData));
    }

    /** The user picked `value` in the appearance menu: the record stores it lower-cased, then the
        checkbox values are written and the record saved. */
    method ChangeAppearance(value: string)
      requires app.Valid()
      modifies this`appearanceOption, app`configData, app`configFile
      ensures app.Valid()
      ensures appearanceOption == value
      ensures app.configData == old(app.configData).(
        appearanceMode := Some(StoredMode(value)),
        startWithWindows := Some(startVar), startMinimized := Some(minimizedVar),
        assignments := Some(app.programAssignments))
      ensures app.configFile == Some(app.configData)
    {
      appearanceOption := value;
      app.configData := app.configData.(appearanceMode := Some(StoredMode(value)));
      UpdateSettings();
    }

    /** The user ticked or cleared "start with Windows". */
    method ToggleStartWithWindows(checked: bool)
      requires app.Valid()
      modifies this`startVar, app`configData, app`configFile
      ensures app.Valid() && startVar == checked
      ensures app.configData == old(app.configData).(
        startWithWindows := Some(checked), startMinimized := Some(minimizedVar),
        assignments := Some(app.programAssignments))
      ensures app.configFile == Some(app.configData)
    {
      startVar := checked;
      UpdateSettings();
    }

    /** The user ticked or cleared "start minimized to the tray". */
    method ToggleStartMinimized(checked: bool)
      requires app.Valid()
      modifies this`minimizedVar, app`configData, app`configFile
      ensures app.Valid() && minimizedVar == checked
      ensures app.configData == old(app.configData).(
        startWithWindows := Some(startVar), startMinimized := Some(checked),
        assignments := Some(app.programAssignments))
      ensures app.configFile == Some(app.configData)
    {
      minimizedVar := checked;
      UpdateSettings();
    }
  }

  /** The main window: the settings record, the key assignments, the key waiting for a program,
      the launcher grid, and the content of the settings file. */
  class App {
    const extractIcon: string -> Option<Icon>
    var configData: Config
    var programAssignments: map<string, string>
    var selectedKey: Option<string>
    var launcherPage: LaunchGridPage
    /** The content of `config.json`; `None` while no file exists. */
    var configFile: Option<Config>

    /** When the record has an assignments entry it is the very map the application edits
        (present from the start when the file had one, and from the first save on). */
    ghost predicate AssignmentsShared()
      reads this
    {
      configData.assignments.Some? ==> configData.assignments.value == programAssignments
    }

    ghost predicate Valid()
      reads this, launcherPage
    {
      && AssignmentsShared()
      && launcherPage.Valid() && launcherPage.extractIcon == extractIcon
      && launcherPage.Shows(programAssignments)
    }

    /** Starts from the settings file when it exists (`stored`), from the defaults otherwise. */
    constructor (stored: Option<Config>, extract: string -> Option<Icon>)
      ensures Valid() && fresh(launcherPage) && extractIcon == extract
      ensures launcherPage.BuiltFrom(programAssignments)
      ensures configFile == stored
      ensures configData == LoadConfig(stored)
      ensures programAssignments == LoadConfig(stored).assignments.GetOr(map[])
      ensures selectedKey == None
    {
      extractIcon := extract;
      configFile := stored;
      configData := LoadConfig(stored);
      programAssignments := LoadConfig(stored).assignments.GetOr(map[]);
      launcherPage := new LaunchGridPage(LoadConfig(stored).assignments.GetOr(map[]), extract);
      selectedKey := None;
    }

    /** The appearance mode applied at start-up: the stored mode, "dark" when none is stored. */
    function StartAppearance(): (mode: string)
      reads this
      ensures configData.appearanceMode.Some? ==> mode == configData.appearanceMode.value
      ensures configData.appearanceMode.None? ==> mode == "dark"
    {
      configData.appearanceMode.GetOr("dark")
    }

    /** Whether the window goes to the tray right after start-up: only when the record
        says so explicitly. */
    function StartsHidden(): (hidden: bool)
      reads this
      ensures hidden <==> configData.startMinimized == Some(true)
    {
      configData.startMinimized.GetOr(false)
    }

    /** The user clicked the button of `key`: it becomes the key waiting for a program,
        and the picker opens over the programs found by the walk `dirs`. */
    method OpenProgramWindow(key: string, dirs: seq<Programs.WalkDir>) returns (w: ProgramSelectionWindow)
      modifies this`selectedKey
      ensures selectedKey == Some(key)
      ensures fresh(w) && w.Valid() && w.app == this
      ensures w.allPrograms == Sorting.SortStrings(Programs.WalkPrograms(dirs))
      ensures w.programPaths == w.allPrograms
    {
      selectedKey := Some(key);
      w := new ProgramSelectionWindow(this, dirs);
    }

    /** The picker chose `path`: with a key waiting, that key is assigned `path` (replacing any
        earlier program), its button re-captioned, the waiting key cleared and the record saved.
        With no key waiting nothing happens. */
    method AssignProgramToButton(path: string)
      requires Valid()
      modifies this, launcherPage`buttons
      ensures Valid()
      ensures launcherPage == old(launcherPage)
      ensures launcherPage.buttons.Keys == old(launcherPage.buttons.Keys)
      ensures old(selectedKey).Some? && old(selectedKey).value != "" ==>
        && programAssignments == old(programAssignments)[old(selectedKey).value := path]
        && selectedKey == None
        && configData == old(configData).(assignments := Some(programAssignments))
        && configFile == Some(configData)
        && launcherPage.icons == old(launcherPage.icons)
        && launcherPage.iconImages == old(launcherPage.iconImages)
      ensures !(old(selectedKey).Some? && old(selectedKey).value != "") ==>
        unchanged(this) && unchanged(launcherPage)
    {
      if selectedKey.Some? && selectedKey.value != "" {
        var key := selectedKey.value;
        programAssignments := programAssignments[key := path];
        if configData.assignments.Some? {
          configData := configData.(assignments := Some(programAssignments));
        }
        launcherPage.UpdateButtonName(key, path);
        Paths.RenamedCaption(path);
        selectedKey := None;
        SaveConfig(None);
      }
    }

    /** Removes the program of `key` (nothing to do when it has none) and rebuilds the grid.
        The settings file is not written. */
    method UnassignProgram(key: string)
      requires Valid()
      modifies this
      ensures Valid()
      ensures programAssignments == old(programAssignments) - {key}
      ensures selectedKey == old(selectedKey)
      ensures configFile == old(configFile)
      ensures configData == if old(configData).assignments.Some? then old(configData).(assignments := Some(programAssignments)) else old(configData)
      ensures key in old(programAssignments) ==> fresh(launcherPage) && launcherPage.BuiltFrom(programAssignments)
      ensures key !in old(programAssignments) ==> launcherPage == old(launcherPage)
    {
      if key in programAssignments {
        programAssignments := programAssignments - {key};
        if configData.assignments.Some? {
          configData := configData.(assignments := Some(programAssignments));
        }
        Refresh();
      }
    }

    /** Replaces the grid with one built from the current assignments. */
    method Refresh()
      requires AssignmentsShared()
      modifies this`launcherPage
      ensures Valid() && fresh(launcherPage) && launcherPage.BuiltFrom(programAssignments)
    {
      launcherPage := new LaunchGridPage(programAssignments, extractIcon);
    }

    /** Applies the update `newConfig` (skipped when it is `None` or has no keys), puts the current
        assignments into the record and writes the whole record to the settings file. */
    method SaveConfig(newConfig: Option<Config>)
      requires Valid()
      modifies this`configData, this`configFile
      ensures Valid()
      ensures configData == (if newConfig.Some? && !IsEmpty(newConfig.value) then Merge(old(configData), newConfig.value)
                             else old(configData)).(assignments := Some(programAssignments))
      ensures configFile == Some(configData)
    {
      if newConfig.Some? && !IsEmpty(newConfig.value) {
        configData := Merge(configData, newConfig.value);
      }
      configData := configData.(assignments := Some(programAssignments));
      configFile := Some(configData);
    }
  }
}
