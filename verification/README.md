# APPVIAL key-assignment model

APPVIAL is a Windows desktop launcher: a grid of twelve buttons labelled F13 to F24 (the extra
function keys of a macro pad), each of which can be bound to an installed program. Clicking a
button makes its key the *pending* key and opens a picker listing the `.exe` and `.lnk` files found
under the Start-menu and Program Files directories. The picker has a search box, and a double-click
assigns the chosen program to the pending key. A right-click removes a key's program. A settings page
edits the appearance mode and two start-up flags. The assignments and settings live in one record,
which is saved to `config.json`.

This project models that core in Dafny:

- `keys.dfy` (`Keys`): the label list `KEY_LABELS` and the 2 x 6 row-major grid.
- `paths.dfy` (`Paths`): Windows `basename` and `join`, and the button caption `basename(p).split(".")[0]`.
- `programs.dfy` (`Programs`): `get_programs` over a given directory walk, with its extension
  filter and sort; the picker's case-insensitive search; the pick by listbox row.
- `sorting.dfy` (`Sorting`): Python's `sorted` on strings, by code point.
- `text.dfy` (`Text`): `lower`, `capitalize`, `endswith`, substring `in`, decimal formatting.
- `settings.dfy` (`Settings`): the settings record, the defaults of `load_config`, `dict.update`,
  and the appearance menu's lower-case and capitalise round trip.
- `appvial.dfy` (`Appvial`): the classes `LaunchGridPage`, `ProgramSelectionWindow`, `ConfigPage`
  and `App`. Their fields are the state the program changes in place: the assignment map, the
  pending key, the settings record, the button captions and icons, the icon cache and the listbox
  rows. The field `App.configFile` stands for the content of `config.json`.
- `scenarios.dfy` (`Scenarios`): client methods that drive these classes as the user interface
  does, then restart the application from the file it left.

Behaviour of the code a reader may not expect:

- Unassigning a key does not save the record. The removal is visible in memory at once. It reaches the
  file only with the next save, which is triggered by an assignment or a settings change. A restart
  before that brings the program back (`Scenarios.UnassignNotPersisted`).
- No key is checked against the twelve labels. Keys only come from the grid's buttons.
- The appearance mode is any string the menu passes, lower-cased. It is not checked against an enumeration.
- A settings file may lack any of its four keys. Each reader applies its own default: no
  assignments, `"dark"`, off, off. So the record's fields are optional.
- `program_assignments` is the same dict object as the record's `assignments` entry whenever that entry
  exists. It exists from the start when the file had one, and from the first save on.
  `App.AssignmentsShared` states this.
- The settings page edits the application's own record, not a copy. So `ConfigPage` holds the `App`
  and writes `app.configData`.
- Re-assigning a key re-captions its button but keeps the icon the button showed before. The icon
  changes only when the grid is rebuilt.

## Model

| member | source | states |
|---|---|---|
| `Keys.KeyLabelsAreF13ToF24` | APPVIAL.py:16 | the label list is exactly F13, F14, ..., F24, in this order |
| `Keys.KeyLabelsDistinct` | APPVIAL.py:16 | there are 12 labels, no two equal and none empty |
| `Keys.GridCoversLabels` | APPVIAL.py:112-122 | the row-major index r*6+c of each of the 2 x 6 cells is within the label list; distinct cells get distinct labels; and every label is reached from some cell |
| `Appvial.LaunchGridPage.constructor` | APPVIAL.py:104-122 | after the walk over the grid, cell (r, c) holds label r*6+c and no other cell is filled; exactly the 12 labels have buttons, each captioned after its program; a label shows an icon iff its program's icon can be extracted, and no other key shows one; the cache holds only successful icons of assigned paths |
| `Appvial.LaunchGridPage.CreateButton` | APPVIAL.py:124-150 | adds the key's caption and cell; the icon comes from the cache, or it is extracted and then cached when extraction succeeds; the cache stays sound |
| `Appvial.LaunchGridPage.UpdateButtonName` | APPVIAL.py:152-155 | only an existing button of that key is re-captioned, after the new path |
| `Appvial.GridStep` | APPVIAL.py:117-122 | one step of the walk, creating the next cell's button, extends a grid built up to that cell |
| `Appvial.GridDone` | APPVIAL.py:117-122 | a walk over all 12 cells leaves one button per label and nothing else, each cell holding its label, and icons exactly on the labels whose program's icon can be extracted |
| `Paths.BeforeDot` | APPVIAL.py:142 | `split(".")[0]` is the longest prefix without a `.`, followed by a `.` or by the end |
| `Paths.ButtonTextIsName` | APPVIAL.py:142 | a caption holds no `.` and no separator; it is a prefix of the basename that stops at the basename's first `.`; it equals the basename iff the basename has no `.`; it is empty when no path is assigned |
| `Paths.RenamedCaption` | APPVIAL.py:155 | the caption written on re-assignment equals the caption a rebuilt grid shows for that path |
| `Paths.AfterLastSepIsLastComponent` | APPVIAL.py:142 | the last component is a separator-free suffix, preceded by a separator unless it is the whole string |
| `Paths.BasenameIsSuffix` | APPVIAL.py:183 | a basename holds no separator and is a suffix of the path; a drive prefix is never part of it; unless it is the whole path, it is preceded by a separator or is all that follows the drive prefix |
| `Paths.Join` | APPVIAL.py:50 | the joined path is the directory followed by the name; a `\` is put between them iff the directory is non-empty, does not end in a separator and is not a bare drive |
| `Paths.BasenameOfJoin` | APPVIAL.py:50 | the basename of a joined path is the file name that was joined |
| `Text.Lower` | APPVIAL.py:49 | lower-casing keeps the length, maps each character on its own and leaves no upper-case letter |
| `Text.Capitalize` | APPVIAL.py:232 | the result has the input's length and equals it up to case; its first character is not a lower-case letter and no later one is an upper-case letter |
| `Text.CapitalizeLower` | APPVIAL.py:232-237 | a capitalised word (upper-case initial, no other upper-case letter) comes back unchanged from `lower` followed by `capitalize` |
| `Text.ContainsIff` | APPVIAL.py:183 | Python's `query in name` holds iff the query occurs at some position of the name |
| `Programs.DirProgramsMembers` | APPVIAL.py:48-50 | from one directory, a path is collected iff it joins the directory with a file name ending in `.exe` or `.lnk` (case-insensitively) |
| `Programs.WalkProgramsMembers` | APPVIAL.py:44-50 | over the whole walk, a path is collected iff it comes from such a file of some visited directory |
| `Programs.GetPrograms` | APPVIAL.py:36-51 | the result is sorted, is a permutation of the collected paths, and is the sorted list of them |
| `Programs.ListedProgramsHaveExtension` | APPVIAL.py:49-51 | every program in the result has the `.exe` or `.lnk` extension in its own file name |
| `Sorting.Insert` | APPVIAL.py:51 | inserting into a sorted list keeps it sorted and adds exactly that element |
| `Sorting.SortStrings` | APPVIAL.py:51 | `sorted` returns an ascending permutation of its input |
| `Sorting.SortedUnique` | APPVIAL.py:51 | two ascending lists with the same elements are equal, so the sorted result is determined |
| `Sorting.SortSorted` | APPVIAL.py:51 | sorting an already sorted list returns it unchanged |
| `Programs.FilterSound` | APPVIAL.py:183 | the filtered list is no longer than the full list, and holds only programs of it whose file name contains the query, ignoring case |
| `Programs.FilterKeepsMatches` | APPVIAL.py:183 | every program whose file name contains the query is kept |
| `Programs.FilterAppend` | APPVIAL.py:183 | filtering distributes over concatenation, so the relative order of the programs is kept |
| `Programs.FilterEmptyQuery` | APPVIAL.py:179-183 | an empty search lists every program |
| `Programs.FilterIdempotent` | APPVIAL.py:183 | filtering twice with the same query equals filtering once |
| `Programs.SelectedPath` | APPVIAL.py:189-193 | nothing is picked iff no row is selected; a pick is the listed path of the first selected row |
| `Programs.PickedProgramMatches` | APPVIAL.py:183-194 | a program picked from the filtered list is a discovered program matching the search |
| `Appvial.ProgramSelectionWindow.constructor` | APPVIAL.py:160-179 | the picker starts with the sorted discovered programs, all of them listed |
| `Appvial.ProgramSelectionWindow.UpdateList` | APPVIAL.py:181-187 | the listed paths are the filter of all programs by the search; each row shows its path's file name |
| `Appvial.ProgramSelectionWindow.OnDoubleClick` | APPVIAL.py:189-195 | without a selection nothing changes; otherwise the first selected row's path is passed to `AssignProgramToButton`, with its effects: the pending key gets the path, the record's other fields stay and it is saved; the grid, its set of buttons, its icons and its cells stay, only captions may change |
| `Settings.LoadConfig` | APPVIAL.py:21-30 | with no file, the record has no assignments, appearance "dark" and both flags off; otherwise it is the stored record |
| `Settings.Merge` | APPVIAL.py:319 | `dict.update`: every key present in the update takes its value; every other key keeps its old one |
| `Settings.MergeLaws` | APPVIAL.py:318-319 | an empty update and an update of the record with itself change nothing; repeating an update changes nothing more |
| `Settings.StoredMode` | APPVIAL.py:237 | the stored mode has the choice's length, no upper-case letter, and equals the choice letter by letter up to case |
| `Settings.StoredChoices` | APPVIAL.py:229-237 | the menu choices Light, Dark and System are stored as "light", "dark" and "system" |
| `Settings.AppearanceRoundTrip` | APPVIAL.py:229-237 | for each menu choice, the lower-cased value stored, once capitalised, shows the same choice; the stored values are "light", "dark", "system" |
| `Settings.DefaultMenuText` | APPVIAL.py:232 | with the default record, or with no mode stored, the menu shows "Dark" |
| `Appvial.ConfigPage.constructor` | APPVIAL.py:201-233 | the checkboxes start from the record, off when missing; the menu shows the capitalised mode, "Dark" when missing |
| `Appvial.ConfigPage.UpdateSettings` | APPVIAL.py:240-243 | both checkbox values are written into the application's record, which is then saved with the current assignments |
| `Appvial.ConfigPage.ChangeAppearance` | APPVIAL.py:235-238 | the lower-cased choice is stored, then the settings are written and saved |
| `Appvial.ConfigPage.ToggleStartWithWindows` | APPVIAL.py:214-218 | the new checkbox value is written and the record saved |
| `Appvial.ConfigPage.ToggleStartMinimized` | APPVIAL.py:220-224 | the new checkbox value is written and the record saved |
| `Appvial.App.constructor` | APPVIAL.py:253-279 | the record is loaded (defaults without a file); the assignments are its entry, or empty; no key is pending; the grid is built from them: captions, icons and cell layout |
| `Appvial.App.StartAppearance` | APPVIAL.py:280 | the appearance applied at start-up is the stored mode, "dark" when none is stored |
| `Appvial.App.StartsHidden` | APPVIAL.py:283 | the window goes to the tray at start-up iff the record says `start_minimized` is true |
| `Appvial.App.OpenProgramWindow` | APPVIAL.py:296-298 | the clicked key becomes the pending key, and nothing else changes; the picker lists the sorted discovered programs |
| `Appvial.App.AssignProgramToButton` | APPVIAL.py:300-305 | with a pending key, that key is assigned the path, replacing any earlier one, and other keys keep theirs; the pending key is cleared; the record saved holds the new map; only button captions of the grid may change, its set of buttons, icons, cache and cells stay as they were. Without a pending key nothing changes |
| `Appvial.App.UnassignProgram` | APPVIAL.py:307-310 | the key's entry is removed if present and every other entry is unchanged; the grid is rebuilt from the new map (captions, icons, cells) only when something was removed; the file is not written |
| `Appvial.App.Refresh` | APPVIAL.py:312-315 | a new grid is built from the current assignments: its captions, its icons (exactly where extraction succeeds) and its cell layout |
| `Appvial.App.SaveConfig` | APPVIAL.py:317-321 | an update with keys is merged into the record (`None` or no keys: skipped); then the entry for assignments is set to the current map, and the whole record is written to the file |
| `Scenarios.FreshStart` | APPVIAL.py:21-28 | with no settings file: no assignments; appearance dark; the window is not hidden; every caption is empty; both boxes are clear; the menu shows "Dark" |
| `Scenarios.AssignSurvivesRestart` | APPVIAL.py:296-321 | assigning a key twice keeps the second program, and a restart from the saved file finds it |
| `Scenarios.SecondPickIgnored` | APPVIAL.py:300-305 | once the pending key is used, a further pick changes nothing |
| `Scenarios.UnassignNotPersisted` | APPVIAL.py:307-310 | unassigning removes the key, a second unassignment leaves the map as the first did, and other keys keep theirs; after a restart the removed program is back |
| `Scenarios.AppearanceSurvivesRestart` | APPVIAL.py:229-243 | a menu choice is saved lower-cased and shown again, unchanged, after a restart |
| `Scenarios.MinimizedSurvivesRestart` | APPVIAL.py:283 | after ticking "start minimized", the restarted application goes to the tray |
| `Scenarios.SearchAndPick` | APPVIAL.py:181-195 | a double-clicked row assigns to the pending key a discovered program whose name contains the search text; with no selection nothing is picked |

## Left out

- Widgets, layout, `messagebox`, `mainloop` and page switching (`show_launcher`, `show_config`) are not modelled. What the widgets show is kept as plain fields.
- The tray icon and its daemon thread (`hide_to_tray`, `show_window`, `quit_app`) are concurrency and UI, so they are not modelled. `App.StartsHidden` is only the start-up decision.
- `extract_icon` goes through the Windows shell, PIL and a temporary file. It is the function parameter `extractIcon`. The model treats it as deterministic, while the real call can answer differently over time.
- `set_startup` writes a shell shortcut. It is not modelled, and so neither is its error message box.
- `ctk.set_appearance_mode` only restyles the window, so it is not modelled.
- Files are not read or written. `config.json` is the field `App.configFile`, and JSON encoding is taken to round-trip the record. Unparseable files, values of the wrong JSON type and keys other than the four are not modelled.
- `os.walk` is given as its output (`seq<WalkDir>`). The four base directories, `os.environ` and the existence check are not modelled.
- `ProgramSelectionWindow.destroy` after a double-click is not modelled. The window object simply stays.
- The App does not build its settings page in its constructor. A `ConfigPage` is created from the `App` separately.
- `Text.Lower`: only the ASCII letters are mapped. Python's `str.lower` also maps other Unicode letters.
- `Text.Capitalize`: only ASCII letters are mapped, for the same reason.
- `Paths.Basename`: a UNC share root such as `\\server\share` gives `share`. Python's `ntpath` gives the empty string.
- `Paths.Join`: only relative file names without a drive, as `os.walk` reports them, are modelled.
- `subprocess` is imported, but nothing in the program starts a program, so nothing is modelled there.
