/**
 * Whole-application behaviour, stated as client methods that drive the
 * classes of `Appvial` the way the user interface does and restart the
 * application from the settings file it left behind.
 */
module Scenarios {
  import opened Wrappers
  import opened Settings
  import Appvial
  import Programs
  import Sorting
  import Keys

  /** A fresh start (no settings file) has no assignments, the dark appearance, stays visible,
      shows an empty caption on every button, and the settings page shows both boxes cleared and "Dark". */
  method FreshStart(extract: string -> Option<Appvial.Icon>)
    returns (assignments: map<string, string>, mode: string, hidden: bool, captions: map<string, string>,
             startBox: bool, minimizedBox: bool, menu: string)
    ensures assignments == map[] && mode == "dark" && !hidden
    ensures forall k :: k in Keys.KeyLabels() ==> k in captions && captions[k] == ""
    ensures !startBox && !minimizedBox && menu == "Dark"
  {
    var app := new Appvial.App(None, extract);
    var page := new Appvial.ConfigPage(app);
    assignments, mode, hidden := app.programAssignments, app.StartAppearance(), app.StartsHidden();
    captions := app.launcherPage.buttons;
    startBox, minimizedBox, menu := page.startVar, page.minimizedVar, page.appearanceOption;
    DefaultMenuText();
  }

  /** Clicking a key's button, then receiving a program from the picker, assigns it; the second
      assignment to the same key wins, and the assignment is found again after a restart. */
  method AssignSurvivesRestart(stored: Option<Config>, key: string, first: string, second: string,
                               extract: string -> Option<Appvial.Icon>)
    returns (reloaded: Option<string>)
    requires key != ""
    ensures reloaded == Some(second)
  {
    var app := new Appvial.App(stored, extract);
    var w := app.OpenProgramWindow(key, []);
    app.AssignProgramToButton(first);
    w := app.OpenProgramWindow(key, []);
    app.AssignProgramToButton(second);
    var again := new Appvial.App(app.configFile, extract);
    reloaded := Lookup(again.programAssignments, key);
  }

  /** A program arriving while no key is waiting (the waiting key was used already) is ignored. */
  method SecondPickIgnored(stored: Option<Config>, key: string, first: string, second: string,
                           extract: string -> Option<Appvial.Icon>)
    returns (result: Option<string>)
    requires key != ""
    ensures result == Some(first)
  {
    var app := new Appvial.App(stored, extract);
    var w := app.OpenProgramWindow(key, []);
    app.AssignProgramToButton(first);
    app.AssignProgramToButton(second);
    result := Lookup(app.programAssignments, key);
  }

  /** Unassigning removes the program at once, twice is the same as once, and other keys keep
      theirs; but the settings file is not rewritten, so after a restart the program is back. */
  method UnassignNotPersisted(stored: Config, key: string, other: string, extract: string -> Option<Appvial.Icon>)
    returns (once: map<string, string>, twice: map<string, string>,
             inMemory: Option<string>, otherKept: Option<string>, reloaded: Option<string>)
    requires stored.assignments.Some? && key in stored.assignments.value
    requires other != key && other in stored.assignments.value
    ensures once == stored.assignments.value - {key}
    ensures twice == once
    ensures inMemory == None
    ensures otherKept == Some(stored.assignments.value[other])
    ensures reloaded == Some(stored.assignments.value[key])
  {
    var app := new Appvial.App(Some(stored), extract);
    app.UnassignProgram(key);
    once := app.programAssignments;
    app.UnassignProgram(key);
    twice := app.programAssignments;
    inMemory := Lookup(app.programAssignments, key);
    otherKept := Lookup(app.programAssignments, other);
    var again := new Appvial.App(app.configFile, extract);
    reloaded := Lookup(again.programAssignments, key);
  }

  /** An appearance chosen in the menu is saved lower-cased and shown again, as chosen,
      by the settings page after a restart. */
  method AppearanceSurvivesRestart(stored: Option<Config>, choice: string, extract: string -> Option<Appvial.Icon>)
    returns (saved: Option<string>, shown: string)
    requires choice in AppearanceChoices()
    ensures saved == Some(StoredMode(choice))
    ensures shown == choice
  {
    var app := new Appvial.App(stored, extract);
    var page := new Appvial.ConfigPage(app);
    page.ChangeAppearance(choice);
    saved := app.configFile.value.appearanceMode;
    var again := new Appvial.App(app.configFile, extract);
    var page2 := new Appvial.ConfigPage(again);
    shown := page2.appearanceOption;
    AppearanceRoundTrip(choice);
  }

  /** Ticking "start minimized" is saved, and the restarted application goes straight to the tray. */
  method MinimizedSurvivesRestart(stored: Option<Config>, extract: string -> Option<Appvial.Icon>)
    returns (hidden: bool)
    ensures hidden
  {
    var app := new Appvial.App(stored, extract);
    var page := new Appvial.ConfigPage(app);
    page.ToggleStartMinimized(true);
    var again := new Appvial.App(app.configFile, extract);
    hidden := again.StartsHidden();
  }

  /** Searching the picker and double-clicking a listed row assigns that row's program to the
      waiting key: a discovered program whose file name contains the search text. With no row
      selected nothing is picked. */
  method SearchAndPick(stored: Option<Config>, dirs: seq<Programs.WalkDir>, key: string, search: string,
                       selection: seq<nat>, extract: string -> Option<Appvial.Icon>)
    returns (picked: Option<string>, now: Option<string>)
    requires key != ""
    requires forall k :: 0 <= k < |selection| ==>
      selection[k] < |Programs.FilterPrograms(Sorting.SortStrings(Programs.WalkPrograms(dirs)), search)|
    ensures picked.None? <==> selection == []
    ensures picked.Some? ==> now == picked
    ensures picked.Some? ==>
      picked.value in Sorting.SortStrings(Programs.WalkPrograms(dirs)) && Programs.Matches(picked.value, search)
  {
    var app := new Appvial.App(stored, extract);
    var w := app.OpenProgramWindow(key, dirs);
    w.UpdateList(search);
    picked := w.OnDoubleClick(selection);
    Programs.PickedProgramMatches(w.allPrograms, search, selection);
    now := Lookup(app.programAssignments, key);
  }
}
