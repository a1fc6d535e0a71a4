/**
 * Program discovery (`get_programs`) and the picker's list filtering
 * (`ProgramSelectionWindow.update_list`) and selection (`on_double_click`).
 * The directory walk is given as its output: one `WalkDir` per directory that
 * `os.walk` visits under the existing Start-menu and Program Files roots.
 */
module Programs {
  import opened Wrappers
  import Text
  import Paths
  import Sorting

  /** One step of `os.walk`: a directory and the names of the files directly in it. */
  datatype WalkDir = WalkDir(root: string, files: seq<string>)

  /** `file.lower().endswith((".exe", ".lnk"))`. */
  predicate HasProgramExtension(file: string)
  {
    Text.EndsWith(Text.Lower(file), ".exe") || Text.EndsWith(Text.Lower(file), ".lnk")
  }

  /** The full paths collected from one directory, in the order the walk lists its files. */
  function DirPrograms(root: string, files: seq<string>): seq<string>
  {
    if files == [] then []
    else
      var last := files[|files| - 1];
      DirPrograms(root, files[..|files| - 1]) + (if HasProgramExtension(last) then [Paths.Join(root, last)] else [])
  }

  /** The full paths collected over the whole walk, before sorting. */
  function WalkPrograms(dirs: seq<WalkDir>): seq<string>
  {
    if dirs == [] then []
    else
      var last := dirs[|dirs| - 1];
      WalkPrograms(dirs[..|dirs| - 1]) + DirPrograms(last.root, last.files)
  }

  /** The `j`-th file of `files` is a program, and `p` is its full path under `root`. */
  predicate InDir(root: string, files: seq<string>, j: int, p: string)
  {
    0 <= j < |files| && HasProgramExtension(files[j]) && p == Paths.Join(root, files[j])
  }

  /** The `j`-th file of the `i`-th directory walked is a program, and `p` is its full path. */
  predicate FoundAt(dirs: seq<WalkDir>, i: int, j: int, p: string)
  {
    0 <= i < |dirs| && InDir(dirs[i].root, dirs[i].files, j, p)
  }

  lemma {:induction false} DirProgramsMembers(root: string, files: seq<string>)
    ensures forall p :: p in DirPrograms(root, files) <==> exists j :: InDir(root, files, j, p)
    decreases |files|
  {
    if files != [] {
      var init := files[..|files| - 1];
      var last := files[|files| - 1];
      var tail := if HasProgramExtension(last) then [Paths.Join(root, last)] else [];
      assert DirPrograms(root, files) == DirPrograms(root, init) + tail;
      DirProgramsMembers(root, init);
      forall p | p in DirPrograms(root, files) ensures exists j :: InDir(root, files, j, p) {
        if p in DirPrograms(root, init) {
          var j :| InDir(root, init, j, p);
          assert init[j] == files[j];
          assert InDir(root, files, j, p);
        } else {
          assert InDir(root, files, |files| - 1, p);
        }
      }
      forall p | exists j :: InDir(root, files, j, p) ensures p in DirPrograms(root, files) {
        var j :| InDir(root, files, j, p);
        if j < |init| {
          assert init[j] == files[j];
          assert InDir(root, init, j, p);
        }
      }
    }
  }

  /** `get_programs` keeps exactly the walked files whose lower-cased name ends in `.exe`
      or `.lnk`, each joined to its directory: every collected path comes from such a file,
      and every such file is collected. */
  lemma {:induction false} WalkProgramsMembers(dirs: seq<WalkDir>)
    ensures forall p :: p in WalkPrograms(dirs) <==> exists i, j :: FoundAt(dirs, i, j, p)
    decreases |dirs|
  {
    if dirs != [] {
      var init := dirs[..|dirs| - 1];
      var last := dirs[|dirs| - 1];
      WalkProgramsMembers(init);
      DirProgramsMembers(last.root, last.files);
      assert WalkPrograms(dirs) == WalkPrograms(init) + DirPrograms(last.root, last.files);
      forall p | p in WalkPrograms(dirs) ensures exists i, j :: FoundAt(dirs, i, j, p) {
        if p in WalkPrograms(init) {
          var i, j :| FoundAt(init, i, j, p);
          assert init[i] == dirs[i];
          assert FoundAt(dirs, i, j, p);
        } else {
          var j :| InDir(last.root, last.files, j, p);
          assert FoundAt(dirs, |dirs| - 1, j, p);
        }
      }
      forall p | exists i, j :: FoundAt(dirs, i, j, p) ensures p in WalkPrograms(dirs) {
        var i, j :| FoundAt(dirs, i, j, p);
        if i < |init| {
          assert init[i] == dirs[i];
          assert FoundAt(init, i, j, p);
        } else {
          assert InDir(last.root, last.files, j, p);
        }
      }
    }
  }

  /** `get_programs`: walk the directories, collect the program files, return them sorted. */
  method GetPrograms(dirs: seq<WalkDir>) returns (programs: seq<string>)
    ensures Sorting.IsSorted(programs)
    ensures multiset(programs) == multiset(WalkPrograms(dirs))
    ensures programs == Sorting.SortStrings(WalkPrograms(dirs))
  {
    var found: seq<string> := [];
    for i := 0 to |dirs|
      invariant found == WalkPrograms(dirs[..i])
    {
      var d := dirs[i];
      for j := 0 to |d.files|
        invariant found == WalkPrograms(dirs[..i]) + DirPrograms(d.root, d.files[..j])
      {
        assert d.files[..j + 1][..j] == d.files[..j];
        if HasProgramExtension(d.files[j]) {
          found := found + [Paths.Join(d.root, d.files[j])];
        }
      }
      assert d.files[..|d.files|] == d.files;
      assert dirs[..i + 1][..i] == dirs[..i];
    }
    assert dirs[..|dirs|] == dirs;
    programs := Sorting.SortStrings(found);
  }

  /** Every program the picker lists has the `.exe` or `.lnk` extension in its own name,
      provided the walk reports plain file names. */
  lemma ListedProgramsHaveExtension(dirs: seq<WalkDir>, p: string)
    requires forall i, j :: 0 <= i < |dirs| && 0 <= j < |dirs[i].files| ==> Paths.IsFileName(dirs[i].files[j])
    requires p in Sorting.SortStrings(WalkPrograms(dirs))
    ensures HasProgramExtension(Paths.Basename(p))
  {
    assert p in multiset(WalkPrograms(dirs));
    assert p in WalkPrograms(dirs);
    WalkProgramsMembers(dirs);
    var i, j :| FoundAt(dirs, i, j, p);
    var file := dirs[i].files[j];
    assert Paths.IsFileName(file);
    Paths.BasenameOfJoin(dirs[i].root, file);
    assert Paths.Basename(p) == file;
  }

  /** The picker's search: the lower-cased query occurs in the lower-cased file name. */
  predicate Matches(path: string, query: string)
  {
    Text.Contains(Text.Lower(Paths.Basename(path)), Text.Lower(query))
  }

  /** `update_list`: `[p for p in all_programs if query in basename(p)]`, both lower-cased. */
  function FilterPrograms(all: seq<string>, query: string): seq<string>
  {
    if all == [] then []
    else (if Matches(all[0], query) then [all[0]] else []) + FilterPrograms(all[1..], query)
  }

  /** Only programs of the full list that match the query are kept, and the list does not grow. */
  lemma {:induction false} FilterSound(all: seq<string>, query: string)
    ensures |FilterPrograms(all, query)| <= |all|
    ensures forall p :: p in FilterPrograms(all, query) ==> p in all && Matches(p, query)
    decreases |all|
  {
    if all != [] {
      FilterSound(all[1..], query);
    }
  }

  /** Every program that matches the query is kept. */
  lemma {:induction false} FilterKeepsMatches(all: seq<string>, query: string, p: string)
    requires p in all && Matches(p, query)
    ensures p in FilterPrograms(all, query)
    decreases |all|
  {
    if all[0] != p {
      FilterKeepsMatches(all[1..], query, p);
    }
  }

  /** Filtering works element by element, so the relative order of the programs is kept. */
  lemma {:induction false} FilterAppend(a: seq<string>, b: seq<string>, query: string)
    ensures FilterPrograms(a + b, query) == FilterPrograms(a, query) + FilterPrograms(b, query)
    decreases |a|
  {
    if a != [] {
      assert (a + b)[0] == a[0];
      assert (a + b)[1..] == a[1..] + b;
      FilterAppend(a[1..], b, query);

    } else {
      assert a + b == b;
    }
  }

  /** An empty search box lists every program. */
  lemma {:induction false} FilterEmptyQuery(all: seq<string>)
    ensures FilterPrograms(all, "") == all
    decreases |all|
  {
    if all != [] {
      Text.EmptyContained(Text.Lower(Paths.Basename(all[0])));
      FilterEmptyQuery(all[1..]);
    }
  }

  /** Filtering the filtered list again with the same query changes nothing. */
  lemma {:induction false} FilterIdempotent(all: seq<string>, query: string)
    ensures FilterPrograms(FilterPrograms(all, query), query) == FilterPrograms(all, query)
    decreases |all|
  {
    if all != [] {
      var head := if Matches(all[0], query) then [all[0]] else [];
      FilterAppend(head, FilterPrograms(all[1..], query), query);
      FilterIdempotent(all[1..], query);
      if Matches(all[0], query) {
        assert FilterPrograms(head, query) == head by {
          assert head[1..] == [];
        }
      }
    }
  }

  /** `on_double_click`: the path at the first selected listbox row, nothing when no row is selected. */
  function SelectedPath(paths: seq<string>, selection: seq<nat>): (r: Option<string>)
    requires forall k :: 0 <= k < |selection| ==> selection[k] < |paths|
    ensures r.None? <==> selection == []
    ensures r.Some? ==> r.value in paths && r.value == paths[selection[0]]
  {
    if selection == [] then None else Some(paths[selection[0]])
  }

  /** A program picked from the filtered list is one of the discovered programs and matches the search. */
  lemma PickedProgramMatches(all: seq<string>, query: string, selection: seq<nat>)
    requires forall k :: 0 <= k < |selection| ==> selection[k] < |FilterPrograms(all, query)|
    ensures var r := SelectedPath(FilterPrograms(all, query), selection);
      r.Some? ==> r.value in all && Matches(r.value, query)
  {
    FilterSound(all, query);
  }
}
