/**
 * Windows path handling as the program uses it (`os.path` is `ntpath` on
 * Windows): `basename`, `join` of a directory and a file name, and the text
 * shown on a launcher button, `basename(path).split(".")[0]`.
 */
module Paths {
  import opened Wrappers

  /** Both `\` and `/` separate path components on Windows. */
  predicate IsSep(c: char) { c == '\\' || c == '/' }

  predicate HasSep(s: string) { exists i :: 0 <= i < |s| && IsSep(s[i]) }

  /** A drive prefix such as `C:` (any character followed by a colon). */
  predicate HasDrive(p: string) { |p| >= 2 && p[1] == ':' }

  /** What follows the last separator of `s` (all of `s` when it has none). */
  function AfterLastSep(s: string): string
  {
    if s == [] then []
    else if IsSep(s[|s| - 1]) then []
    else AfterLastSep(s[..|s| - 1]) + [s[|s| - 1]]
  }

  /** `os.path.basename(p)`: the drive prefix is not part of the name, then the last component. */
  function Basename(p: string): string
  {
    if HasDrive(p) then AfterLastSep(p[2..]) else AfterLastSep(p)
  }

  /** The part after the last separator is a separator-free suffix, preceded by a separator
      unless it is the whole string. */
  lemma {:induction false} AfterLastSepIsLastComponent(s: string)
    ensures var r := AfterLastSep(s);
      && !HasSep(r)
      && |r| <= |s| && r == s[|s| - |r|..]
      && (|r| < |s| ==> IsSep(s[|s| - |r| - 1]))
    decreases |s|
  {
    if s != [] && !IsSep(s[|s| - 1]) {
      var init := s[..|s| - 1];
      AfterLastSepIsLastComponent(init);
      var r' := AfterLastSep(init);
      var r := AfterLastSep(s);
      assert r == r' + [s[|s| - 1]];
      assert s[|s| - |r'| - 1..] == init[|init| - |r'|..] + [s[|s| - 1]];
      assert !HasSep(r) by {
        forall i | 0 <= i < |r| ensures !IsSep(r[i]) {
          if i < |r'| { assert r[i] == r'[i]; }
        }
      }
    }
  }

  /** A basename holds no separator and is the suffix of the path after its last separator,
      or after its drive prefix when no separator follows the drive. */
  lemma BasenameIsSuffix(p: string)
    ensures !HasSep(Basename(p))
    ensures |Basename(p)| <= |p| && Basename(p) == p[|p| - |Basename(p)|..]
    ensures HasDrive(p) ==> |Basename(p)| <= |p| - 2
    ensures |Basename(p)| < |p| ==>
      IsSep(p[|p| - |Basename(p)| - 1]) || (HasDrive(p) && |Basename(p)| == |p| - 2)
  {
    if HasDrive(p) {
      AfterLastSepIsLastComponent(p[2..]);
    } else {
      AfterLastSepIsLastComponent(p);
    }
  }

  /** `os.path.join(root, name)` for a relative file name: a `\` is added unless `root` is empty,
      already ends in a separator, or is a bare drive such as `C:`. */
  function Join(root: string, name: string): (r: string)
    ensures r == root + name || r == root + "\\" + name
    ensures r == root + "\\" + name <==> root != [] && !IsSep(root[|root| - 1]) && !(|root| == 2 && root[1] == ':')
  {
    if root == [] || IsSep(root[|root| - 1]) || (|root| == 2 && root[1] == ':') then root + name
    else root + "\\" + name
  }

  /** A file name as `os.walk` reports it: no separator and no drive colon. */
  predicate IsFileName(name: string)
  {
    !HasSep(name) && ':' !in name
  }

  lemma {:induction false} AfterLastSepAppend(dir: string, name: string)
    requires dir == [] || IsSep(dir[|dir| - 1])
    requires !HasSep(name)
    ensures AfterLastSep(dir + name) == name
    decreases |name|
  {
    if name == [] {
      assert dir + name == dir;
    } else {
      var n' := name[..|name| - 1];
      assert (dir + name)[..|dir + name| - 1] == dir + n';
      assert !IsSep(name[|name| - 1]);
      assert !HasSep(n') by {
        forall i | 0 <= i < |n'| ensures !IsSep(n'[i]) { assert n'[i] == name[i]; }
      }
      AfterLastSepAppend(dir, n');
      assert name == n' + [name[|name| - 1]];
    }
  }

  /** The name of a file found by the directory walk is the basename of the joined path,
      so the picker shows, and filters on, exactly the file's own name. */
  lemma BasenameOfJoin(root: string, name: string)
    requires IsFileName(name)
    ensures Basename(Join(root, name)) == name
  {
    var prefix := if Join(root, name) == root + name then root else root + "\\";
    var p := Join(root, name);
    assert p == prefix + name;
    assert prefix == [] || IsSep(prefix[|prefix| - 1]) || (|prefix| == 2 && prefix[1] == ':');
    if HasDrive(p) {
      assert |prefix| >= 2;
      assert p[2..] == prefix[2..] + name;
      AfterLastSepAppend(prefix[2..], name);
    } else {
      AfterLastSepAppend(prefix, name);
    }
  }

  /** `s.split(".")[0]`: everything before the first `.`. */
  function BeforeDot(s: string): (r: string)
    ensures '.' !in r
    ensures |r| <= |s| && r == s[..|r|]
    ensures |r| < |s| ==> s[|r|] == '.'
  {
    if s == [] || s[0] == '.' then [] else [s[0]] + BeforeDot(s[1..])
  }

  /** The caption of a launcher button for the program `path` assigned to its key
      (`None` when the key has no assignment); an empty path counts as unassigned. */
  function ButtonText(path: Option<string>): string
  {
    if path.Some? && path.value != "" then BeforeDot(Basename(path.value)) else ""
  }

  /** A caption is the leading part of the program's file name: it holds no `.` and no
      separator, it is a prefix of the basename, and it is the whole basename exactly
      when the basename has no `.`. An unassigned key shows an empty caption. */
  lemma ButtonTextIsName(path: Option<string>)
    ensures var t := ButtonText(path);
      && '.' !in t && !HasSep(t)
      && (path.None? ==> t == "")
      && (path.Some? ==> var b := Basename(path.value);
            |t| <= |b| && t == b[..|t|] && (|t| < |b| ==> b[|t|] == '.') && ((t == b) <==> '.' !in b))
  {
    var t := ButtonText(path);
    if path.Some? {
      var b := Basename(path.value);
      BasenameIsSuffix(path.value);
      if t != b {
        assert b[|t|] == '.';
      }
      assert !HasSep(t) by {
        forall i | 0 <= i < |t| ensures !IsSep(t[i]) { assert t[i] == b[i]; }
      }
    }
  }

  /** The caption written when a key is re-assigned (`update_button_name`, which does not test
      for an empty path) is the caption a freshly built grid shows for that path. */
  lemma RenamedCaption(path: string)
    ensures BeforeDot(Basename(path)) == ButtonText(Some(path))
  {
    if path == "" {
      assert Basename(path) == "";
    }
  }
}
