/** The few System.IO.Path and string operations the scan relies on, on file basenames. */
module Paths {
  import opened Wrappers

  /** ToLowerInvariant restricted to ASCII letters. */
  function LowerChar(ch: char): char
  {
    if 'A' <= ch <= 'Z' then (ch as int + 32) as char else ch
  }

  function ToLowerInvariant(s: string): (r: string)
    ensures |r| == |s|
  {
    seq(|s|, i requires 0 <= i < |s| => LowerChar(s[i]))
  }

  /** Position of the last '.' in `s`, if any. */
  function LastDot(s: string): (r: Option<nat>)
    ensures r.Some? ==> r.value < |s| && s[r.value] == '.'
  {
    if |s| == 0 then None
    else if s[|s| - 1] == '.' then Some(|s| - 1)
    else LastDot(s[..|s| - 1])
  }

  lemma {:induction false} LastDotSpec(s: string)
    ensures var r := LastDot(s);
      && (r.Some? ==> forall j :: r.value < j < |s| ==> s[j] != '.')
      && (r.None? ==> forall j :: 0 <= j < |s| ==> s[j] != '.')
  {
    if |s| > 0 && s[|s| - 1] != '.' {
      LastDotSpec(s[..|s| - 1]);
      assert forall j :: 0 <= j < |s| - 1 ==> s[..|s| - 1][j] == s[j];
    }
  }

  /** Path.GetExtension of a basename: from the last '.' on, or empty when there is
      no '.' or the last '.' ends the name. */
  function GetExtension(name: string): string
  {
    match LastDot(name)
    case None => ""
    case Some(i) => if i == |name| - 1 then "" else name[i..]
  }

  /** The extension is empty, or a suffix of the name that starts at its last '.' and
      has at least one character after it; it is empty exactly when the name has no
      '.' or ends in one. */
  lemma GetExtensionSpec(name: string)
    ensures var e := GetExtension(name);
      && (e != [] ==> 2 <= |e| <= |name| && e[0] == '.' && e == name[|name| - |e|..])
      && (e != [] ==> forall j :: 1 <= j < |e| ==> e[j] != '.')
      && (e == [] <==> (forall j :: 0 <= j < |name| ==> name[j] != '.') || name[|name| - 1] == '.')
  {
    LastDotSpec(name);
  }

  /** The extension compared the way the scan compares it. */
  function LowerExtension(name: string): string
  {
    ToLowerInvariant(GetExtension(name))
  }

  /** Directory.GetFiles(folder, "*" + ext): the files of the folder whose extension
      matches `ext` without regard to case, in enumeration order. */
  function GetFiles(files: seq<string>, ext: string): (r: seq<string>)
    ensures |r| <= |files|
    ensures forall f :: f in r <==> f in files && LowerExtension(f) == ext
  {
    if files == [] then []
    else
      (if LowerExtension(files[0]) == ext then [files[0]] else []) + GetFiles(files[1..], ext)
  }

  /** The extension of a name whose last '.' is at index `i`, with more after it. */
  lemma ExtensionAt(name: string, i: nat)
    requires i < |name| - 1 && name[i] == '.'
    requires forall j :: i < j < |name| ==> name[j] != '.'
    ensures GetExtension(name) == name[i..]
  {
    LastDotSpec(name);
  }

  lemma ExtensionExamples()
    ensures LowerExtension("Song.OGG") == ".ogg"
    ensures GetExtension("archive.tar.mp3") == ".mp3"
    ensures GetExtension("noext") == ""
    ensures GetExtension("trailing.") == ""
  {
    var song := "Song.OGG";
    assert song[4] == '.' && song[5] != '.' && song[6] != '.' && song[7] != '.';
    ExtensionAt(song, 4);
    assert song[4..] == ".OGG";
    assert ToLowerInvariant(".OGG") == ".ogg";
    var archive := "archive.tar.mp3";
    assert archive[11] == '.' && archive[12] != '.' && archive[13] != '.' && archive[14] != '.';
    ExtensionAt(archive, 11);
    assert archive[11..] == ".mp3";
    var noext := "noext";
    assert noext[0] != '.' && noext[1] != '.' && noext[2] != '.' && noext[3] != '.' && noext[4] != '.';
    GetExtensionSpec(noext);
    GetExtensionSpec("trailing.");
  }
}
