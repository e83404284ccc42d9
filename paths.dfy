/** `std::path::Path`, as the sequence of components that `Path::components`
    yields, with `file_name` and `extension` following the standard library. */
module Paths {
  import opened Wrappers
  import opened Text

  datatype Component = RootDir | CurDir | ParentDir | Normal(name: string)

  datatype Path = Path(components: seq<Component>)

  function ComponentText(c: Component): string {
    match c
    case RootDir => ""
    case CurDir => "."
    case ParentDir => ".."
    case Normal(n) => n
  }

  function JoinComponents(cs: seq<Component>): string
    requires |cs| >= 1
  {
    if |cs| == 1 then ComponentText(cs[0])
    else ComponentText(cs[0]) + "/" + JoinComponents(cs[1..])
  }

  /** `to_string_lossy`: the components joined by '/'. */
  function Display(p: Path): string {
    if p.components == [] then "" else JoinComponents(p.components)
  }

  /** `Path::file_name`: the last component when it is a normal one. */
  function FileName(p: Path): (r: Option<string>)
    ensures r.Some? <==> p.components != [] && p.components[|p.components| - 1].Normal?
  {
    if p.components != [] && p.components[|p.components| - 1].Normal? then
      Some(p.components[|p.components| - 1].name)
    else None
  }

  function LastIndexOf(s: string, c: char): (r: Option<nat>)
    ensures r.None? <==> c !in s
    ensures r.Some? ==> r.value < |s| && s[r.value] == c && c !in s[r.value + 1..]
  {
    if s == [] then None
    else if s[|s| - 1] == c then Some(|s| - 1)
    else
      var r := LastIndexOf(s[..|s| - 1], c);
      assert r.Some? ==> s[r.value + 1..] == s[..|s| - 1][r.value + 1..] + [s[|s| - 1]];
      r
  }

  /** The extension of a file name: the text after its last '.', unless the
      name is "..", has no '.', or its only '.' is the first character. */
  function ExtensionOf(name: string): (r: Option<string>)
    ensures r.None? <==> name == ".." || forall i :: 0 < i < |name| ==> name[i] != '.'
    ensures r.Some? ==> '.' !in r.value && exists i :: 0 < i < |name| && name[i] == '.' && r.value == name[i + 1..]
  {
    if name == ".." then None
    else match LastIndexOf(name, '.')
      case None => None
      case Some(i) =>
        if i == 0 then
          assert forall j :: 0 < j < |name| ==> name[j] == name[1..][j - 1];
          None
        else Some(name[i + 1..])
  }

  /** `Path::extension`: none without a file name; otherwise none for "..",
      for a name without a '.' after its first character, and else the text
      after the last '.'. */
  function Extension(p: Path): (r: Option<string>)
    ensures FileName(p).None? ==> r.None?
    ensures FileName(p).Some? ==>
              var n := FileName(p).value;
              && (r.None? <==> n == ".." || forall i :: 0 < i < |n| ==> n[i] != '.')
              && (r.Some? ==> '.' !in r.value && exists i :: 0 < i < |n| && n[i] == '.' && r.value == n[i + 1..])
  {
    match FileName(p)
    case None => None
    case Some(n) => ExtensionOf(n)
  }

  /** A path's text contains the text of each of its components. */
  lemma {:induction false} DisplayContainsComponent(cs: seq<Component>, k: nat)
    requires k < |cs|
    ensures Contains(JoinComponents(cs), ComponentText(cs[k]))
  {
    var t := ComponentText(cs[k]);
    if |cs| == 1 {
      assert t <= JoinComponents(cs)[0..];
    } else if k == 0 {
      assert t <= JoinComponents(cs)[0..];
    } else {
      DisplayContainsComponent(cs[1..], k - 1);
      var rest := JoinComponents(cs[1..]);
      var i :| 0 <= i <= |rest| && t <= rest[i..];
      var pre := ComponentText(cs[0]) + "/";
      assert JoinComponents(cs) == pre + rest;
      assert JoinComponents(cs)[|pre| + i..] == rest[i..];
    }
  }
}
