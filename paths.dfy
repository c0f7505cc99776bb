/** The parts of Python's posixpath the generators call: dirname, normpath and
    the root half of splitext. */
module Paths {
  import opened Strings

  /** The text up to and including its last '/', or "" when it has none. */
  function ThroughLastSlash(p: string): (r: string)
    ensures r <= p
    ensures r == [] <==> '/' !in p
    ensures r != [] ==> r[|r| - 1] == '/' && '/' !in p[|r|..]
  {
    if p == [] then []
    else if p[|p| - 1] == '/' then p
    else
      var r := ThroughLastSlash(p[..|p| - 1]);
      assert p[|r|..] == p[..|p| - 1][|r|..] + [p[|p| - 1]];
      r
  }

  /** str.rstrip(c) for one character. */
  function TrimEndChar(s: string, c: char): (r: string)
    ensures r <= s
    ensures r == [] || r[|r| - 1] != c
    ensures forall i :: |r| <= i < |s| ==> s[i] == c
  {
    if s != [] && s[|s| - 1] == c then TrimEndChar(s[..|s| - 1], c) else s
  }

  predicate AllSlashes(s: string)
  {
    forall i :: 0 <= i < |s| ==> s[i] == '/'
  }

  /** posixpath.dirname: everything before the last '/', without trailing slashes
      unless it consists of slashes only. */
  function DirName(p: string): (r: string)
    ensures r <= p
    ensures '/' !in p ==> r == []
  {
    var head := ThroughLastSlash(p);
    if head != [] && !AllSlashes(head) then TrimEndChar(head, '/') else head
  }

  /** Appending "/" and a slash-free name moves the last slash to just after the prefix. */
  lemma {:induction false} ThroughLastSlashAppend(d: string, f: string)
    requires '/' !in f
    ensures ThroughLastSlash(d + "/" + f) == d + "/"
    decreases |f|
  {
    var p := d + "/" + f;
    if f != [] {
      assert p[|p| - 1] == f[|f| - 1];
      assert p[..|p| - 1] == d + "/" + f[..|f| - 1];
      ThroughLastSlashAppend(d, f[..|f| - 1]);
    }
  }

  /** The directory part of `d/f`, for a file name `f` and a directory `d` not ending in a
      slash, is `d` itself: everything before the last '/'. */
  lemma DirNameOf(d: string, f: string)
    requires '/' !in f && d != [] && d[|d| - 1] != '/'
    ensures DirName(d + "/" + f) == d
  {
    ThroughLastSlashAppend(d, f);
    var head := d + "/";
    assert head[|d| - 1] != '/';
    assert head[..|head| - 1] == d;
  }

  /** The '.'-free part of posixpath.normpath's loop over components. */
  function NormComponents(comps: seq<string>, acc: seq<string>, rooted: bool): seq<string>
  {
    if comps == [] then acc
    else
      var c := comps[0];
      var next :=
        if c == "" || c == "." then acc
        else if c != ".." || (!rooted && acc == []) || (acc != [] && acc[|acc| - 1] == "..") then acc + [c]
        else if acc != [] then acc[..|acc| - 1]
        else acc;
      NormComponents(comps[1..], next, rooted)
  }

  function Slashes(n: nat): string
  {
    if n == 0 then "" else "/" + Slashes(n - 1)
  }

  /** posixpath.normpath: collapses separators and "." components and resolves ".." lexically. */
  function NormPath(path: string): (r: string)
  {
    if path == "" then "."
    else
      var initial: nat := if "/" <= path then (if "//" <= path && !("///" <= path) then 2 else 1) else 0;
      var comps := NormComponents(Split(path, '/'), [], initial > 0);
      var r := Slashes(initial) + Join(comps, '/');
      if r == "" then "." else r
  }

  /** A path component normpath keeps as it is. */
  predicate IsPlainComponent(c: string)
  {
    c != "" && c != "." && c != ".." && '/' !in c
  }

  /** A relative path whose '/'-separated pieces are all plain components. */
  predicate IsPlainPath(p: string)
  {
    forall i :: 0 <= i < |Split(p, '/')| ==> IsPlainComponent(Split(p, '/')[i])
  }

  /** normpath's component loop keeps plain components as they are. */
  lemma {:induction false} NormComponentsPlain(comps: seq<string>, acc: seq<string>)
    requires forall i :: 0 <= i < |comps| ==> IsPlainComponent(comps[i])
    ensures NormComponents(comps, acc, false) == acc + comps
    decreases |comps|
  {
    if comps != [] {
      assert NormComponents(comps, acc, false) == NormComponents(comps[1..], acc + [comps[0]], false);
      NormComponentsPlain(comps[1..], acc + [comps[0]]);
      assert acc + [comps[0]] + comps[1..] == acc + comps;
    }
  }

  /** Joining plain components gives a path that is already normal. */
  lemma NormPathJoin(parts: seq<string>)
    requires |parts| >= 1 && forall i :: 0 <= i < |parts| ==> IsPlainComponent(parts[i])
    ensures NormPath(Join(parts, '/')) == Join(parts, '/')
  {
    var path := Join(parts, '/');
    SplitJoin(parts, '/');
    assert parts[0] <= path;
    assert path[0] == parts[0][0];
    NormComponentsPlain(parts, []);
    assert [] + parts == parts;
  }

  /** A plain folder joined with a relative file path of plain pieces, such as
      "topologies" and "borg/800/DE.json", is already normal. */
  lemma NormPathPlain(folder: string, file: string)
    requires IsPlainComponent(folder) && IsPlainPath(file)
    ensures NormPath(folder + "/" + file) == folder + "/" + file
  {
    var pieces := Split(file, '/');
    JoinSplit(file, '/');
    var parts := [folder] + pieces;
    assert parts[0] == folder && parts[1..] == pieces;
    assert Join(parts, '/') == folder + "/" + file;
    NormPathJoin(parts);
  }

  /** The index of the last occurrence of `c`, or -1. */
  function LastIndexOf(s: string, c: char): (r: int)
    ensures -1 <= r < |s|
    ensures r >= 0 ==> s[r] == c
    ensures forall i :: r < i < |s| ==> s[i] != c
  {
    if s == [] then -1
    else if s[|s| - 1] == c then |s| - 1
    else LastIndexOf(s[..|s| - 1], c)
  }

  /** posixpath.splitext(p)[0]: the path without the extension of its last component;
      leading dots of the last component do not start an extension. */
  function SplitExtRoot(p: string): (r: string)
    ensures r <= p
  {
    var sep := LastIndexOf(p, '/');
    var dot := LastIndexOf(p, '.');
    if dot > sep && exists k :: sep + 1 <= k < dot && p[k] != '.' then p[..dot] else p
  }
}
