/** POSIX paths after Python's `pathlib.PurePosixPath`: a path is whether
    it is absolute plus its non-empty components; `.` components and
    repeated or trailing slashes are dropped when a string is parsed. Unlike
    `PurePosixPath`, which keeps exactly two leading slashes as a root of
    their own, any run of leading slashes is the one root `/`. */
module Paths {
  import opened Text

  datatype Path = Path(absolute: bool, parts: seq<string>)

  /** A component that parsing can produce. */
  predicate IsPart(s: string)
  {
    s != "" && s != "." && '/' !in s
  }

  predicate WellFormed(p: Path)
  {
    forall i :: 0 <= i < |p.parts| ==> IsPart(p.parts[i])
  }

  /** The pieces of a split that are kept as components. */
  function KeepParts(pieces: seq<string>): (r: seq<string>)
    ensures forall i :: 0 <= i < |r| ==> IsPart(r[i])
    ensures |r| <= |pieces|
  {
    if pieces == [] then []
    else if IsPart(pieces[0]) then [pieces[0]] + KeepParts(pieces[1..])
    else KeepParts(pieces[1..])
  }

  lemma {:induction false} KeepPartsOfParts(parts: seq<string>)
    requires forall i :: 0 <= i < |parts| ==> IsPart(parts[i])
    ensures KeepParts(parts) == parts
  {
    if parts != [] {
      KeepPartsOfParts(parts[1..]);
    }
  }

  /** `PurePosixPath(s)`. */
  function Parse(s: string): (p: Path)
    ensures WellFormed(p)
    ensures p.absolute <==> (s != [] && s[0] == '/')
  {
    Path(s != [] && s[0] == '/', KeepParts(Split(s, '/')))
  }

  /** `p.as_posix()` (also `str(p)`): `.` for the empty relative path. */
  function AsPosix(p: Path): (r: string)
    ensures WellFormed(p) ==> r != [] && (r[0] == '/' <==> p.absolute)
    ensures WellFormed(p) ==> (r == "." <==> !p.absolute && p.parts == [])
  {
    if !p.absolute && p.parts == [] then "."
    else (if p.absolute then "/" else "") + Join(p.parts, '/')
  }

  /** Printing a parsed path and parsing it again gives the same path. */
  lemma {:induction false} ParseAsPosix(p: Path)
    requires WellFormed(p)
    ensures Parse(AsPosix(p)) == p
  {
    var s := AsPosix(p);
    if p.parts == [] {
      if p.absolute {
        assert s == ['/'] + [];
        SplitAfterSeparator([], '/');
        assert Split([], '/') == [[]];
        assert KeepParts(Split(s, '/')) == [];
      } else {
        assert s == "." && s[1..] == [];
        var rest := Split([], '/');
        assert rest == [[]];
        assert Split(s, '/') == [[s[0]] + rest[0]] + rest[1..];
      }
    } else {
      var j := Join(p.parts, '/');
      SplitJoin(p.parts, '/');
      KeepPartsOfParts(p.parts);
      JoinStart(p.parts, '/');
      if p.absolute {
        assert s == ['/'] + j;
        SplitAfterSeparator(j, '/');
        assert Split(s, '/') == [[]] + p.parts;
        assert KeepParts([[]] + p.parts) == KeepParts(p.parts);
      } else {
        assert s == j;
      }
    }
  }

  /** `p.name`: the last component, or the empty string. */
  function Name(p: Path): string
  {
    if p.parts == [] then "" else p.parts[|p.parts| - 1]
  }

  /** `PurePosixPath(s).name`. */
  function NameOf(s: string): (n: string)
    ensures n == "" || IsPart(n)
  {
    Name(Parse(s))
  }

  /** A single component parses to itself. */
  lemma {:induction false} ParsePart(n: string)
    requires IsPart(n)
    ensures Parse(n) == Path(false, [n])
  {
    SplitJoin([n], '/');
    KeepPartsOfParts([n]);
  }

  /** Taking the name of a name changes nothing, so looking a file up by
      `Path(s).name` is looking it up by `s`. */
  lemma {:induction false} NameOfName(s: string)
    ensures NameOf(NameOf(s)) == NameOf(s)
  {
    var n := NameOf(s);
    if n == "" {
      assert Split(n, '/') == [[]];
    } else {
      ParsePart(n);
    }
  }

  /** A string that splits into components has the last of them as its
      name. */
  lemma {:induction false} NameOfSplit(s: string, parts: seq<string>)
    requires |parts| >= 1 && Split(s, '/') == parts
    requires forall i :: 0 <= i < |parts| ==> IsPart(parts[i])
    ensures NameOf(s) == parts[|parts| - 1]
  {
    KeepPartsOfParts(parts);
  }

  /** The name of a joined relative path is its last component. */
  lemma {:induction false} NameOfJoin(parts: seq<string>)
    requires |parts| >= 1
    requires forall i :: 0 <= i < |parts| ==> IsPart(parts[i])
    ensures NameOf(Join(parts, '/')) == parts[|parts| - 1]
  {
    SplitJoin(parts, '/');
    NameOfSplit(Join(parts, '/'), parts);
  }

  /** `p.suffixes` for a path with name `name`: empty when the name ends
      with a dot; otherwise, after the leading dots are stripped, a dot
      followed by each piece after the first `.`-separated piece. */
  function Suffixes(name: string): (r: seq<string>)
    ensures forall i :: 0 <= i < |r| ==> |r[i]| >= 1 && r[i][0] == '.' && '.' !in r[i][1..]
  {
    if name != [] && name[|name| - 1] == '.' then []
    else
      var pieces := Split(TrimStartChar(name, '.'), '.');
      if pieces == [] then [] else Dotted(pieces[1..])
  }

  /** Each piece after a dot. */
  function Dotted(pieces: seq<string>): (r: seq<string>)
    ensures |r| == |pieces|
    ensures forall i {:trigger r[i]} :: 0 <= i < |r| ==> r[i] == "." + pieces[i]
  {
    if pieces == [] then [] else ["." + pieces[0]] + Dotted(pieces[1..])
  }

  /** A stem without dots followed by dotted extensions has exactly those
      extensions as suffixes: `a.gcode.3mf` has `.gcode` and `.3mf`. */
  lemma {:induction false} SuffixesOf(stem: string, exts: seq<string>)
    requires stem != [] && '.' !in stem
    requires exts != [] && exts[|exts| - 1] != []
    requires forall i :: 0 <= i < |exts| ==> '.' !in exts[i]
    ensures Suffixes(Join([stem] + exts, '.')) == seq(|exts|, i requires 0 <= i < |exts| => "." + exts[i])
  {
    var parts := [stem] + exts;
    SplitJoin(parts, '.');
    JoinStart(parts, '.');
    JoinEnd(parts, '.');
    SuffixesOfSplit(Join(parts, '.'), parts);
    assert parts[1..] == exts;
    var d := Dotted(exts);
    assert forall i :: 0 <= i < |exts| ==> d[i] == "." + exts[i];
  }

  /** A name that neither starts nor ends with a dot has, as suffixes, the
      pieces after its first `.`-separated piece. */
  lemma {:induction false} SuffixesOfSplit(name: string, pieces: seq<string>)
    requires name != [] && name[0] != '.' && name[|name| - 1] != '.'
    requires Split(name, '.') == pieces
    ensures Suffixes(name) == Dotted(pieces[1..])
  {
    assert TrimStartChar(name, '.') == name;
  }

  /** The last character of a join is that of its last part. */
  lemma {:induction false} JoinEnd(parts: seq<string>, sep: char)
    requires |parts| >= 1 && parts[|parts| - 1] != []
    ensures Join(parts, sep) != [] && Join(parts, sep)[|Join(parts, sep)| - 1] == parts[|parts| - 1][|parts[|parts| - 1]| - 1]
  {
    if |parts| > 1 {
      JoinEnd(parts[1..], sep);
    }
  }
}
