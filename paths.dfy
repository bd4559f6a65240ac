/**
 * The path manipulation the encoder performs on the selected input file:
 * POSIX `os.path.basename`, `os.path.splitext` and `os.path.join`, the
 * ".wav" test that decides whether the input is transcoded, and the name of
 * the ".ecdc" file the job writes (gui.py:161, 290).
 */
module Paths {

  type Path = string

  const Sep: char := '/'
  const ExtSep: char := '.'

  /** The suffix of every artifact the encoder writes. */
  const Extension: string := ".ecdc"

  /** The suffix of inputs that are loaded without transcoding. */
  const WavSuffix: string := ".wav"

  predicate EndsWith(s: string, suffix: string) {
    |suffix| <= |s| && s[|s| - |suffix|..] == suffix
  }

  /** `str.rfind` for one character: the last index of `ch` in `s`, or -1. */
  function LastIndex(s: string, ch: char): (r: int)
    ensures -1 <= r < |s|
    ensures r >= 0 ==> s[r] == ch
    ensures forall j :: r < j < |s| ==> s[j] != ch
    decreases |s|
  {
    if |s| == 0 then -1
    else if s[|s| - 1] == ch then |s| - 1
    else LastIndex(s[..|s| - 1], ch)
  }

  /** `posixpath.basename`: everything after the last separator. */
  function Basename(p: Path): Path {
    p[LastIndex(p, Sep) + 1..]
  }

  /** The basename holds no separator, ends the path, and follows a separator unless it is the whole path. */
  lemma BasenameShape(p: Path)
    ensures Sep !in Basename(p)
    ensures |Basename(p)| <= |p| && p[|p| - |Basename(p)|..] == Basename(p)
    ensures |Basename(p)| < |p| ==> p[|p| - |Basename(p)| - 1] == Sep
  {
    var k := LastIndex(p, Sep);
    var r := Basename(p);
    assert |r| == |p| - k - 1;
    forall j | 0 <= j < |r| ensures r[j] != Sep { assert r[j] == p[k + 1 + j]; }
  }

  /**
   * `posixpath.splitext`: splits at the last dot of the final component,
   * unless that component has only dots before it (".bashrc" has no
   * extension).
   */
  function SplitExt(p: Path): (Path, Path) {
    var sepIndex := LastIndex(p, Sep);
    var dotIndex := LastIndex(p, ExtSep);
    if dotIndex > sepIndex && exists j :: sepIndex < j < dotIndex && p[j] != ExtSep then
      (p[..dotIndex], p[dotIndex..])
    else
      (p, [])
  }

  /**
   * Root and extension rebuild the path; the extension is empty or a dot
   * followed by neither a dot nor a separator; a non-empty extension leaves
   * a non-dot character before it in the final component (leading dots are
   * not an extension); and whenever the final component has a dot after a
   * non-dot character, an extension is split off.
   */
  lemma SplitExtShape(p: Path)
    ensures SplitExt(p).0 + SplitExt(p).1 == p
    ensures SplitExt(p).1 == [] || (SplitExt(p).1[0] == ExtSep && ExtSep !in SplitExt(p).1[1..] && Sep !in SplitExt(p).1)
    ensures SplitExt(p).1 != [] ==>
      exists j :: LastIndex(p, Sep) < j < |SplitExt(p).0| && SplitExt(p).0[j] != ExtSep
    ensures (exists d, j :: LastIndex(p, Sep) < j < d < |p| && p[j] != ExtSep && p[d] == ExtSep) ==>
      SplitExt(p).1 != []
  {
    var sepIndex := LastIndex(p, Sep);
    var dotIndex := LastIndex(p, ExtSep);
    if dotIndex > sepIndex && exists j :: sepIndex < j < dotIndex && p[j] != ExtSep {
      var root := p[..dotIndex];
      var ext := p[dotIndex..];
      assert root + ext == p;
      forall j | 0 <= j < |ext| ensures ext[j] != Sep { assert ext[j] == p[dotIndex + j]; }
      forall j | 0 <= j < |ext| - 1 ensures ext[1..][j] != ExtSep { assert ext[1..][j] == p[dotIndex + 1 + j]; }
      var j :| sepIndex < j < dotIndex && p[j] != ExtSep;
      assert root[j] == p[j];
    }
    if exists d, j :: sepIndex < j < d < |p| && p[j] != ExtSep && p[d] == ExtSep {
      var d, j :| sepIndex < j < d < |p| && p[j] != ExtSep && p[d] == ExtSep;
      assert d <= dotIndex;
      assert sepIndex < j < dotIndex && p[j] != ExtSep;
    }
  }

  /** The file name without its extension, `os.path.splitext(name)[0]`. */
  function Stem(name: Path): Path {
    SplitExt(name).0
  }

  /** `posixpath.join(a, b)` for two components. */
  function Join(a: Path, b: Path): Path {
    if |b| > 0 && b[0] == Sep then b
    else if a == [] || a[|a| - 1] == Sep then a + b
    else a + [Sep] + b
  }

  /**
   * An absolute component replaces the folder. A relative one follows the
   * folder, with exactly one separator added when the folder is non-empty
   * and does not already end in one.
   */
  lemma JoinShape(a: Path, b: Path)
    ensures EndsWith(Join(a, b), b)
    ensures |b| > 0 && b[0] == Sep ==> Join(a, b) == b
    ensures !(|b| > 0 && b[0] == Sep) ==> |a| <= |Join(a, b)| && Join(a, b)[..|a|] == a
    ensures !(|b| > 0 && b[0] == Sep) && (a == [] || a[|a| - 1] == Sep) ==> Join(a, b) == a + b
    ensures !(|b| > 0 && b[0] == Sep) && a != [] && a[|a| - 1] != Sep ==> Join(a, b) == a + [Sep] + b
  {
    var r := Join(a, b);
    if !(|b| > 0 && b[0] == Sep) {
      var d := if a == [] || a[|a| - 1] == Sep then a else a + [Sep];
      assert r == d + b;
      assert r[|r| - |b|..] == b;
      assert r[..|a|] == a;
    }
  }

  /** The directory `Join` puts a relative component into. */
  function DirPrefix(folder: Path): Path {
    if folder == [] || folder[|folder| - 1] == Sep then folder else folder + [Sep]
  }

  /** The artifact written for `input` into `folder` (gui.py:290). */
  function OutputPath(folder: Path, input: Path): Path {
    Join(folder, Stem(Basename(input)) + Extension)
  }

  /**
   * The output file is the input's file name, extension dropped, with ".ecdc"
   * appended, placed directly inside `folder`.
   */
  lemma OutputPathShape(folder: Path, input: Path)
    ensures EndsWith(OutputPath(folder, input), Extension)
    ensures Basename(OutputPath(folder, input)) == Stem(Basename(input)) + Extension
    ensures OutputPath(folder, input) == DirPrefix(folder) + Basename(OutputPath(folder, input))
  {
    var stem := Stem(Basename(input));
    var name := stem + Extension;
    NameOfOutput(input);
    JoinRelative(folder, name);
    BasenameOfName(DirPrefix(folder), name);
    var out := OutputPath(folder, input);
    assert out == (DirPrefix(folder) + stem) + Extension;
  }

  /** The artifact's file name holds no separator. */
  lemma NameOfOutput(input: Path)
    ensures Sep !in Stem(Basename(input)) + Extension
  {
    var base := Basename(input);
    BasenameShape(input);
    SplitExtShape(base);
    var split := SplitExt(base);
    NoSepInParts(split.0, split.1);
    NoSepInConcat(split.0, Extension);
  }

  /** The parts of a name without separators have none either. */
  lemma NoSepInParts(a: Path, b: Path)
    requires Sep !in a + b
    ensures Sep !in a && Sep !in b
  {
    forall j | 0 <= j < |a| ensures a[j] != Sep { assert (a + b)[j] == a[j]; }
    forall j | 0 <= j < |b| ensures b[j] != Sep { assert (a + b)[|a| + j] == b[j]; }
  }

  /** Two names without separators concatenate to one without. */
  lemma NoSepInConcat(a: Path, b: Path)
    requires Sep !in a && Sep !in b
    ensures Sep !in a + b
  {
    forall j | 0 <= j < |a + b| ensures (a + b)[j] != Sep {
      if j < |a| { assert (a + b)[j] == a[j]; } else { assert (a + b)[j] == b[j - |a|]; }
    }
  }

  /** Joining a component without a separator puts it under the folder's directory prefix. */
  lemma JoinRelative(folder: Path, name: Path)
    requires Sep !in name
    ensures Join(folder, name) == DirPrefix(folder) + name
  {
    if |name| > 0 { assert name[0] in name; }
  }

  /** A name with no separator is its own basename, whatever precedes it. */
  lemma BasenameOfName(dir: Path, name: Path)
    requires Sep !in name
    requires dir == [] || dir[|dir| - 1] == Sep
    ensures Basename(dir + name) == name
  {
    var p := dir + name;
    var k := LastIndex(p, Sep);
    if dir == [] {
      assert p == name;
      assert k == -1;
    } else {
      assert p[|dir| - 1] == Sep;
      assert k <= |dir| - 1 by {
        forall j | |dir| <= j < |p| ensures p[j] != Sep {
          assert p[j] == name[j - |dir|];
        }
      }
    }
    assert p[k + 1..] == name;
  }

  /** A last component `stem + ext` with a single final extension splits into exactly those parts. */
  lemma SplitSingleExtension(stem: Path, ext: Path)
    requires Sep !in stem && exists j :: 0 <= j < |stem| && stem[j] != ExtSep
    requires |ext| > 0 && ext[0] == ExtSep && Sep !in ext && ExtSep !in ext[1..]
    ensures Sep !in stem + ext
    ensures SplitExt(stem + ext) == (stem, ext)
  {
    var name := stem + ext;
    NoSepInConcat(stem, ext);
    var dot := LastIndex(name, ExtSep);
    assert name[|stem|] == ExtSep;
    assert dot == |stem| by {
      forall j | |stem| < j < |name| ensures name[j] != ExtSep { assert name[j] == ext[1..][j - |stem| - 1]; }
    }
    assert LastIndex(name, Sep) == -1;
    var j :| 0 <= j < |stem| && stem[j] != ExtSep;
    assert name[j] == stem[j];
    assert name[..dot] == stem;
    assert name[dot..] == ext;
  }

  /**
   * The output name depends only on the input's file name: an input whose
   * final component is `stem + ext`, with `ext` a single extension and
   * `stem` holding some non-dot character (dots inside it are kept, as in
   * "live.2024.mp3"), gives `stem + ".ecdc"` in the folder, wherever the
   * input lives.
   */
  lemma OutputPathOfTypicalInput(folder: Path, dir: Path, stem: Path, ext: Path)
    requires Sep !in stem && exists j :: 0 <= j < |stem| && stem[j] != ExtSep
    requires |ext| > 0 && ext[0] == ExtSep && Sep !in ext && ExtSep !in ext[1..]
    ensures OutputPath(folder, dir + [Sep] + stem + ext) == DirPrefix(folder) + stem + Extension
  {
    var input := dir + [Sep] + stem + ext;
    SplitSingleExtension(stem, ext);
    assert input == (dir + [Sep]) + (stem + ext);
    BasenameOfName(dir + [Sep], stem + ext);
    assert Stem(Basename(input)) == stem;
    NoSepInConcat(stem, Extension);
    JoinRelative(folder, stem + Extension);
  }

  /** The chosen input is transcoded first exactly when it does not end in ".wav" (gui.py:161). */
  predicate NeedsTranscode(input: Path) {
    !EndsWith(input, WavSuffix)
  }
}
