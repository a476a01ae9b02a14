/**
 * The command-line front end's output-file naming: every file goes to
 * $HOME/Downloads under the last path component of the name given, with an
 * optional timestamp and, when the name is taken, the smallest free "-N".
 * Also the front end's check that --annotate and --annocolor come together.
 * HOME, the timestamp text and the set of existing files are parameters.
 */
module Filenames {
  import opened Results
  import opened Text

  /** The name without one trailing ".ext". */
  function DropExtension(fname: string, dotExt: string): (r: string)
    ensures EndsWith(fname, dotExt) ==> r + dotExt == fname
    ensures !EndsWith(fname, dotExt) ==> r == fname
  {
    if EndsWith(fname, dotExt) then fname[..|fname| - |dotExt|] else fname
  }

  /** The name with one trailing '/' dropped. */
  function Trimmed(fname: string): string {
    if EndsWith(fname, "/") then fname[..|fname| - 1] else fname
  }

  /**
   * One trailing '/' dropped, then only the text after the last '/': the
   * result ends the trimmed name, holds no '/', and is either the whole name
   * or preceded by a '/'.
   */
  function LastComponent(fname: string): (r: string)
    ensures '/' !in r
    ensures r == Trimmed(fname) || EndsWith(Trimmed(fname), "/" + r)
  {
    var f := Trimmed(fname);
    var parts := Split(f, '/');
    SplitFields(f, '/');
    JoinEndsWithLast(parts, '/');
    parts[|parts| - 1]
  }

  /** The properties of LastComponent determine it: any such tail is the last component. */
  lemma LastComponentIsTail(fname: string, t: string)
    requires '/' !in t
    requires t == Trimmed(fname) || EndsWith(Trimmed(fname), "/" + t)
    ensures t == LastComponent(fname)
  {
    var f := Trimmed(fname);
    var r := LastComponent(fname);
    if |t| < |r| {
      SlashInLongerTail(f, r, t);
    } else if |r| < |t| {
      SlashInLongerTail(f, t, r);
    } else {
      SlashedTailEnds(f, t);
      SlashedTailEnds(f, r);
    }
  }

  lemma SlashedTailEnds(f: string, t: string)
    requires t == f || EndsWith(f, "/" + t)
    ensures EndsWith(f, t)
  {
    if t != f {
      assert f[|f| - |t|..] == f[|f| - 1 - |t|..][1..];
    }
  }

  /** A tail of f that is longer than a '/'-preceded tail holds that '/'. */
  lemma SlashInLongerTail(f: string, long: string, short: string)
    requires EndsWith(f, long) && |short| < |long|
    requires short == f || EndsWith(f, "/" + short)
    ensures '/' in long
  {
    assert f[|f| - 1 - |short|..][0] == '/';
    assert long[|long| - 1 - |short|] == f[|f| - 1 - |short|];
  }

  /** The join is the last part, or ends with a separator and the last part. */
  lemma {:induction false} JoinEndsWithLast(parts: seq<string>, sep: char)
    requires |parts| >= 1
    ensures |parts| == 1 ==> Join(parts, sep) == parts[0]
    ensures |parts| > 1 ==> EndsWith(Join(parts, sep), [sep] + parts[|parts| - 1])
  {
    if |parts| > 1 {
      var j := Join(parts[1..], sep);
      var head := parts[0] + [sep];
      var tail := [sep] + parts[|parts| - 1];
      assert Join(parts, sep) == head + j;
      if |parts| == 2 {
        assert j == parts[1];
        assert (head + j)[|head + j| - |tail|..] == tail;
      } else {
        JoinEndsWithLast(parts[1..], sep);
        assert (head + j)[|head + j| - |tail|..] == j[|j| - |tail|..];
      }
    }
  }

  /** The file name the given name stands for: no extension, no directory. */
  function BaseName(fname: string, ext: string): string {
    LastComponent(DropExtension(fname, "." + ext))
  }

  /** The path before any uniqueness suffix and extension. */
  function Stem(fname: string, ext: string, home: string, timestamp: Option<string>): (stem: string)
    ensures StartsWith(stem, home + "/Downloads/")
  {
    var fn := home + "/Downloads" + "/" + BaseName(fname, ext);
    assert fn[..|home + "/Downloads/"|] == home + "/Downloads/";
    if timestamp.Some? then
      assert (fn + "-" + timestamp.value)[..|home + "/Downloads/"|] == fn[..|home + "/Downloads/"|];
      fn + "-" + timestamp.value
    else fn
  }

  /** "" for 0, "-N" for N >= 1. */
  function Suffix(num: nat): (s: string)
    ensures num == 0 <==> s == []
  {
    if num == 0 then "" else "-" + NatToString(num)
  }

  /** The num-th name tried in the uniqueness loop. */
  function Candidate(stem: string, num: nat, dotExt: string): string {
    stem + Suffix(num) + dotExt
  }

  /** Different numbers give different names. */
  lemma CandidateInjective(stem: string, a: nat, b: nat, dotExt: string)
    requires Candidate(stem, a, dotExt) == Candidate(stem, b, dotExt)
    ensures a == b
  {
    var s := Candidate(stem, a, dotExt);
    assert |Suffix(a)| == |Suffix(b)|;
    assert Suffix(a) == s[|stem|..|s| - |dotExt|] == Suffix(b);
    if a != 0 && b != 0 {
      assert Suffix(a)[1..] == NatToString(a) && Suffix(b)[1..] == NatToString(b);
      NatToStringInjective(a, b);
    }
  }

  /** n distinct tried names all taken mean at least n existing files. */
  lemma {:induction false} TakenBound(stem: string, dotExt: string, existing: set<string>, n: nat)
    requires forall j :: 0 <= j < n ==> Candidate(stem, j, dotExt) in existing
    ensures n <= |existing|
  {
    if n > 0 {
      var last := Candidate(stem, n - 1, dotExt);
      var rest := existing - {last};
      forall j | 0 <= j < n - 1
        ensures Candidate(stem, j, dotExt) in rest
      {
        if Candidate(stem, j, dotExt) == last {
          CandidateInjective(stem, j, n - 1, dotExt);
        }
      }
      TakenBound(stem, dotExt, rest, n - 1);
    }
  }

  /** num is the first free number: its name is absent, every smaller one taken. */
  predicate FirstFree(stem: string, dotExt: string, existing: set<string>, num: nat) {
    Candidate(stem, num, dotExt) !in existing
    && forall j :: 0 <= j < num ==> Candidate(stem, j, dotExt) in existing
  }

  /** There is at most one first free number, so the name chosen is determined. */
  lemma FirstFreeUnique(stem: string, dotExt: string, existing: set<string>, a: nat, b: nat)
    requires FirstFree(stem, dotExt, existing, a) && FirstFree(stem, dotExt, existing, b)
    ensures a == b
  {
  }

  /** The uniqueness loop: try "", "-1", "-2", ... until the name is not taken. */
  method FreeSuffix(stem: string, dotExt: string, existing: set<string>) returns (suffix: string)
    ensures exists num: nat :: suffix == Suffix(num) && FirstFree(stem, dotExt, existing, num)
  {
    suffix := "";
    var num: nat := 0;
    while stem + suffix + dotExt in existing
      invariant suffix == Suffix(num)
      invariant forall j :: 0 <= j < num ==> Candidate(stem, j, dotExt) in existing
      decreases |existing| - num
    {
      TakenBound(stem, dotExt, existing, num + 1);
      num := num + 1;
      suffix := "-" + NatToString(num);
    }
    assert FirstFree(stem, dotExt, existing, num);
  }

  /** The first half of handleFilename: the name without ".ext", then only its last component. */
  method StoredName(fname: string, ext: string) returns (name: string)
    ensures name == BaseName(fname, ext)
  {
    var dotExt := "." + ext;
    name := fname;
    if EndsWith(name, dotExt) {
      name := name[..|name| - |dotExt|];
    }
    assert name == DropExtension(fname, dotExt);
    ghost var whole := name;
    if EndsWith(name, "/") {
      name := name[..|name| - 1];
    }
    var pn := Split(name, '/');
    name := pn[|pn| - 1];
    assert name == LastComponent(whole);
  }

  /**
   * handleFilename: the name without ".ext" and directories, placed in
   * home/Downloads, then "-timestamp", then (if unique) the smallest free
   * suffix, then ".ext".
   */
  method HandleFilename(fname: string, ext: string, unique: bool, timestamp: Option<string>,
                        home: string, existing: set<string>) returns (fn: string)
    ensures var stem := Stem(fname, ext, home, timestamp);
      !unique ==> fn == Candidate(stem, 0, "." + ext)
    ensures var stem := Stem(fname, ext, home, timestamp);
      unique ==> exists num: nat :: fn == Candidate(stem, num, "." + ext) && FirstFree(stem, "." + ext, existing, num)
  {
    var name := StoredName(fname, ext);
    var dir := home + "/Downloads";
    fn := dir + "/" + name;
    if timestamp.Some? {
      fn := fn + "-" + timestamp.value;
    }
    assert fn == Stem(fname, ext, home, timestamp);
    var dotExt := "." + ext;
    var suffix := "";
    if unique {
      suffix := FreeSuffix(fn, dotExt, existing);
    }
    fn := fn + suffix + dotExt;
  }

  /** Asking for a name that already carries ".ext" is the same as asking without it. */
  lemma ExtensionGivenOrNot(fname: string, ext: string)
    requires !EndsWith(fname, "." + ext)
    ensures BaseName(fname + "." + ext, ext) == BaseName(fname, ext)
  {
    var d := "." + ext;
    assert (fname + d)[|fname + d| - |d|..] == d;
    assert fname + "." + ext == fname + d;
    assert DropExtension(fname + d, d) == fname == DropExtension(fname, d);
  }

  /** The chosen file always lies in home/Downloads and always carries the extension. */
  lemma UniqueNamePlacement(stem: string, dotExt: string, num: nat)
    ensures EndsWith(Candidate(stem, num, dotExt), dotExt)
    ensures StartsWith(Candidate(stem, num, dotExt), stem)
  {
    var c := Candidate(stem, num, dotExt);
    assert c[|c| - |dotExt|..] == dotExt;
    assert c[..|stem|] == stem;
  }

  /** With a timestamp the stem is the plain name, '-' and the timestamp. */
  lemma TimestampBeforeSuffix(fname: string, ext: string, home: string, ts: string)
    ensures Stem(fname, ext, home, Some(ts)) == Stem(fname, ext, home, None) + "-" + ts
  {
  }

  /** The stored file name never names a directory. */
  lemma BaseNameHasNoSlash(fname: string, ext: string)
    ensures '/' !in BaseName(fname, ext)
  {
  }

  /**
   * The --annotate/--annocolor check. annotate is None when the option is
   * absent and the given text otherwise (a single space when no text follows
   * the option); annocolor is None when absent.
   */
  predicate AnnotateRejected(annotate: Option<string>, annocolor: Option<string>) {
    var text := if annotate.Some? && annotate.value != [] then annotate.value else " ";
    (Strip(text) != [] && annotate.Some? && annotate.value != [] && annocolor.None?)
    || (annotate.None? && annocolor.Some?)
  }

  /**
   * A text that is not blank needs a colour, a colour needs a text; a blank
   * text alone (turning the annotation off) is allowed.
   */
  lemma AnnotateRule(annotate: Option<string>, annocolor: Option<string>)
    ensures AnnotateRejected(annotate, annocolor) <==>
      (annotate.Some? && Strip(annotate.value) != [] && annocolor.None?) || (annotate.None? && annocolor.Some?)
  {
    if annotate.Some? && annotate.value == [] {
      assert Strip(annotate.value) == [];
    }
  }

  /** What the bare option supplies, a single space, needs no colour. */
  lemma BlankAnnotateAlone()
    ensures !AnnotateRejected(Some(" "), None)
  {
    assert IsSpace(' ');
    assert LStripSpace(" ") == [];
  }
}
