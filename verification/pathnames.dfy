/** The part of .NET's System.IO.Path that the extension uses: GetFileName,
    GetExtension and GetFileNameWithoutExtension on Windows paths, as pure
    functions of the path string. */
module PathNames {

  /** '\' and '/' separate directories, ':' separates the volume. */
  predicate IsSeparator(c: char) {
    c == '\\' || c == '/' || c == ':'
  }

  predicate NoSeparator(s: string) {
    forall i :: 0 <= i < |s| ==> !IsSeparator(s[i])
  }

  predicate IsSuffix(s: string, p: string) {
    |s| <= |p| && p[|p| - |s|..] == s
  }

  /** Where the last segment of p[..k] starts: just after its last separator, or 0. */
  function SegmentStart(p: string, k: nat): (s: nat)
    requires k <= |p|
    ensures s <= k
    ensures forall i :: s <= i < k ==> !IsSeparator(p[i])
    ensures 0 < s ==> IsSeparator(p[s - 1])
  {
    if k == 0 then 0
    else if IsSeparator(p[k - 1]) then k
    else SegmentStart(p, k - 1)
  }

  /** Index of the last '.' in p[lo..k], or -1 when there is none. */
  function LastDot(p: string, lo: nat, k: nat): (i: int)
    requires lo <= k <= |p|
    ensures i == -1 || lo <= i < k
    ensures i == -1 ==> forall j :: lo <= j < k ==> p[j] != '.'
    ensures i != -1 ==> p[i] == '.' && forall j :: i < j < k ==> p[j] != '.'
    decreases k
  {
    if k == lo then -1
    else if p[k - 1] == '.' then k - 1
    else LastDot(p, lo, k - 1)
  }

  /** Path.GetFileName: the characters after the last separator (the whole path
      when there is none). */
  function FileName(p: string): (r: string)
    ensures IsSuffix(r, p)
    ensures NoSeparator(r)
    ensures |r| < |p| ==> IsSeparator(p[|p| - |r| - 1])
  {
    p[SegmentStart(p, |p|)..]
  }

  /** Scan of Path.GetExtension: walk back from position k; the first '.' found
      before any separator starts the extension, unless it is the path's last
      character, in which case the extension is empty. */
  function ScanExtension(p: string, k: nat): string
    requires k <= |p|
    decreases k
  {
    if k == 0 then ""
    else if p[k - 1] == '.' then (if k - 1 != |p| - 1 then p[k - 1..] else "")
    else if IsSeparator(p[k - 1]) then ""
    else ScanExtension(p, k - 1)
  }

  /** The extension read off the last segment of p[..k]: from that segment's last
      '.', unless there is none or it is the last character of p. */
  function SegmentExtension(p: string, k: nat): string
    requires k <= |p|
  {
    var i := LastDot(p, SegmentStart(p, k), k);
    if i == -1 || i == |p| - 1 then "" else p[i..]
  }

  /** The backward scan from k sees the same extension as the last segment of p[..k]. */
  lemma {:induction false} ScanWithinSegment(p: string, k: nat)
    requires k <= |p|
    ensures ScanExtension(p, k) == SegmentExtension(p, k)
    decreases k
  {
    if k > 0 && p[k - 1] != '.' && !IsSeparator(p[k - 1]) {
      ScanWithinSegment(p, k - 1);
    }
  }

  /** Path.GetExtension: "" or a '.' followed by at least one character, taken
      from the file name's last '.'. */
  function Extension(p: string): (r: string)
    ensures r == "" || (|r| >= 2 && r[0] == '.')
    ensures IsSuffix(r, p) && NoSeparator(r)
    ensures var i := LastDot(p, SegmentStart(p, |p|), |p|);
      r == if i == -1 || i == |p| - 1 then "" else p[i..]
  {
    ScanWithinSegment(p, |p|);
    ScanExtension(p, |p|)
  }

  /** Path.GetFileNameWithoutExtension: the file name cut at its last '.'. */
  function FileNameWithoutExtension(p: string): (r: string)
    ensures NoSeparator(r)
    ensures r <= FileName(p)
    ensures '.' in FileName(p) ==> |r| < |FileName(p)| && FileName(p)[|r|] == '.' && '.' !in FileName(p)[|r| + 1..]
    ensures '.' !in FileName(p) ==> r == FileName(p)
  {
    var s := SegmentStart(p, |p|);
    var i := LastDot(p, s, |p|);
    if i == -1 then p[s..] else p[s..i]
  }

  /** Cutting the file name at its extension and re-appending the extension gives
      back the file name (when there is an extension: a trailing '.' is dropped
      by GetFileNameWithoutExtension but not reported by GetExtension). */
  lemma FileNameSplitsAtExtension(p: string)
    requires Extension(p) != ""
    ensures FileNameWithoutExtension(p) + Extension(p) == FileName(p)
  {
    var s := SegmentStart(p, |p|);
    var i := LastDot(p, s, |p|);
    assert p[s..i] + p[i..] == p[s..];
  }

  /** A path without separators is its own file name. */
  lemma FileNameOfBareName(s: string)
    requires NoSeparator(s)
    ensures FileName(s) == s
  {
  }

  lemma ExtensionExamples()
    ensures Extension("main.py") == ".py"
    ensures Extension("util.go") == ".go"
  {
    assert ScanExtension("main.py", 5) == ".py";
    assert ScanExtension("main.py", 6) == ".py";
    assert ScanExtension("util.go", 5) == ".go";
    assert ScanExtension("util.go", 6) == ".go";
  }

  /** No '.' gives no extension; nor does a '.' at the very end. */
  lemma NoExtensionExamples()
    ensures Extension("Makefile") == ""
    ensures Extension("notes.") == ""
  {
    var mk := "Makefile";
    assert forall j :: 0 <= j < |mk| ==> mk[j] != '.';
    var n := "notes.";
    assert n[|n| - 1] == '.';
  }

  lemma FileNameExample()
    ensures FileName("main.py") == "main.py"
    ensures FileName("util.go") == "util.go"
  {
    FileNameOfBareName("main.py");
    FileNameOfBareName("util.go");
  }

  lemma FileNameWithoutExtensionExample()
    ensures FileNameWithoutExtension("demo.sln") == "demo"
  {
    var d := "demo.sln";
    assert LastDot(d, 0, 8) == 4;
    assert SegmentStart(d, 8) == 0;
    assert d[0..4] == "demo";
  }
}
