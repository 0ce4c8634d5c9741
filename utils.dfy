/**
 * The upload-filename check and the display lookups of the utilities
 * module: the extension whitelist, the Bootstrap badge classes for a
 * processing status and for a HER2 status, and the `None` cases of the
 * number formatters.
 */
module Utils {
  import opened Wrappers
  import CancerClassifier

  /** `ALLOWED_EXTENSIONS`. */
  const AllowedExtensions: set<string> := {"png", "jpg", "jpeg", "tiff", "tif"}

  /**
   * Lower-casing of one character. Only ASCII letters are mapped: no
   * non-ASCII character lower-cases to a string made of the letters of an
   * allowed extension, so membership in the whitelist is the same as with
   * Python's full `str.lower`.
   */
  function LowerChar(c: char): char
  {
    if 'A' <= c <= 'Z' then (c as int - 'A' as int + 'a' as int) as char else c
  }

  function Lower(s: string): (r: string)
    ensures |r| == |s|
  {
    seq(|s|, i requires 0 <= i < |s| => LowerChar(s[i]))
  }

  /** The index of the last `.` in `s`, or -1 when there is none. */
  function LastDot(s: string): (k: int)
    ensures -1 <= k < |s|
    ensures k == -1 <==> '.' !in s
    ensures 0 <= k ==> k < |s| && s[k] == '.' && '.' !in s[k + 1..]
  {
    if s == [] then -1
    else if s[|s| - 1] == '.' then |s| - 1
    else
      var k := LastDot(s[..|s| - 1]);
      assert s[..|s| - 1] + [s[|s| - 1]] == s;
      if k == -1 then -1
      else
        assert s[k + 1..] == s[..|s| - 1][k + 1..] + [s[|s| - 1]];
        k
  }

  /** `filename.rsplit('.', 1)[1]`: the text after the last dot. */
  function Extension(filename: string): string
    requires '.' in filename
  {
    filename[LastDot(filename) + 1..]
  }

  /** A dotted filename is the text before its last dot, the dot, and the extension. */
  lemma ExtensionSplit(filename: string)
    requires '.' in filename
    ensures var e := Extension(filename);
            && '.' !in e && |e| < |filename|
            && filename == filename[..|filename| - |e| - 1] + "." + e
  {
    var k := LastDot(filename);
    assert filename == filename[..k] + "." + filename[k + 1..];
  }

  /** `allowed_file`. */
  function AllowedFile(filename: string): (ok: bool)
    ensures ok ==> '.' in filename && 3 <= |Extension(filename)| <= 4
  {
    '.' in filename && Lower(Extension(filename)) in AllowedExtensions
  }

  /** The last dot of `p + "." + e` is the one before `e` when `e` has none. */
  lemma {:induction false} LastDotOfSplit(p: string, e: string)
    requires '.' !in e
    ensures LastDot(p + "." + e) == |p|
  {
    var s := p + "." + e;
    if e == [] {
      assert s[|s| - 1] == '.';
    } else {
      var init := e[..|e| - 1];
      assert '.' !in init by {
        forall c | c in init ensures c != '.' {
          assert c in e;
        }
      }
      LastDotOfSplit(p, init);
      assert s[..|s| - 1] == p + "." + init;
      assert s[|s| - 1] == e[|e| - 1];
    }
  }

  /**
   * A filename with at least one dot is `p + "." + e` with no dot in `e`,
   * and it is accepted exactly when `e`, lower-cased, is an allowed
   * extension: only the text after the last dot is examined.
   */
  lemma AllowedFileSplit(p: string, e: string)
    requires '.' !in e
    ensures AllowedFile(p + "." + e) <==> Lower(e) in AllowedExtensions
  {
    var s := p + "." + e;
    assert s[|p|] == '.';
    LastDotOfSplit(p, e);
    assert Extension(s) == e;
  }

  /** A filename without a dot is rejected. */
  lemma NoDotRejected(filename: string)
    requires '.' !in filename
    ensures !AllowedFile(filename)
  {
  }

  /** Only the last extension counts: `scan.exe.png` is accepted and `scan.png.exe` rejected. */
  lemma LastExtensionExamples()
    ensures AllowedFile("scan.exe.png")
    ensures !AllowedFile("scan.png.exe")
  {
    AllowedFileSplit("scan.exe", "png");
    assert "scan.exe" + "." + "png" == "scan.exe.png";
    assert Lower("png") == "png";
    AllowedFileSplit("scan.png", "exe");
    assert "scan.png" + "." + "exe" == "scan.png.exe";
    assert Lower("exe") == "exe";
  }

  /** The check ignores case, accepts a bare extension and rejects an empty one. */
  lemma CaseAndEdgeExamples()
    ensures AllowedFile("SLIDE.TIF")
    ensures AllowedFile(".png")
    ensures !AllowedFile("x.")
    ensures !AllowedFile("png")
  {
    AllowedFileSplit("SLIDE", "TIF");
    assert "SLIDE" + "." + "TIF" == "SLIDE.TIF";
    assert Lower("TIF") == "tif";
    AllowedFileSplit("", "png");
    assert "" + "." + "png" == ".png";
    assert Lower("png") == "png";
    AllowedFileSplit("x", "");
    assert "x" + "." + "" == "x.";
    assert Lower("") == "";
    NoDotRejected("png");
  }

  /** `status_classes` of `get_status_badge_class`. */
  const StatusClasses: map<string, string> :=
    map["uploaded" := "bg-secondary", "processing" := "bg-warning",
        "completed" := "bg-success", "failed" := "bg-danger"]

  /** `her2_classes` of `get_her2_badge_class`. */
  const Her2Classes: map<string, string> :=
    map["positive" := "bg-danger", "negative" := "bg-success", "equivocal" := "bg-warning"]

  /** `dict.get(key, 'bg-secondary')`. */
  function Lookup(m: map<string, string>, key: string): string
  {
    if key in m then m[key] else "bg-secondary"
  }

  /** The badge for a processing status; `uploaded` and every unknown status share the neutral one. */
  function GetStatusBadgeClass(status: string): (c: string)
    ensures status == "processing" ==> c == "bg-warning"
    ensures status == "completed" ==> c == "bg-success"
    ensures status == "failed" ==> c == "bg-danger"
    ensures c == "bg-secondary" <==> status != "processing" && status != "completed" && status != "failed"
  {
    Lookup(StatusClasses, status)
  }

  /** The badge for a HER2 status; anything but the three statuses gets the neutral one. */
  function GetHer2BadgeClass(her2Status: string): (c: string)
    ensures her2Status == "positive" ==> c == "bg-danger"
    ensures her2Status == "negative" ==> c == "bg-success"
    ensures her2Status == "equivocal" ==> c == "bg-warning"
    ensures c == "bg-secondary" <==> her2Status != "positive" && her2Status != "negative" && her2Status != "equivocal"
  {
    Lookup(Her2Classes, her2Status)
  }

  /** Every status the classifier produces has a badge of its own. */
  lemma Her2BadgesDistinct(s: CancerClassifier.Her2Status, t: CancerClassifier.Her2Status)
    ensures GetHer2BadgeClass(CancerClassifier.Her2Name(s)) != "bg-secondary"
    ensures s != t ==> GetHer2BadgeClass(CancerClassifier.Her2Name(s)) != GetHer2BadgeClass(CancerClassifier.Her2Name(t))
  {
  }

  /**
   * What a formatter shows: a fixed text, or a number rendered with a
   * Python format specification and a suffix (the rendering itself is
   * float formatting and not modelled).
   */
  datatype Shown = Text(text: string) | Number(value: real, spec: string, suffix: string)

  /** `format_confidence`. */
  function FormatConfidence(confidence: Option<real>): (r: Shown)
    ensures r == Text("N/A") <==> confidence.None?
    ensures confidence.Some? ==> r == Number(confidence.value, ".1%", "")
  {
    match confidence
    case None => Text("N/A")
    case Some(c) => Number(c, ".1%", "")
  }

  /** `format_percentage`. */
  function FormatPercentage(percentage: Option<real>): (r: Shown)
    ensures r == Text("N/A") <==> percentage.None?
    ensures percentage.Some? ==> r == Number(percentage.value, ".1f", "%")
  {
    match percentage
    case None => Text("N/A")
    case Some(p) => Number(p, ".1f", "%")
  }
}
