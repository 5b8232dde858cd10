/** The file-name filter applied to profile-photo uploads (allowed_file in
    app.py), against the ALLOWED_EXTENSIONS of the configuration. */
module Uploads {
  import opened Common
  import Config

  /** Position of the last '.' of `s`, the split point of `s.rsplit('.', 1)`. */
  function LastDot(s: string): (r: Option<nat>)
    ensures r.Some? ==> r.value < |s| && s[r.value] == '.'
    ensures r.Some? ==> forall j :: r.value < j < |s| ==> s[j] != '.'
    ensures r.None? <==> '.' !in s
  {
    if s == [] then None
    else if s[|s| - 1] == '.' then Some(|s| - 1)
    else
      var r := LastDot(s[..|s| - 1]);
      assert s == s[..|s| - 1] + [s[|s| - 1]];
      r
  }

  /** `i` is the position of the last '.' of `s`. */
  predicate IsLastDot(s: string, i: int) {
    0 <= i < |s| && s[i] == '.' && forall j :: i < j < |s| ==> s[j] != '.'
  }

  /** `'.' in filename and filename.rsplit('.', 1)[1].lower() in ALLOWED_EXTENSIONS` */
  function AllowedFile(filename: string): (ok: bool)
    ensures ok <==> exists i :: IsLastDot(filename, i) && Lower(filename[i + 1..]) in Config.ALLOWED_EXTENSIONS
  {
    match LastDot(filename)
    case None =>
      NoLastDot(filename);
      false
    case Some(i) =>
      LastDotDecides(filename, i);
      Lower(filename[i + 1..]) in Config.ALLOWED_EXTENSIONS
  }

  lemma NoLastDot(s: string)
    requires '.' !in s
    ensures forall i :: !IsLastDot(s, i)
  {
  }

  /** Once the last '.' is known, the existential of AllowedFile's contract
      is decided by the text after it. */
  lemma LastDotDecides(s: string, i: nat)
    requires i < |s| && s[i] == '.' && forall j :: i < j < |s| ==> s[j] != '.'
    ensures (exists k :: IsLastDot(s, k) && Lower(s[k + 1..]) in Config.ALLOWED_EXTENSIONS)
            <==> Lower(s[i + 1..]) in Config.ALLOWED_EXTENSIONS
  {
    assert IsLastDot(s, i);
    LastDotUnique(s, i);
  }

  lemma LastDotUnique(s: string, i: nat)
    requires IsLastDot(s, i)
    ensures forall k :: IsLastDot(s, k) ==> k == i
  {
  }

  /** The verdict depends only on the text after the last '.'. */
  lemma {:induction false} AllowedFileByLastExtension(stem: string, ext: string)
    requires '.' !in ext
    ensures AllowedFile(stem + "." + ext) <==> Lower(ext) in Config.ALLOWED_EXTENSIONS
  {
    var f := stem + "." + ext;
    var i := |stem|;
    assert f[i] == '.';
    assert f[i + 1..] == ext;
    forall j | i < j < |f| ensures f[j] != '.' {
      assert f[j] == ext[j - i - 1];
    }
    assert IsLastDot(f, i);
    LastDotUnique(f, i);
  }

  /** Upper-case extensions pass. */
  lemma UpperCaseExtensionAllowed()
    ensures AllowedFile("x.PNG")
  {
    assert "x.PNG" == "x" + "." + "PNG";
    assert Lower("PNG") == "png";
    AllowedFileByLastExtension("x", "PNG");
  }

  /** A double extension is judged by its last part only. */
  lemma DoubleExtensionRejected()
    ensures !AllowedFile("a.png.exe")
  {
    assert "a.png.exe" == "a.png" + "." + "exe";
    assert Lower("exe") == "exe";
    assert "exe"[0] !in {'p', 'j', 'g'};
    assert "exe" !in Config.ALLOWED_EXTENSIONS;
    AllowedFileByLastExtension("a.png", "exe");
  }

  /** A name without '.' never passes, even when it spells an extension. */
  lemma NoDotRejected(filename: string)
    requires '.' !in filename
    ensures !AllowedFile(filename)
  {
    NoLastDot(filename);
  }
}
