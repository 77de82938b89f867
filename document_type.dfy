/** The allow-list that turns an attachment's file name into a document
    type (utils/document_type.py). */
module DocumentType {
  import opened Common

  /** MIME_EXTENSION_TO_DOC_TYPE: every allowed extension maps to itself without the dot. */
  const ExtensionToDocType: map<string, string> := map[
    ".pdf" := "pdf", ".pdfa" := "pdfa", ".jpg" := "jpg", ".jpeg" := "jpeg", ".png" := "png",
    ".tiff" := "tiff", ".tif" := "tif", ".bmp" := "bmp", ".gif" := "gif", ".pcx" := "pcx"]

  /** The ten document types the mapping can produce. */
  const DocTypes: set<string> := {"pdf", "pdfa", "jpg", "jpeg", "png", "tiff", "tif", "bmp", "gif", "pcx"}

  /** Index of the last occurrence of c in s, if any. */
  function LastIndexOf(s: string, c: char): (r: Option<nat>)
    ensures r.Some? ==> r.value < |s| && s[r.value] == c && c !in s[r.value + 1..]
    ensures r.None? ==> c !in s
  {
    if |s| == 0 then None
    else if s[|s| - 1] == c then Some(|s| - 1)
    else
      var r := LastIndexOf(s[..|s| - 1], c);
      assert s == s[..|s| - 1] + [s[|s| - 1]];
      r
  }

  /** `Path(p).name`: the last component that is neither empty nor ".",
      since path parsing drops both; "" when there is none. */
  function BaseName(path: string): (name: string)
    ensures '/' !in name && name != "."
    decreases |path|
  {
    match LastIndexOf(path, '/')
    case None => if path == "." then "" else path
    case Some(i) =>
      var last := path[i + 1..];
      if last == "" || last == "." then BaseName(path[..i]) else last
  }

  /** `PurePath.suffix` of a final component: from its last dot, provided that
      dot is neither the first nor the last character; otherwise "". */
  function NameSuffix(name: string): (ext: string)
    ensures ext == "" || (ext[0] == '.' && 2 <= |ext| < |name| && '.' !in ext[1..] && IsSuffix(ext, name))
  {
    match LastIndexOf(name, '.')
    case Some(i) => if 0 < i < |name| - 1 then name[i..] else ""
    case None => ""
  }

  /** `Path(filename).suffix.lower()`. */
  function Extension(filename: string): string {
    Lower(NameSuffix(BaseName(filename)))
  }

  /** get_document_type_from_filename: the mapped type of the lower-cased
      extension, or the ValueError raised for anything else. */
  function GetDocumentType(filename: string): (r: Result<string>)
    ensures r.Ok? <==> Extension(filename) in ExtensionToDocType
    ensures r.Ok? ==> r.value in DocTypes && Extension(filename) == "." + r.value
    ensures r.Err? ==> r.message == "Unsupported document type: '" + Extension(filename) + "'"
  {
    var ext := Extension(filename);
    if ext in ExtensionToDocType then
      MappingShape(ext);
      Ok(ExtensionToDocType[ext])
    else Err("Unsupported document type: '" + ext + "'")
  }

  lemma MappingShape(ext: string)
    requires ext in ExtensionToDocType
    ensures ExtensionToDocType[ext] in DocTypes && ext == "." + ExtensionToDocType[ext]
  {
  }

  /** The canonical invoice type is not among the results, so no document
      can ever be flagged primary. */
  lemma NeverInvoice(filename: string)
    ensures GetDocumentType(filename) != Ok("INVOICE")
  {
  }

  lemma {:induction false} LastIndexOfAfter(s: string, t: string, c: char)
    requires |t| > 0 && t[0] == c && c !in t[1..]
    ensures LastIndexOf(s + t, c) == Some(|s|)
    decreases |t|
  {
    var u := s + t;
    if |t| == 1 {
      assert u[|u| - 1] == c;
    } else {
      assert u[|u| - 1] == t[|t| - 1] != c;
      assert u[..|u| - 1] == s + t[..|t| - 1];
      LastIndexOfAfter(s, t[..|t| - 1], c);
    }
  }

  /** A trailing separator or `.` component does not change the type:
      `x.pdf/` and `x.pdf/.` are typed like `x.pdf`. */
  lemma TrailingComponentsIgnored(path: string)
    ensures GetDocumentType(path + "/") == GetDocumentType(path)
    ensures GetDocumentType(path + "/.") == GetDocumentType(path)
  {
    LastIndexOfAfter(path, "/", '/');
    assert (path + "/")[..|path|] == path;
    assert BaseName(path + "/") == BaseName(path);
    LastIndexOfAfter(path, "/.", '/');
    assert (path + "/.")[|path| + 1..] == ".";
    assert (path + "/.")[..|path|] == path;
    assert BaseName(path + "/.") == BaseName(path);
  }

  /** For a file name with no directory part, the extension is the lower-cased
      last dotted suffix, whatever dots the stem itself contains. */
  lemma ExtensionOfName(stem: string, ext: string)
    requires |stem| > 0 && |ext| >= 2 && ext[0] == '.' && '.' !in ext[1..]
    requires '/' !in stem + ext
    ensures Extension(stem + ext) == Lower(ext)
  {
    var name := stem + ext;
    assert BaseName(name) == name;
    LastIndexOfAfter(stem, ext, '.');
    assert name[|stem|..] == ext;
  }

  /** Only the last suffix counts, in any letter case: the type of
      `stem.ext` is decided by `.ext` alone. */
  lemma LastSuffixDecides(stem: string, ext: string)
    requires |stem| > 0 && |ext| >= 2 && ext[0] == '.' && '.' !in ext[1..]
    requires '/' !in stem + ext
    ensures GetDocumentType(stem + ext) ==
      if Lower(ext) in ExtensionToDocType then Ok(ExtensionToDocType[Lower(ext)])
      else Err("Unsupported document type: '" + Lower(ext) + "'")
  {
    ExtensionOfName(stem, ext);
  }

  /** `a.zip.pdf` is a pdf. */
  lemma InnerSuffixIgnored()
    ensures GetDocumentType("a.zip.pdf") == Ok("pdf")
  {
    assert "a.zip.pdf" == "a.zip" + ".pdf";
    assert Lower(".pdf") == ".pdf";
    LastSuffixDecides("a.zip", ".pdf");
  }

  /** `a.pdf.zip` is rejected. */
  lemma OuterSuffixDecides()
    ensures GetDocumentType("a.pdf.zip").Err?
  {
    assert "a.pdf.zip" == "a.pdf" + ".zip";
    assert Lower(".zip") == ".zip";
    assert ".zip" !in ExtensionToDocType by {
      assert forall k :: k in ExtensionToDocType ==> k[1] != 'z';
    }
    LastSuffixDecides("a.pdf", ".zip");
  }

  /** `SCAN.PDF` is a pdf. */
  lemma UpperCaseAccepted()
    ensures GetDocumentType("SCAN.PDF") == Ok("pdf")
  {
    assert "SCAN.PDF" == "SCAN" + ".PDF";
    assert Lower(".PDF") == ".pdf";
    LastSuffixDecides("SCAN", ".PDF");
  }

  /** A leading dot is not a suffix: a file called `.pdf` is rejected. */
  lemma HiddenFileRejected()
    ensures GetDocumentType(".pdf").Err?
  {
    assert LastIndexOf(".pdf", '/') == None;
    assert ".pdf" == "" + ".pdf";
    LastIndexOfAfter("", ".pdf", '.');
    assert Extension(".pdf") == "";
  }
}
