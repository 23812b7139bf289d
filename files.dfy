/**
 * Attachments and the rules that decide how a file is previewed. The same
 * definitions appear in the bill screen and in the purchase-order screen;
 * they are modelled once here.
 */
module Files {
  import opened Js

  /** An attachment row; `size` and `date` are display strings. */
  datatype AttachmentFile = AttachmentFile(name: string, size: string, date: string, fileType: string, previewUrl: Option<string>)

  /**
   * A file the user picked. `sizeLabel` stands for the formatted size and
   * `objectUrl` for the URL the browser creates for it.
   */
  datatype PickedFile = PickedFile(name: string, sizeLabel: string, fileType: string, objectUrl: string)

  /** The file held by an open preview. */
  datatype PreviewFile = PreviewFile(url: string, fileType: string, name: string)

  const WordExtensions: seq<string> := ["doc", "docx", "docm", "dot", "dotx", "dotm", "rtf"]
  const DocxFamily: seq<string> := ["docx", "docm", "dotx", "dotm"]

  /**
   * The lower-cased text after the last dot of a file name, or the whole
   * lower-cased name when it has no dot.
   */
  function FileExtension(name: string): (r: string)
    ensures '.' !in r
    ensures |r| <= |name| && r == ToLower(name)[|name| - |r|..]
    ensures '.' !in name ==> r == ToLower(name)
    ensures |r| < |name| ==> name[|name| - |r| - 1] == '.'
  {
    var lower := ToLower(name);
    assert forall i :: 0 <= i < |name| ==> (lower[i] == '.' <==> name[i] == '.');
    AfterLast(lower, '.')
  }

  predicate IsPdfFile(name: string, fileType: string) {
    Contains(fileType, "pdf") || FileExtension(name) == "pdf"
  }

  predicate IsWordFile(name: string) {
    FileExtension(name) in WordExtensions
  }

  predicate IsImageFile(fileType: string) {
    StartsWith(fileType, "image/")
  }

  predicate IsPreviewableFile(name: string, fileType: string) {
    IsImageFile(fileType) || IsPdfFile(name, fileType) || IsWordFile(name)
  }

  /** A name whose extension is upper case is classified as its lower-case form. */
  lemma ExtensionIgnoresCase(name: string)
    ensures FileExtension(name) == FileExtension(ToLower(name))
  {
    var lower := ToLower(name);
    assert ToLower(lower) == lower by {
      forall i | 0 <= i < |lower| ensures ToLower(lower)[i] == lower[i] {
        assert LowerChar(LowerChar(name[i])) == LowerChar(name[i]);
      }
    }
  }

  /** Every docx-family extension is a Word extension. */
  lemma DocxFamilyIsWord(ext: string)
    requires ext in DocxFamily
    ensures ext in WordExtensions
  {
  }

  /** What a click on an attachment opens: a preview only for a previewable file that has a URL. */
  function PreviewFor(file: AttachmentFile): (r: Option<PreviewFile>)
    ensures r.Some? <==> Truthy(file.previewUrl) && IsPreviewableFile(file.name, file.fileType)
    ensures r.Some? ==> r.value == PreviewFile(file.previewUrl.value, file.fileType, file.name)
  {
    if !Truthy(file.previewUrl) then None
    else if !IsPreviewableFile(file.name, file.fileType) then None
    else Some(PreviewFile(file.previewUrl.value, file.fileType, file.name))
  }

  /** The attachment rows for newly picked files, in the order they were picked. */
  function NewAttachments(files: seq<PickedFile>, time: string): (r: seq<AttachmentFile>)
    ensures |r| == |files|
    ensures forall i :: 0 <= i < |files| ==>
              r[i] == AttachmentFile(files[i].name, files[i].sizeLabel, time, files[i].fileType, Some(files[i].objectUrl))
  {
    seq(|files|, i requires 0 <= i < |files| =>
      AttachmentFile(files[i].name, files[i].sizeLabel, time, files[i].fileType, Some(files[i].objectUrl)))
  }

  /** How the document viewer renders a file. */
  datatype DocRendering = CannotPreview | DocxRenderer | GenericDocViewer

  /** How the preview pane renders a file. */
  datatype PreviewRendering = ImageView | PdfView | DocView(doc: DocRendering)

  /** The document viewer's choice: non-Word files cannot be shown; the docx family is rendered locally. */
  function DocRenderingFor(name: string): (r: DocRendering)
    ensures r == CannotPreview <==> !IsWordFile(name)
    ensures r == DocxRenderer <==> FileExtension(name) in DocxFamily
  {
    var ext := FileExtension(name);
    if ext !in WordExtensions then CannotPreview
    else if ext in DocxFamily then DocxRenderer
    else GenericDocViewer
  }

  /** The preview pane checks image first, then PDF, then hands the file to the document viewer. */
  function RenderingFor(p: PreviewFile): (r: PreviewRendering)
    ensures r == ImageView <==> IsImageFile(p.fileType)
    ensures r == PdfView <==> !IsImageFile(p.fileType) && IsPdfFile(p.name, p.fileType)
    ensures r.DocView? ==> r.doc == DocRenderingFor(p.name)
  {
    if IsImageFile(p.fileType) then ImageView
    else if IsPdfFile(p.name, p.fileType) then PdfView
    else DocView(DocRenderingFor(p.name))
  }

  /** A preview opened by clicking an attachment never reaches the "cannot preview" branch. */
  lemma ClickedPreviewIsRenderable(file: AttachmentFile)
    requires PreviewFor(file).Some?
    ensures RenderingFor(PreviewFor(file).value) != DocView(CannotPreview)
  {
  }

  /**
   * A name is classified by the lower-cased text after its last dot,
   * whatever comes before it; a PDF is also recognised by its MIME type
   * containing "pdf", and an image only by its MIME type.
   */
  lemma ClassifiedByLastSegment(p: string, q: string, t: string)
    requires '.' !in q
    ensures FileExtension(p + "." + q) == ToLower(q)
    ensures IsWordFile(p + "." + q) <==> ToLower(q) in WordExtensions
    ensures IsPdfFile(p + "." + q, t) <==> (exists i :: OccursAt(t, "pdf", i)) || ToLower(q) == "pdf"
    ensures IsImageFile(t) <==> |t| >= 6 && t[..6] == "image/"
    ensures IsPreviewableFile(p + "." + q, t)
        <==> IsImageFile(t) || (exists i :: OccursAt(t, "pdf", i)) || ToLower(q) == "pdf" || ToLower(q) in WordExtensions
  {
    var name := p + "." + q;
    assert ToLower(name) == ToLower(p) + ['.'] + ToLower(q);
    assert '.' !in ToLower(q) by {
      forall i | 0 <= i < |q| ensures ToLower(q)[i] != '.' {
        assert q[i] != '.';
      }
    }
    AfterLastOfSplit(ToLower(p), '.', ToLower(q));
    ContainsIff(t, "pdf");
  }

  /** An upper-case extension after several dots is classified by its last segment. */
  lemma PdfExtensionExample()
    ensures FileExtension("Report.Final.PDF") == "pdf"
  {
    assert ToLower("Report.Final.PDF") == "report.final" + ['.'] + "pdf";
    AfterLastOfSplit("report.final", '.', "pdf");
  }

  /** A name without a dot is its own extension; a name ending in a dot has an empty one. */
  lemma DotlessAndTrailingDotExamples()
    ensures FileExtension("README") == "readme"
    ensures FileExtension("archive.") == ""
  {
    assert ToLower("README") == "readme";
    AfterLastWithoutSeparator("readme", '.');
    assert ToLower("archive.") == "archive" + ['.'] + "";
    AfterLastOfSplit("archive", '.', "");
  }

  /** An upper-case Word extension is recognised. */
  lemma WordExtensionExample()
    ensures IsWordFile("notes.DOCX")
  {
    assert ToLower("notes.DOCX") == "notes" + ['.'] + "docx";
    AfterLastOfSplit("notes", '.', "docx");
  }
}

/** The expand/collapse rule shared by accordions and by the modal switch. */
module Expansion {
  import opened Js

  /** Clicking `id`: collapses it when it is the expanded one, otherwise expands it in place of any other. */
  function Toggle<T(==)>(current: Option<T>, id: T): (r: Option<T>)
    ensures r == None <==> current == Some(id)
    ensures r != None ==> r == Some(id)
  {
    if current == Some(id) then None else Some(id)
  }
}
