/** The `invoice_documents` table: how an uploaded attachment becomes a
    row (db/insert_document.py). */
module DocumentRecords {
  import opened Common
  import DocumentType

  const InvoiceType := "INVOICE"
  const OcrPending := "PENDING"

  /** One row of `invoice_documents`. */
  datatype DocumentRow = DocumentRow(
    documentId: string,
    workId: string,
    fileName: string,
    fileSize: Option<int>,
    documentType: string,
    isPrimary: bool,
    s3Url: string,
    ocrStatus: string)

  /** `document_type == 'INVOICE' and 'pdf' in content_type.lower()`: the
      content type is read only for the invoice type, and reading a missing
      one raises. */
  function PrimaryFlag(documentType: string, contentType: Option<string>): (r: Result<bool>)
    ensures documentType != InvoiceType ==> r == Ok(false)
  {
    if documentType != InvoiceType then Ok(false)
    else if contentType.None? then Err("'NoneType' object has no attribute 'lower'")
    else Ok(Contains(Lower(contentType.value), "pdf"))
  }

  /** The row insert_document_to_database writes, or the exception it
      catches on the way (a missing file name, an unsupported extension). */
  function BuildDocumentRow(documentId: string, workId: string, fileName: Option<string>, fileSize: Option<int>,
                            contentType: Option<string>, s3Url: string): (r: Result<DocumentRow>)
    ensures r.Ok? <==> fileName.Some? && DocumentType.GetDocumentType(fileName.value).Ok?
    ensures r.Ok? ==> r.value.documentType in DocumentType.DocTypes && "." + r.value.documentType == DocumentType.Extension(fileName.value)
    ensures r.Ok? ==> !r.value.isPrimary && r.value.ocrStatus == OcrPending
    ensures r.Ok? ==> r.value.documentId == documentId && r.value.workId == workId && r.value.s3Url == s3Url
  {
    match fileName
    case None => Err("expected str, bytes or os.PathLike object, not NoneType")
    case Some(name) =>
      match DocumentType.GetDocumentType(name)
      case Err(m) => Err(m)
      case Ok(documentType) =>
        DocumentType.NeverInvoice(name);
        match PrimaryFlag(documentType, contentType)
        case Err(m) => Err(m)
        case Ok(isPrimary) => Ok(DocumentRow(documentId, workId, name, fileSize, documentType, isPrimary, s3Url, OcrPending))
  }

  /** is_primary is false for every type the mapping yields, whatever the
      content type, a missing one included (it is never inspected). */
  lemma NeverPrimary(fileName: string, contentType: Option<string>)
    requires DocumentType.GetDocumentType(fileName).Ok?
    ensures PrimaryFlag(DocumentType.GetDocumentType(fileName).value, contentType) == Ok(false)
  {
    DocumentType.NeverInvoice(fileName);
  }
}
