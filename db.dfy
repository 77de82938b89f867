/** The PostgreSQL database the scan writes to, as one object holding its
    three tables. Whether a call finds a connection and whether its
    statement succeeds is the `DbCall` parameter; the fresh identifiers the
    code generates (work id, document id) are parameters too. */
module Db {
  import opened Common
  import opened EmailRecords
  import opened DocumentRecords
  import opened ScannerState

  /** How insert_email_to_database ends: it returns the work id, returns
      None after a rolled-back statement, or raises. It raises when the
      connection is missing: `conn.cursor()` fails before `work_id` is
      bound, and the handler's own log line then reads the unbound name. */
  datatype InsertOutcome = Stored(workId: string) | NotStored | Raised(message: string)

  class Database {
    var emails: seq<EmailRow>
    var documents: seq<DocumentRow>
    var scanner: seq<ScannerRow>

    constructor (emails: seq<EmailRow>, documents: seq<DocumentRow>, scanner: seq<ScannerRow>)
      ensures this.emails == emails && this.documents == documents && this.scanner == scanner
    {
      this.emails := emails;
      this.documents := documents;
      this.scanner := scanner;
    }

    /** insert_email_to_database: one committed INSERT of the normalised row
        under the fresh work id, or no row at all. A message without a
        recipient never reaches the INSERT (see `Recordable`). */
    method InsertEmail(data: EmailData, entityId: string, workId: string, call: DbCall) returns (outcome: InsertOutcome)
      modifies this
      ensures call == Completed && Recordable(data) ==>
        outcome == Stored(workId) && emails == old(emails) + [BuildEmailRow(data, workId, entityId)]
      ensures call == Completed && !Recordable(data) ==> outcome == NotStored && emails == old(emails)
      ensures call == StatementError ==> outcome == NotStored && emails == old(emails)
      ensures call == NoConnection ==> outcome.Raised? && emails == old(emails)
      ensures documents == old(documents) && scanner == old(scanner)
    {
      match call
      case NoConnection =>
        outcome := Raised("cannot access local variable 'work_id' where it is not associated with a value");
      case StatementError =>
        outcome := NotStored;
      case Completed =>
        if !Recordable(data) {
          outcome := NotStored;
        } else {
          emails := emails + [BuildEmailRow(data, workId, entityId)];
          outcome := Stored(workId);
        }
    }

    /** insert_document_to_database: the row for one uploaded attachment, or
        None when the file name has no supported type, the connection is
        missing or the statement fails; nothing is written then. */
    method InsertDocument(workId: string, fileName: Option<string>, fileSize: Option<int>, contentType: Option<string>,
                          s3Url: string, documentId: string, call: DbCall) returns (id: Option<string>)
      modifies this
      ensures id.Some? <==> call == Completed && BuildDocumentRow(documentId, workId, fileName, fileSize, contentType, s3Url).Ok?
      ensures id.Some? ==> id.value == documentId
      ensures id.Some? ==>
        documents == old(documents) + [BuildDocumentRow(documentId, workId, fileName, fileSize, contentType, s3Url).value]
      ensures id.None? ==> documents == old(documents)
      ensures emails == old(emails) && scanner == old(scanner)
    {
      if call != Completed {
        return None;
      }
      var row := BuildDocumentRow(documentId, workId, fileName, fileSize, contentType, s3Url);
      if row.Err? {
        return None;
      }
      documents := documents + [row.value];
      id := Some(documentId);
    }

    /** update_scanner_state_in_db: the committed upsert, reporting True;
        a missing connection or a failing statement rolls back and reports
        False. */
    method UpdateScannerState(key: ScannerKey, timestamp: string, emailId: string, scanCount: int, status: string, call: DbCall)
      returns (ok: bool)
      modifies this
      ensures ok <==> call == Completed
      ensures ok ==> scanner == Upsert(old(scanner), key, timestamp, emailId, scanCount, status)
      ensures !ok ==> scanner == old(scanner)
      ensures emails == old(emails) && documents == old(documents)
    {
      if call != Completed {
        return false;
      }
      scanner := Upsert(scanner, key, timestamp, emailId, scanCount, status);
      ok := true;
    }
  }
}
