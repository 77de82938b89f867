/** The `invoice_emails` table: how a message becomes a row
    (db/insert_email.py) and how the duplicate lookup reads the table
    (db/check_email.py). */
module EmailRecords {
  import opened Common

  /** Column widths the recorder truncates to. */
  const IdWidth: nat := 255
  const SubjectWidth: nat := 500
  const ProcessingStatusReceived := "RECEIVED"

  /** The `email_data` dictionary the orchestrator builds for one message;
      `ccRecipients` is the message's cc list (an entry without an address is None). */
  datatype EmailData = EmailData(
    id: string,
    conversationId: string,
    subject: string,
    sender: string,
    senderEmail: string,
    body: string,
    receivedTime: string,
    hasAttachments: bool,
    attachmentCount: int,
    recipientMailbox: seq<string>,
    ccRecipients: seq<Option<string>>)

  /** One row of `invoice_emails`. */
  datatype EmailRow = EmailRow(
    emailMessageId: string,
    emailThreadId: string,
    subject: string,
    receivedFromEmail: string,
    receivedFromName: string,
    receivedToEmail: string,
    ccEmails: seq<string>,
    bodyText: string,
    bodyHtml: string,
    sentAt: string,
    receivedAt: string,
    processingStatus: string,
    hasAttachments: bool,
    attachmentCount: int,
    workId: string,
    entityId: string)

  /** The cc column: each cc recipient's address, "" where it has none. */
  function CcEmails(cc: seq<Option<string>>): seq<string> {
    seq(|cc|, i requires 0 <= i < |cc| => cc[i].GetOr(""))
  }

  /** The first recipient, cut to the column width, or "" when there is none. */
  function FirstRecipient(recipients: seq<string>): string {
    if |recipients| > 0 then Take(recipients[0], IdWidth) else ""
  }

  /** The row insert_email_to_database writes for `data` under a fresh work id. */
  function BuildEmailRow(data: EmailData, workId: string, entityId: string): EmailRow {
    EmailRow(
      data.id,
      Take(data.conversationId, IdWidth),
      if data.subject != "" then Take(data.subject, SubjectWidth) else "",
      Take(data.senderEmail, IdWidth),
      Take(data.sender, IdWidth),
      FirstRecipient(data.recipientMailbox),
      CcEmails(data.ccRecipients),
      data.body,
      data.body,
      data.receivedTime,
      data.receivedTime,
      ProcessingStatusReceived,
      data.hasAttachments,
      data.attachmentCount,
      workId,
      entityId)
  }

  /** Whether insert_email_to_database can get past its debug line, which
      reads the first recipient without checking the list is non-empty; with
      no recipient it raises IndexError after the work id is drawn, and the
      handler rolls back and returns None. */
  predicate Recordable(data: EmailData) {
    data.recipientMailbox != []
  }

  /** What the recorder keeps of a message: the id in full; every other text
      column a prefix of its field, no longer than the column and equal to
      the field when it fits; one cc entry per cc recipient; the fixed status
      and the work id and entity id it was given. */
  lemma RowNormalisation(data: EmailData, workId: string, entityId: string)
    ensures var row := BuildEmailRow(data, workId, entityId);
      && row.emailMessageId == data.id
      && IsPrefix(row.emailThreadId, data.conversationId) && |row.emailThreadId| <= IdWidth
      && (|data.conversationId| <= IdWidth ==> row.emailThreadId == data.conversationId)
      && IsPrefix(row.subject, data.subject) && |row.subject| <= SubjectWidth
      && (|data.subject| <= SubjectWidth ==> row.subject == data.subject)
      && IsPrefix(row.receivedFromEmail, data.senderEmail) && |row.receivedFromEmail| <= IdWidth
      && (|data.conversationId| > IdWidth ==> |row.emailThreadId| == IdWidth)
      && (|data.subject| > SubjectWidth ==> |row.subject| == SubjectWidth)
      && (|data.senderEmail| <= IdWidth ==> row.receivedFromEmail == data.senderEmail)
      && (|data.senderEmail| > IdWidth ==> |row.receivedFromEmail| == IdWidth)
      && IsPrefix(row.receivedFromName, data.sender) && |row.receivedFromName| <= IdWidth
      && (|data.sender| <= IdWidth ==> row.receivedFromName == data.sender)
      && (|data.sender| > IdWidth ==> |row.receivedFromName| == IdWidth)
      && (data.recipientMailbox == [] ==> row.receivedToEmail == "")
      && (data.recipientMailbox != [] ==> IsPrefix(row.receivedToEmail, data.recipientMailbox[0]) && |row.receivedToEmail| <= IdWidth)
      && (data.recipientMailbox != [] && |data.recipientMailbox[0]| <= IdWidth ==> row.receivedToEmail == data.recipientMailbox[0])
      && (data.recipientMailbox != [] && |data.recipientMailbox[0]| > IdWidth ==> |row.receivedToEmail| == IdWidth)
      && |row.ccEmails| == |data.ccRecipients|
      && (forall i :: 0 <= i < |data.ccRecipients| ==> row.ccEmails[i] == if data.ccRecipients[i].Some? then data.ccRecipients[i].value else "")
      && row.bodyText == row.bodyHtml == data.body
      && row.sentAt == row.receivedAt == data.receivedTime
      && row.processingStatus == "RECEIVED"
      && row.workId == workId && row.entityId == entityId
  {
  }

  /** The query's `EXISTS`: whether some row carries exactly `key`. */
  function HasRow(rows: seq<EmailRow>, key: string): (found: bool)
    ensures found <==> exists i :: 0 <= i < |rows| && rows[i].emailMessageId == key
  {
    if |rows| == 0 then false
    else rows[0].emailMessageId == key || HasRow(rows[1..], key)
  }

  /** check_email: whether some stored row's message id equals the first
      255 characters of `id`. Fail-open: without a connection, or when the
      query raises, the answer is "not stored". An id that fits the column is
      looked up as it is; a longer one can only match a row holding exactly
      its first 255 characters. */
  function CheckEmail(rows: seq<EmailRow>, id: string, call: DbCall): (exists_: bool)
    ensures call != Completed ==> !exists_
    ensures call == Completed && |id| <= IdWidth ==>
      (exists_ <==> exists i :: 0 <= i < |rows| && rows[i].emailMessageId == id)
    ensures call == Completed && |id| > IdWidth ==>
      (exists_ <==> exists i :: 0 <= i < |rows| && |rows[i].emailMessageId| == IdWidth && IsPrefix(rows[i].emailMessageId, id))
  {
    var found := call == Completed && HasRow(rows, Take(id, IdWidth));
    found
  }

  /** A message whose id fits the column is found once it has been recorded. */
  lemma RecordedShortIdFound(rows: seq<EmailRow>, data: EmailData, workId: string, entityId: string)
    requires |data.id| <= IdWidth
    ensures CheckEmail(rows + [BuildEmailRow(data, workId, entityId)], data.id, Completed)
  {
    var all := rows + [BuildEmailRow(data, workId, entityId)];
    assert all[|rows|].emailMessageId == Take(data.id, IdWidth);
  }

  /** The insert keeps the whole id but the lookup searches for its first 255
      characters, so a recorded message with a longer id is not found
      again (unless some other row happens to carry the truncated id). */
  lemma RecordedLongIdNotFound(rows: seq<EmailRow>, data: EmailData, workId: string, entityId: string)
    requires |data.id| > IdWidth
    requires forall i :: 0 <= i < |rows| ==> rows[i].emailMessageId != Take(data.id, IdWidth)
    ensures !CheckEmail(rows + [BuildEmailRow(data, workId, entityId)], data.id, Completed)
  {
    var all := rows + [BuildEmailRow(data, workId, entityId)];
    assert |all[|rows|].emailMessageId| != |Take(data.id, IdWidth)|;
    assert forall i :: 0 <= i < |all| ==> all[i].emailMessageId != Take(data.id, IdWidth) by {
      forall i | 0 <= i < |all| ensures all[i].emailMessageId != Take(data.id, IdWidth) {
        if i < |rows| {
          assert all[i] == rows[i];
        }
      }
    }
  }
}
