/** The scan orchestrator (service/fetch_email.py): one run over one
    mailbox folder. It pages through the message listing, skips replies and
    forwards, tracks the latest received time, filters duplicates, records
    each new message, uploads its attachments, publishes its work id, and
    finally writes the watermark row once.

    Everything the run cannot see in advance is an Env: whether
    authentication succeeds, the two folder listings, the outcome of the
    watermark lookup, "now" in minutes, ISO-timestamp parsing (None when
    it raises), the responses to the successive GET requests of the
    listing, and, per message (page index, position on the page), the
    duplicate lookup's and the insert's storage outcome, the fresh work
    id, the attachment outcomes and whether the publish succeeds. The
    listing responses are a finite script: a GET beyond its end fails,
    which is how a listing that never ends surfaces here. */
module FetchEmail {
  import opened Common
  import opened Settings
  import opened PushS3
  import opened EmailRecords
  import opened DocumentRecords
  import opened ScannerState
  import opened Db
  import opened Attachments
  import FolderId

  /** The fallback window when no watermark is stored: seven days. */
  const DefaultLookbackMinutes: int := 7 * 24 * 60
  /** The safety margin taken off whichever bound is used. */
  const OverlapMinutes: int := 30
  const OrderBy := "receivedDateTime desc"

  /** `emailAddress` of the sender; a missing key reads as "". */
  datatype Mailbox = Mailbox(name: string, address: string)

  /** One message summary of the listing. A missing key reads as the code's
      default (`""`, `[]`, `False`, `{}`); `subject` and `sender` are None
      when the JSON value is null, which makes the code raise. Each
      recipient entry is its address, None when it has none. */
  datatype Message = Message(
    id: string,
    subject: Option<string>,
    receivedDateTime: string,
    conversationId: string,
    sender: Option<Mailbox>,
    toRecipients: seq<Option<string>>,
    ccRecipients: seq<Option<string>>,
    body: string,
    hasAttachments: bool)

  /** One page of the listing: `value` and `@odata.nextLink`. */
  datatype Page = Page(value: seq<Message>, nextLink: Option<string>)

  /** The `$filter` lower bound, in minutes, and the `$orderby` clause. */
  datatype Query = Query(lowerBoundMinutes: int, orderBy: string)

  /** One GET of the listing: its URL and its parameters, if any. */
  datatype Request = Request(url: string, query: Option<Query>)

  /** The run's arguments and the configuration it reads; the two uuids the
      run generates are given. */
  datatype Args = Args(
    cfg: Config,
    folderName: string,
    userEmail: Option<string>,
    sqsQueueUrl: Option<string>,
    scannerId: string,
    entityId: string)

  datatype Env = Env(
    authenticates: bool,
    topLevelFolders: Result<seq<FolderId.Folder>>,
    inboxChildren: Result<seq<FolderId.Folder>>,
    timestampCall: DbCall,
    nowMinutes: int,
    parseMinutes: string -> Option<int>,
    pages: seq<Result<Page>>,
    duplicateCall: (nat, nat) -> DbCall,
    insertCall: (nat, nat) -> DbCall,
    workId: (nat, nat) -> string,
    attachments: (nat, nat) -> AttachmentEnv,
    publishOk: (nat, nat) -> bool,
    scannerCall: DbCall)

  /** The six counters of a run. */
  datatype Counters = Counters(
    pages: nat,
    newEmails: nat,
    duplicatesSkipped: nat,
    attachmentsUploaded: nat,
    sqsSent: nat,
    failedEmails: nat)

  const NoCounters := Counters(0, 0, 0, 0, 0, 0)

  /** last_timestamp and last_email_id; "" stands for None. Every code path
      that finds the timestamp falsy overwrites both, so the two encodings
      behave alike. */
  datatype Tracked = Tracked(timestamp: string, emailId: string)

  const NotTracked := Tracked("", "")

  /** The run's local state, and the GET requests issued so far. */
  datatype Progress = Progress(counters: Counters, tracked: Tracked, results: seq<EmailData>, requests: seq<Request>)

  /** Local state together with the stores a message can change. */
  datatype Scan = Scan(emails: seq<EmailRow>, documents: seq<DocumentRow>, objects: seq<S3Object>, progress: Progress)

  /** The page loop's end: the state reached, and whether it ended by an
      exception (a failed GET) rather than by running out of pages. */
  datatype Outcome = Outcome(scan: Scan, failed: bool)

  /** What the setup phase computes: the listing URL and its query. */
  datatype Plan = Plan(baseUrl: string, query: Query)

  /** A whole run: the returned list, the final state, the scanner table
      after the watermark write, and whether an exception ended it. */
  datatype RunOutcome = RunOutcome(results: seq<EmailData>, scan: Scan, scanner: seq<ScannerRow>, failed: bool)

  // ---------------------------------------------------------------------
  // One message

  /** `re.search(r'^(RE:|FW:)', subject, re.IGNORECASE)` */
  predicate IsReplyOrForward(subject: string) {
    |subject| >= 3 && Lower(subject[..3]) in {"re:", "fw:"}
  }

  /** Whether a message gets past the subject filter, and so is tracked. A
      null subject makes the filter raise, which ends the message there. */
  predicate Tracks(m: Message) {
    m.subject.Some? && !IsReplyOrForward(m.subject.value)
  }

  /** Lines 110-112: take the message's pair when nothing is tracked yet or
      its received time is strictly later. Untracked messages change nothing. */
  function Track(t: Tracked, m: Message): Tracked {
    if !Tracks(m) then t
    else if t.timestamp == "" || LexLess(t.timestamp, m.receivedDateTime) then Tracked(m.receivedDateTime, m.id)
    else t
  }

  /** The recipients' addresses, keeping only the truthy ones, in order. */
  function Recipients(to: seq<Option<string>>): (r: seq<string>)
    ensures |r| <= |to|
    ensures forall j :: 0 <= j < |r| ==> r[j] != "" && Some(r[j]) in to
    ensures forall j :: 0 <= j < |to| && Truthy(to[j]) ==> to[j].value in r
    ensures r == [] <==> forall j :: 0 <= j < |to| ==> !Truthy(to[j])
    ensures r != [] ==> exists k :: 0 <= k < |to| && Truthy(to[k]) && r[0] == to[k].value &&
                                    forall j :: 0 <= j < k ==> !Truthy(to[j])
  {
    if |to| == 0 then []
    else
      var rest := Recipients(to[1..]);
      assert forall j :: 1 <= j < |to| ==> to[j] == to[1..][j - 1];
      if Truthy(to[0]) then [to[0].value] + rest
      else
        assert rest != [] ==> exists k :: 1 <= k < |to| && Truthy(to[k]) && rest[0] == to[k].value &&
                                          forall j :: 0 <= j < k ==> !Truthy(to[j]) by {
          if rest != [] {
            var k' :| 0 <= k' < |to[1..]| && Truthy(to[1..][k']) && rest[0] == to[1..][k'].value &&
                      forall j :: 0 <= j < k' ==> !Truthy(to[1..][j]);
            assert Truthy(to[k' + 1]) && rest[0] == to[k' + 1].value;
            assert forall j :: 0 <= j < k' + 1 ==> !Truthy(to[j]) by {
              forall j | 0 <= j < k' + 1 ensures !Truthy(to[j]) {
                if j > 0 { assert to[j] == to[1..][j - 1]; }
              }
            }
          }
        }
        rest
  }

  /** The list is built entry by entry: the recipients of two lists one after
      the other are those of the first followed by those of the second, so
      every truthy address is kept once, in its place. */
  lemma {:induction false} RecipientsAppend(a: seq<Option<string>>, b: seq<Option<string>>)
    ensures Recipients(a + b) == Recipients(a) + Recipients(b)
    decreases |a|
  {
    if |a| > 0 {
      assert (a + b)[0] == a[0];
      assert (a + b)[1..] == a[1..] + b;
      RecipientsAppend(a[1..], b);
    } else {
      assert a + b == b;
    }
  }

  /** One entry gives its address when it is truthy, nothing otherwise. */
  lemma RecipientsSingle(x: Option<string>)
    ensures Recipients([x]) == if Truthy(x) then [x.value] else []
  {
    assert [x][1..] == [];
  }

  /** Whether some to-recipient has a truthy address, that is, whether the
      recipient list the recorder receives is non-empty. */
  predicate Addressed(m: Message) {
    exists j :: 0 <= j < |m.toRecipients| && Truthy(m.toRecipients[j])
  }

  /** The `email_data` dictionary of a message, attachment_count 0. */
  function EmailDataOf(m: Message): EmailData
    requires m.subject.Some? && m.sender.Some?
  {
    EmailData(m.id, m.conversationId, m.subject.value, m.sender.value.name, m.sender.value.address, m.body,
              m.receivedDateTime, m.hasAttachments, 0, Recipients(m.toRecipients), m.ccRecipients)
  }

  /** The body of the message loop (lines 98-227) for message m at
      position i of page k. */
  function MsgStep(args: Args, env: Env, sc: Scan, k: nat, i: nat, m: Message): (r: Scan)
    ensures r.progress.tracked == Track(sc.progress.tracked, m)
    ensures r.progress.counters.pages == sc.progress.counters.pages
    ensures r.progress.requests == sc.progress.requests
  {
    if !Tracks(m) then sc
    else
      var p := sc.progress.(tracked := Track(sc.progress.tracked, m));
      var c := p.counters;
      if CheckEmail(sc.emails, m.id, env.duplicateCall(k, i)) then
        sc.(progress := p.(counters := c.(duplicatesSkipped := c.duplicatesSkipped + 1)))
      else if m.sender.None? then
        sc.(progress := p)
      else
        var data := EmailDataOf(m);
        var workId := env.workId(k, i);
        if env.insertCall(k, i) != Completed || !Recordable(data) then
          sc.(progress := p.(counters := c.(failedEmails := c.failedEmails + 1)))
        else
          var emails := sc.emails + [BuildEmailRow(data, workId, args.entityId)];
          if workId == "" then
            sc.(emails := emails, progress := p.(counters := c.(failedEmails := c.failedEmails + 1)))
          else
            var att := if m.hasAttachments then ProcessSpec(args.cfg, env.attachments(k, i), m.id, workId, sc.objects, sc.documents)
                       else AttState(sc.objects, sc.documents, 0);
            var c' := c.(newEmails := c.newEmails + 1,
                         attachmentsUploaded := c.attachmentsUploaded + att.count,
                         sqsSent := if env.publishOk(k, i) then c.sqsSent + 1 else c.sqsSent);
            Scan(emails, att.documents, att.objects, p.(counters := c', results := p.results + [data]))
  }

  /** The message loop over msgs[i..] of page k. */
  function MsgFold(args: Args, env: Env, sc: Scan, msgs: seq<Message>, k: nat, i: nat): (r: Scan)
    requires i <= |msgs|
    ensures r.progress.counters.pages == sc.progress.counters.pages
    ensures r.progress.requests == sc.progress.requests
    decreases |msgs| - i
  {
    if i == |msgs| then sc
    else MsgFold(args, env, MsgStep(args, env, sc, k, i, msgs[i]), msgs, k, i + 1)
  }

  // ---------------------------------------------------------------------
  // The page loop and the run

  /** The parameters go with a request exactly when its URL is the base URL. */
  function RequestFor(url: string, plan: Plan): Request {
    Request(url, if url == plan.baseUrl then Some(plan.query) else None)
  }

  /** `while url:` (lines 92-229), from state sc at URL url. */
  function PageLoop(args: Args, env: Env, sc: Scan, url: string, plan: Plan): (o: Outcome)
    decreases |env.pages| - sc.progress.counters.pages
  {
    if url == "" then Outcome(sc, false)
    else
      var k := sc.progress.counters.pages;
      var p := sc.progress.(counters := sc.progress.counters.(pages := k + 1),
                            requests := sc.progress.requests + [RequestFor(url, plan)]);
      var sc1 := sc.(progress := p);
      if k >= |env.pages| || env.pages[k].Err? then Outcome(sc1, true)
      else
        var page := env.pages[k].value;
        PageLoop(args, env, MsgFold(args, env, sc1, page.value, k, 0), page.nextLink.GetOr(""), plan)
  }

  function BaseUrl(cfg: Config, user: string, folderId: string): string {
    cfg.graphApiEndpoint + "/users/" + user + "/mailFolders/" + folderId + "/messages"
  }

  /** Lines 80-84: the stored watermark, or now minus seven days when there
      is none, less the margin; None when the stored value does not parse. */
  function LowerBound(env: Env, stored: Option<string>): Option<int> {
    match stored
    case None => Some(env.nowMinutes - DefaultLookbackMinutes - OverlapMinutes)
    case Some(s) =>
      match env.parseMinutes(s)
      case None => None
      case Some(v) => Some(v - OverlapMinutes)
  }

  /** Lines 75-88: authenticate, resolve the folder, read the watermark and
      derive the query; any failure is the exception that ends the run. */
  function Setup(args: Args, env: Env, user: string, scanner: seq<ScannerRow>): Result<Plan> {
    if !env.authenticates then Err("Graph authentication failed")
    else
      match FolderId.GetFolderId(env.topLevelFolders, env.inboxChildren, args.folderName)
      case Err(msg) => Err(msg)
      case Ok(folderId) =>
        match LowerBound(env, LastProcessedTimestamp(scanner, user, env.timestampCall))
        case None => Err("Invalid isoformat string")
        case Some(bound) => Ok(Plan(BaseUrl(args.cfg, user, folderId), Query(bound, OrderBy)))
  }

  /** Lines 232-236 and 260-264: the one watermark write, made only when
      both the tracked timestamp and id are truthy. */
  function WriteWatermark(args: Args, env: Env, user: string, scanner: seq<ScannerRow>, t: Tracked, newEmails: nat, status: string): seq<ScannerRow> {
    if t.timestamp != "" && t.emailId != "" && env.scannerCall == Completed then
      Upsert(scanner, ScannerKey(args.scannerId, args.entityId, user), t.timestamp, t.emailId, newEmails, status)
    else scanner
  }

  function Start(emails: seq<EmailRow>, documents: seq<DocumentRow>, objects: seq<S3Object>): Scan {
    Scan(emails, documents, objects, Progress(NoCounters, NotTracked, [], []))
  }

  /** fetch_new_emails_from_graph as a function of the stores. */
  function RunSpec(args: Args, env: Env, emails: seq<EmailRow>, documents: seq<DocumentRow>, objects: seq<S3Object>,
                   scanner: seq<ScannerRow>): RunOutcome
  {
    var sc0 := Start(emails, documents, objects);
    if !Truthy(args.userEmail) || !Truthy(args.sqsQueueUrl) then RunOutcome([], sc0, scanner, false)
    else
      var user := args.userEmail.value;
      match Setup(args, env, user, scanner)
      case Err(_) => RunOutcome([], sc0, WriteWatermark(args, env, user, scanner, NotTracked, 0, StatusError), true)
      case Ok(plan) =>
        var o := PageLoop(args, env, sc0, plan.baseUrl, plan);
        var p := o.scan.progress;
        var status := if o.failed then StatusError else StatusSuccess;
        RunOutcome(if o.failed then [] else p.results, o.scan,
                   WriteWatermark(args, env, user, scanner, p.tracked, p.counters.newEmails, status), o.failed)
  }

  // ---------------------------------------------------------------------
  // The imperative run

  /** The loop body for one message, on the database and the bucket. */
  method ProcessMessage(db: Database, bucket: Bucket, args: Args, env: Env, k: nat, i: nat, m: Message, p: Progress)
    returns (q: Progress)
    modifies db, bucket
    ensures Scan(db.emails, db.documents, bucket.objects, q)
         == MsgStep(args, env, Scan(old(db.emails), old(db.documents), old(bucket.objects), p), k, i, m)
    ensures db.scanner == old(db.scanner)
  {
    q := p;
    if m.subject.None? || IsReplyOrForward(m.subject.value) {
      return;
    }
    q := q.(tracked := Track(q.tracked, m));
    if CheckEmail(db.emails, m.id, env.duplicateCall(k, i)) {
      q := q.(counters := q.counters.(duplicatesSkipped := q.counters.duplicatesSkipped + 1));
      return;
    }
    if m.sender.None? {
      // Building email_data raises; the outer handler only logs.
      return;
    }
    var data := EmailDataOf(m);
    var outcome := db.InsertEmail(data, args.entityId, env.workId(k, i), env.insertCall(k, i));
    if outcome.Raised? || outcome.NotStored? || outcome.workId == "" {
      assert env.insertCall(k, i) != Completed || !Recordable(data) || env.workId(k, i) == "";
      q := q.(counters := q.counters.(failedEmails := q.counters.failedEmails + 1));
      assert db.emails == if env.insertCall(k, i) == Completed && Recordable(data) then old(db.emails) + [BuildEmailRow(data, env.workId(k, i), args.entityId)] else old(db.emails);
      return;
    }
    assert env.insertCall(k, i) == Completed && Recordable(data);
    var workId := outcome.workId;
    q := q.(counters := q.counters.(newEmails := q.counters.newEmails + 1));
    if m.hasAttachments {
      var n := ProcessAttachments(db, bucket, args.cfg, env.attachments(k, i), m.id, workId, None);
      q := q.(counters := q.counters.(attachmentsUploaded := q.counters.attachmentsUploaded + n));
    }
    if env.publishOk(k, i) {
      q := q.(counters := q.counters.(sqsSent := q.counters.sqsSent + 1));
    }
    q := q.(results := q.results + [data]);
  }

  /** fetch_new_emails_from_graph. Besides the returned list, it yields the
      counters of the completion log line and the GET requests it issued. */
  method FetchNewEmails(db: Database, bucket: Bucket, args: Args, env: Env)
    returns (results: seq<EmailData>, counters: Counters, requests: seq<Request>)
    modifies db, bucket
    ensures var o := RunSpec(args, env, old(db.emails), old(db.documents), old(bucket.objects), old(db.scanner));
      && results == o.results
      && counters == o.scan.progress.counters && requests == o.scan.progress.requests
      && db.emails == o.scan.emails && db.documents == o.scan.documents && bucket.objects == o.scan.objects
      && db.scanner == o.scanner
  {
    if !Truthy(args.userEmail) || !Truthy(args.sqsQueueUrl) {
      return [], NoCounters, [];
    }
    var user := args.userEmail.value;
    var p := Progress(NoCounters, NotTracked, [], []);
    var failed := false;
    var setup := Setup(args, env, user, db.scanner);
    ghost var scanner0 := db.scanner;
    if setup.Err? {
      failed := true;
    } else {
      var plan := setup.value;
      ghost var target := PageLoop(args, env, Start(db.emails, db.documents, bucket.objects), plan.baseUrl, plan);
      var url := plan.baseUrl;
      while url != ""
        invariant p.counters.pages <= |env.pages|
        invariant !failed
        invariant PageLoop(args, env, Scan(db.emails, db.documents, bucket.objects, p), url, plan) == target
        invariant db.scanner == scanner0
        decreases |env.pages| - p.counters.pages
      {
        ghost var before := Scan(db.emails, db.documents, bucket.objects, p);
        var k := p.counters.pages;
        p := p.(counters := p.counters.(pages := k + 1), requests := p.requests + [RequestFor(url, plan)]);
        if k >= |env.pages| || env.pages[k].Err? {
          failed := true;
          assert target == Outcome(Scan(db.emails, db.documents, bucket.objects, p), true);
          break;
        }
        var page := env.pages[k].value;
        ghost var sc1 := Scan(db.emails, db.documents, bucket.objects, p);
        var i := 0;
        while i < |page.value|
          invariant 0 <= i <= |page.value|
          invariant p.counters.pages == k + 1
          invariant MsgFold(args, env, Scan(db.emails, db.documents, bucket.objects, p), page.value, k, i)
                 == MsgFold(args, env, sc1, page.value, k, 0)
          invariant db.scanner == scanner0
        {
          p := ProcessMessage(db, bucket, args, env, k, i, page.value[i], p);
          i := i + 1;
        }
        url := page.nextLink.GetOr("");
      }
      assert target == Outcome(Scan(db.emails, db.documents, bucket.objects, p), failed);
    }
    var status := if failed then StatusError else StatusSuccess;
    if p.tracked.timestamp != "" && p.tracked.emailId != "" {
      var written := db.UpdateScannerState(ScannerKey(args.scannerId, args.entityId, user),
                                           p.tracked.timestamp, p.tracked.emailId, p.counters.newEmails, status, env.scannerCall);
    }
    results := if failed then [] else p.results;
    counters := p.counters;
    requests := p.requests;
  }
}
