/** What a scan run guarantees, stated about the run's specification
    (module FetchEmail): the subject filter, the per-message pipeline,
    the watermark a run writes, the requests it issues and how its
    counters relate. */
module ScanProperties {
  import opened Common
  import opened EmailRecords
  import opened DocumentRecords
  import opened PushS3
  import opened ScannerState
  import opened Attachments
  import opened FetchEmail

  // ---------------------------------------------------------------------
  // The subject filter

  /** The filter looks at the first three characters only: "re" or "fw" in
      any letter case, then a colon. */
  lemma ReplyOrForwardShape(s: string)
    ensures IsReplyOrForward(s) <==>
      |s| >= 3 && s[2] == ':' &&
      ((LowerChar(s[0]) == 'r' && LowerChar(s[1]) == 'e') || (LowerChar(s[0]) == 'f' && LowerChar(s[1]) == 'w'))
  {
    if |s| >= 3 {
      var l := Lower(s[..3]);
      assert l == [LowerChar(s[0]), LowerChar(s[1]), LowerChar(s[2])];
      assert LowerChar(s[2]) == ':' <==> s[2] == ':';
    }
  }

  /** "RE:", "Re:", "re:", "FW:" and "fw:" subjects are skipped; "Fwd:"
      and a plain subject are not. */
  lemma SubjectFilterCases(rest: string)
    ensures IsReplyOrForward("RE:" + rest) && IsReplyOrForward("Re:" + rest) && IsReplyOrForward("re:" + rest)
    ensures IsReplyOrForward("FW:" + rest) && IsReplyOrForward("fw:" + rest)
    ensures !IsReplyOrForward("Fwd:" + rest)
    ensures !IsReplyOrForward("Invoice" + rest)
  {
    ReplyOrForwardShape("RE:" + rest);
    ReplyOrForwardShape("Re:" + rest);
    ReplyOrForwardShape("re:" + rest);
    ReplyOrForwardShape("FW:" + rest);
    ReplyOrForwardShape("fw:" + rest);
    ReplyOrForwardShape("Fwd:" + rest);
    ReplyOrForwardShape("Invoice" + rest);
  }

  // ---------------------------------------------------------------------
  // One message

  /** A skipped message (a reply or forward, or one whose subject is null)
      changes nothing at all: not the watermark, not a counter, no store. */
  lemma SkippedMessageUntouched(args: Args, env: Env, sc: Scan, k: nat, i: nat, m: Message)
    requires !Tracks(m)
    ensures MsgStep(args, env, sc, k, i, m) == sc
  {
  }

  /** A duplicate only moves the watermark and counts itself: no insert, no
      attachment, no publish, no result. */
  lemma DuplicateOnlyCounted(args: Args, env: Env, sc: Scan, k: nat, i: nat, m: Message)
    requires Tracks(m) && CheckEmail(sc.emails, m.id, env.duplicateCall(k, i))
    ensures var r := MsgStep(args, env, sc, k, i, m);
      && r.emails == sc.emails && r.documents == sc.documents && r.objects == sc.objects
      && r.progress == sc.progress.(tracked := Track(sc.progress.tracked, m),
                                    counters := sc.progress.counters.(duplicatesSkipped := sc.progress.counters.duplicatesSkipped + 1))
  {
  }

  /** A message the lookup cannot see is not a duplicate (fail-open): with no
      connection or a failing query, a tracked message with a sender always
      reaches the insert, which records it when it has a recipient. */
  lemma LookupFailureReachesInsert(args: Args, env: Env, sc: Scan, k: nat, i: nat, m: Message)
    requires Tracks(m) && m.sender.Some? && env.duplicateCall(k, i) != Completed
    requires env.insertCall(k, i) == Completed
    ensures var r := MsgStep(args, env, sc, k, i, m);
      && r.progress.counters.duplicatesSkipped == sc.progress.counters.duplicatesSkipped
      && (Addressed(m) ==> r.emails == sc.emails + [BuildEmailRow(EmailDataOf(m), env.workId(k, i), args.entityId)])
      && (!Addressed(m) ==> r.emails == sc.emails && r.progress.counters.failedEmails == sc.progress.counters.failedEmails + 1)
  {
  }

  /** A sender of null makes building the record raise after the duplicate
      check: the watermark has moved, but no counter and no store. */
  lemma NullSenderCountsNothing(args: Args, env: Env, sc: Scan, k: nat, i: nat, m: Message)
    requires Tracks(m) && !CheckEmail(sc.emails, m.id, env.duplicateCall(k, i)) && m.sender.None?
    ensures MsgStep(args, env, sc, k, i, m) == sc.(progress := sc.progress.(tracked := Track(sc.progress.tracked, m)))
  {
  }

  /** A new message none of whose to-recipients has an address is never
      recorded, whatever the database does: the recorder's debug line raises
      on the empty recipient list and it returns None, which counts one
      failure and nothing else. */
  lemma NoRecipientNeverRecorded(args: Args, env: Env, sc: Scan, k: nat, i: nat, m: Message)
    requires Tracks(m) && !CheckEmail(sc.emails, m.id, env.duplicateCall(k, i)) && m.sender.Some?
    requires forall j :: 0 <= j < |m.toRecipients| ==> !Truthy(m.toRecipients[j])
    ensures MsgStep(args, env, sc, k, i, m) ==
      sc.(progress := sc.progress.(tracked := Track(sc.progress.tracked, m),
                                   counters := sc.progress.counters.(failedEmails := sc.progress.counters.failedEmails + 1)))
  {
  }

  /** An insert that yields no work id (None returned, an exception, or an
      empty id) counts one failure and skips attachments, publish and
      results; only an insert that committed leaves its row behind. */
  lemma InsertFailureCounted(args: Args, env: Env, sc: Scan, k: nat, i: nat, m: Message)
    requires Tracks(m) && !CheckEmail(sc.emails, m.id, env.duplicateCall(k, i)) && m.sender.Some?
    requires env.insertCall(k, i) != Completed || env.workId(k, i) == ""
    ensures var r := MsgStep(args, env, sc, k, i, m);
      && r.progress == sc.progress.(tracked := Track(sc.progress.tracked, m),
                                    counters := sc.progress.counters.(failedEmails := sc.progress.counters.failedEmails + 1))
      && r.documents == sc.documents && r.objects == sc.objects
      && (env.insertCall(k, i) != Completed || !Addressed(m) ==> r.emails == sc.emails)
      && (env.insertCall(k, i) == Completed && Addressed(m) ==>
            r.emails == sc.emails + [BuildEmailRow(EmailDataOf(m), env.workId(k, i), args.entityId)])
  {
  }

  /** A recorded message: counted as new, its attachments processed exactly
      when it is flagged as having some, published whatever the attachment
      outcome, and appended to the results whether or not the publish
      succeeded. (Without a recipient the insert fails instead; see
      NoRecipientNeverRecorded.) */
  lemma RecordedMessagePipeline(args: Args, env: Env, sc: Scan, k: nat, i: nat, m: Message)
    requires Tracks(m) && !CheckEmail(sc.emails, m.id, env.duplicateCall(k, i)) && m.sender.Some? && Addressed(m)
    requires env.insertCall(k, i) == Completed && env.workId(k, i) != ""
    ensures var r := MsgStep(args, env, sc, k, i, m);
      var c := sc.progress.counters;
      var att := ProcessSpec(args.cfg, env.attachments(k, i), m.id, env.workId(k, i), sc.objects, sc.documents);
      && r.emails == sc.emails + [BuildEmailRow(EmailDataOf(m), env.workId(k, i), args.entityId)]
      && r.progress.results == sc.progress.results + [EmailDataOf(m)]
      && r.progress.counters.newEmails == c.newEmails + 1
      && r.progress.counters.sqsSent == c.sqsSent + (if env.publishOk(k, i) then 1 else 0)
      && r.progress.counters.duplicatesSkipped == c.duplicatesSkipped
      && r.progress.counters.failedEmails == c.failedEmails
      && (m.hasAttachments ==> r.documents == att.documents && r.objects == att.objects
                                && r.progress.counters.attachmentsUploaded == c.attachmentsUploaded + att.count)
      && (!m.hasAttachments ==> r.documents == sc.documents && r.objects == sc.objects
                                 && r.progress.counters.attachmentsUploaded == c.attachmentsUploaded)
  {
  }

  // ---------------------------------------------------------------------
  // The tracked watermark

  /** The tracked pair after a sequence of messages, taken from t. */
  function TrackAll(t: Tracked, msgs: seq<Message>): Tracked
    decreases |msgs|
  {
    if |msgs| == 0 then t else Track(TrackAll(t, msgs[..|msgs| - 1]), msgs[|msgs| - 1])
  }

  lemma {:induction false} TrackAllAppend(t: Tracked, a: seq<Message>, b: seq<Message>)
    ensures TrackAll(TrackAll(t, a), b) == TrackAll(t, a + b)
    decreases |b|
  {
    if |b| == 0 {
      assert a + b == a;
    } else {
      TrackAllAppend(t, a, b[..|b| - 1]);
      assert (a + b)[..|a + b| - 1] == a + b[..|b| - 1];
      assert (a + b)[|a + b| - 1] == b[|b| - 1];
    }
  }

  /** On one page the tracked pair depends on the messages alone, not on
      duplicate, insert or publish outcomes. */
  lemma {:induction false} MsgFoldTracked(args: Args, env: Env, sc: Scan, msgs: seq<Message>, k: nat, i: nat)
    requires i <= |msgs|
    ensures MsgFold(args, env, sc, msgs, k, i).progress.tracked == TrackAll(sc.progress.tracked, msgs[i..])
    decreases |msgs| - i
  {
    if i == |msgs| {
      assert msgs[i..] == [];
    } else {
      var t := sc.progress.tracked;
      MsgFoldTracked(args, env, MsgStep(args, env, sc, k, i, msgs[i]), msgs, k, i + 1);
      TrackAllAppend(t, [msgs[i]], msgs[i + 1..]);
      assert [msgs[i]][..0] == [];
      assert TrackAll(t, [msgs[i]]) == Track(t, msgs[i]);
      assert [msgs[i]] + msgs[i + 1..] == msgs[i..];
    }
  }

  /** Starting from nothing, the tracked pair is the latest: its time is not
      below that of any tracked message; it belongs to the first tracked
      message with that time (the comparison is strict); and with no
      tracked message nothing is tracked. */
  lemma {:induction false} TrackedIsLatest(msgs: seq<Message>)
    ensures var r := TrackAll(NotTracked, msgs);
      && (forall j :: 0 <= j < |msgs| && Tracks(msgs[j]) ==> !LexLess(r.timestamp, msgs[j].receivedDateTime))
      && (r.timestamp != "" ==>
            exists j :: 0 <= j < |msgs| && Tracks(msgs[j]) && r == Tracked(msgs[j].receivedDateTime, msgs[j].id) &&
              forall j' :: 0 <= j' < j && Tracks(msgs[j']) ==> LexLess(msgs[j'].receivedDateTime, r.timestamp))
      && ((forall j :: 0 <= j < |msgs| ==> !Tracks(msgs[j])) ==> r == NotTracked)
    decreases |msgs|
  {
    if |msgs| > 0 {
      var n := |msgs| - 1;
      var init := msgs[..n];
      var m := msgs[n];
      var r0 := TrackAll(NotTracked, init);
      var r := TrackAll(NotTracked, msgs);
      TrackedIsLatest(init);
      assert forall j :: 0 <= j < n ==> init[j] == msgs[j];
      assert r == Track(r0, m);
      if !Tracks(m) {
        if r.timestamp != "" {
          var j :| 0 <= j < n && Tracks(init[j]) && r0 == Tracked(init[j].receivedDateTime, init[j].id) &&
            forall j' :: 0 <= j' < j && Tracks(init[j']) ==> LexLess(init[j'].receivedDateTime, r0.timestamp);
          assert Tracks(msgs[j]) && r == Tracked(msgs[j].receivedDateTime, msgs[j].id);
        }
      } else if r0.timestamp == "" {
        assert r == Tracked(m.receivedDateTime, m.id);
        LexLessIrreflexive(m.receivedDateTime);
        forall j | 0 <= j < n && Tracks(msgs[j])
          ensures msgs[j].receivedDateTime == ""
        {
          assert Tracks(init[j]);
        }
        if r.timestamp != "" {
          assert Tracks(msgs[n]) && r == Tracked(msgs[n].receivedDateTime, msgs[n].id);
        }
      } else if LexLess(r0.timestamp, m.receivedDateTime) {
        assert r == Tracked(m.receivedDateTime, m.id);
        LexLessIrreflexive(m.receivedDateTime);
        forall j | 0 <= j < n && Tracks(msgs[j])
          ensures LexLess(msgs[j].receivedDateTime, m.receivedDateTime)
        {
          assert Tracks(init[j]);
          var v := msgs[j].receivedDateTime;
          LexLessTotalOrEqual(r0.timestamp, v);
          if v != r0.timestamp {
            LexLessTransitive(v, r0.timestamp, m.receivedDateTime);
          }
        }
        forall j | 0 <= j < n && Tracks(msgs[j])
          ensures !LexLess(m.receivedDateTime, msgs[j].receivedDateTime)
        {
          LexLessAsymmetric(msgs[j].receivedDateTime, m.receivedDateTime);
        }
        assert Tracks(msgs[n]) && r == Tracked(msgs[n].receivedDateTime, msgs[n].id);
      } else {
        assert r == r0;
        var j :| 0 <= j < n && Tracks(init[j]) && r0 == Tracked(init[j].receivedDateTime, init[j].id) &&
          forall j' :: 0 <= j' < j && Tracks(init[j']) ==> LexLess(init[j'].receivedDateTime, r0.timestamp);
        assert Tracks(msgs[j]) && r == Tracked(msgs[j].receivedDateTime, msgs[j].id);
      }
    }
  }

  // ---------------------------------------------------------------------
  // Pages

  /** The messages of pages [from, to) of the listing script, in order. */
  function Fetched(env: Env, from: nat, to: nat): seq<Message>
    requires from <= to
    decreases (to as int) - (from as int)
  {
    if from == to then []
    else (if from < |env.pages| && env.pages[from].Ok? then env.pages[from].value.value else []) + Fetched(env, from + 1, to)
  }

  /** How many pages' messages a page loop went through: every page it
      fetched, except the failed GET that ended it. */
  function PagesDone(o: Outcome): int {
    o.scan.progress.counters.pages - (if o.failed then 1 else 0)
  }

  /** Messages a step accounts for: new, duplicate or failed. */
  function Handled(c: Counters): nat {
    c.newEmails + c.duplicatesSkipped + c.failedEmails
  }

  /** The counters agree with the results: one result per new message, each
      with attachment_count 0, and at most one publish per new message. */
  predicate Consistent(p: Progress) {
    && |p.results| == p.counters.newEmails
    && p.counters.sqsSent <= p.counters.newEmails
    && (forall j :: 0 <= j < |p.results| ==> p.results[j].attachmentCount == 0)
  }

  lemma MsgStepConsistent(args: Args, env: Env, sc: Scan, k: nat, i: nat, m: Message)
    requires Consistent(sc.progress)
    ensures var r := MsgStep(args, env, sc, k, i, m);
      Consistent(r.progress) && Handled(sc.progress.counters) <= Handled(r.progress.counters) <= Handled(sc.progress.counters) + 1
  {
    var r := MsgStep(args, env, sc, k, i, m);
    if Tracks(m) && !CheckEmail(sc.emails, m.id, env.duplicateCall(k, i)) && m.sender.Some? {
      var data := EmailDataOf(m);
      if env.insertCall(k, i) == Completed && Recordable(data) && env.workId(k, i) != "" {
        assert r.progress.results == sc.progress.results + [data];
      } else {
        assert r.progress.results == sc.progress.results;
      }
    }
  }

  lemma {:induction false} MsgFoldConsistent(args: Args, env: Env, sc: Scan, msgs: seq<Message>, k: nat, i: nat)
    requires i <= |msgs| && Consistent(sc.progress)
    ensures var r := MsgFold(args, env, sc, msgs, k, i);
      Consistent(r.progress) && Handled(sc.progress.counters) <= Handled(r.progress.counters) <= Handled(sc.progress.counters) + |msgs| - i
    decreases |msgs| - i
  {
    if i < |msgs| {
      MsgStepConsistent(args, env, sc, k, i, msgs[i]);
      MsgFoldConsistent(args, env, MsgStep(args, env, sc, k, i, msgs[i]), msgs, k, i + 1);
    }
  }

  /** Over the page loop the tracked pair is that of the messages of the
      pages it went through, never past the end of the listing. */
  lemma {:induction false} PageLoopTracked(args: Args, env: Env, sc: Scan, url: string, plan: Plan)
    requires sc.progress.counters.pages <= |env.pages|
    ensures var o := PageLoop(args, env, sc, url, plan);
      && sc.progress.counters.pages <= PagesDone(o) <= |env.pages|
      && o.scan.progress.tracked == TrackAll(sc.progress.tracked, Fetched(env, sc.progress.counters.pages, PagesDone(o)))
    decreases |env.pages| - sc.progress.counters.pages
  {
    var o := PageLoop(args, env, sc, url, plan);
    var k := sc.progress.counters.pages;
    if url == "" {
      assert Fetched(env, k, k) == [];
    } else {
      var p := sc.progress.(counters := sc.progress.counters.(pages := k + 1),
                            requests := sc.progress.requests + [RequestFor(url, plan)]);
      var sc1 := sc.(progress := p);
      if k >= |env.pages| || env.pages[k].Err? {
        assert o == Outcome(sc1, true);
        assert Fetched(env, k, k) == [];
      } else {
        var page := env.pages[k].value;
        var sc2 := MsgFold(args, env, sc1, page.value, k, 0);
        MsgFoldTracked(args, env, sc1, page.value, k, 0);
        assert page.value[0..] == page.value;
        PageLoopTracked(args, env, sc2, page.nextLink.GetOr(""), plan);
        assert o == PageLoop(args, env, sc2, page.nextLink.GetOr(""), plan);
        var n := PagesDone(o);
        TrackAllAppend(sc.progress.tracked, page.value, Fetched(env, k + 1, n));
        assert Fetched(env, k, n) == page.value + Fetched(env, k + 1, n);
      }
    }
  }

  /** Over the page loop the counters stay consistent with the results, and
      no more messages are counted than the pages gone through hold. */
  lemma {:induction false} PageLoopCounts(args: Args, env: Env, sc: Scan, url: string, plan: Plan)
    requires Consistent(sc.progress)
    ensures var o := PageLoop(args, env, sc, url, plan);
      && sc.progress.counters.pages <= PagesDone(o)
      && Consistent(o.scan.progress)
      && Handled(o.scan.progress.counters) <= Handled(sc.progress.counters) + |Fetched(env, sc.progress.counters.pages, PagesDone(o))|
    decreases |env.pages| - sc.progress.counters.pages
  {
    var o := PageLoop(args, env, sc, url, plan);
    var k := sc.progress.counters.pages;
    if url == "" {
      assert Fetched(env, k, k) == [];
    } else {
      var p := sc.progress.(counters := sc.progress.counters.(pages := k + 1),
                            requests := sc.progress.requests + [RequestFor(url, plan)]);
      var sc1 := sc.(progress := p);
      if k >= |env.pages| || env.pages[k].Err? {
        assert o == Outcome(sc1, true);
        assert Fetched(env, k, k) == [];
      } else {
        var page := env.pages[k].value;
        var sc2 := MsgFold(args, env, sc1, page.value, k, 0);
        MsgFoldConsistent(args, env, sc1, page.value, k, 0);
        PageLoopCounts(args, env, sc2, page.nextLink.GetOr(""), plan);
        assert o == PageLoop(args, env, sc2, page.nextLink.GetOr(""), plan);
        var n := PagesDone(o);
        assert Fetched(env, k, n) == page.value + Fetched(env, k + 1, n);
      }
    }
  }


  /** Every request after position from goes to the nextLink of the page
      the request before it fetched. */
  predicate LinksFollowed(env: Env, rs: seq<Request>, from: nat) {
    forall j :: from < j < |rs| ==> LinkOf(env, j - 1, rs[j].url)
  }

  /** The GET of page k succeeded and its nextLink is url. */
  predicate LinkOf(env: Env, k: int, url: string) {
    0 <= k < |env.pages| && env.pages[k].Ok? && env.pages[k].value.nextLink == Some(url)
  }

  /** The requests of a page loop: one per page, appended after those made
      before; none when url is falsy. */
  lemma {:induction false} PageLoopRequests(args: Args, env: Env, sc: Scan, url: string, plan: Plan)
    requires |sc.progress.requests| == sc.progress.counters.pages
    ensures var o := PageLoop(args, env, sc, url, plan);
      var rs := o.scan.progress.requests;
      var s := |sc.progress.requests|;
      && |rs| == o.scan.progress.counters.pages
      && s <= |rs| && rs[..s] == sc.progress.requests
      && (url == "" ==> rs == sc.progress.requests)
    decreases |env.pages| - sc.progress.counters.pages
  {
    if url != "" {
      var k := sc.progress.counters.pages;
      var p := sc.progress.(counters := sc.progress.counters.(pages := k + 1),
                            requests := sc.progress.requests + [RequestFor(url, plan)]);
      var sc1 := sc.(progress := p);
      if k < |env.pages| && env.pages[k].Ok? {
        var page := env.pages[k].value;
        var sc2 := MsgFold(args, env, sc1, page.value, k, 0);
        PageLoopRequests(args, env, sc2, page.nextLink.GetOr(""), plan);
        var rs := PageLoop(args, env, sc, url, plan).scan.progress.requests;
        assert rs[..k + 1] == p.requests;
        assert rs[..k] == rs[..k + 1][..k];
      }
    }
  }

  /** The first request of a page loop goes to url, and every request it
      makes goes to a truthy URL and carries the query exactly when that URL
      is the base URL. */
  lemma {:induction false} PageLoopRequestsFor(args: Args, env: Env, sc: Scan, url: string, plan: Plan)
    requires |sc.progress.requests| == sc.progress.counters.pages
    ensures var o := PageLoop(args, env, sc, url, plan);
      var rs := o.scan.progress.requests;
      var s := |sc.progress.requests|;
      && (url != "" ==> s < |rs| && rs[s] == RequestFor(url, plan))
      && (forall j :: s <= j < |rs| ==> rs[j] == RequestFor(rs[j].url, plan) && rs[j].url != "")
    decreases |env.pages| - sc.progress.counters.pages
  {
    if url != "" {
      var k := sc.progress.counters.pages;
      var p := sc.progress.(counters := sc.progress.counters.(pages := k + 1),
                            requests := sc.progress.requests + [RequestFor(url, plan)]);
      var sc1 := sc.(progress := p);
      if k < |env.pages| && env.pages[k].Ok? {
        var page := env.pages[k].value;
        var sc2 := MsgFold(args, env, sc1, page.value, k, 0);
        PageLoopRequests(args, env, sc2, page.nextLink.GetOr(""), plan);
        PageLoopRequestsFor(args, env, sc2, page.nextLink.GetOr(""), plan);
        var rs := PageLoop(args, env, sc, url, plan).scan.progress.requests;
        assert rs[..k + 1] == p.requests;
        assert rs[k] == RequestFor(url, plan);
      }
    }
  }


  /** Where the page loop stops: it makes a request iff url is truthy; a
      failed loop ends at a GET past the end of the listing or one that
      failed; otherwise at a page without a (truthy) nextLink. */
  lemma {:induction false} PageLoopStops(args: Args, env: Env, sc: Scan, url: string, plan: Plan)
    ensures var o := PageLoop(args, env, sc, url, plan);
      var s := sc.progress.counters.pages;
      var n := o.scan.progress.counters.pages;
      && (url != "" <==> s < n)
      && (url == "" ==> !o.failed)
      && (o.failed ==> n - 1 >= |env.pages| || env.pages[n - 1].Err?)
      && (!o.failed && s < n ==> n - 1 < |env.pages| && env.pages[n - 1].Ok? && env.pages[n - 1].value.nextLink.GetOr("") == "")
    decreases |env.pages| - sc.progress.counters.pages
  {
    if url != "" {
      var k := sc.progress.counters.pages;
      var p := sc.progress.(counters := sc.progress.counters.(pages := k + 1),
                            requests := sc.progress.requests + [RequestFor(url, plan)]);
      var sc1 := sc.(progress := p);
      if k < |env.pages| && env.pages[k].Ok? {
        var page := env.pages[k].value;
        var sc2 := MsgFold(args, env, sc1, page.value, k, 0);
        PageLoopStops(args, env, sc2, page.nextLink.GetOr(""), plan);
        assert PageLoop(args, env, sc2, page.nextLink.GetOr(""), plan) == PageLoop(args, env, sc, url, plan);
      }
    }
  }

  /** Each request of a page loop after the first goes to the nextLink of
      the page the request before it fetched. */
  lemma {:induction false} PageLoopLinks(args: Args, env: Env, sc: Scan, url: string, plan: Plan)
    requires |sc.progress.requests| == sc.progress.counters.pages
    ensures LinksFollowed(env, PageLoop(args, env, sc, url, plan).scan.progress.requests, |sc.progress.requests|)
    decreases |env.pages| - sc.progress.counters.pages
  {
    if url != "" {
      var k := sc.progress.counters.pages;
      var p := sc.progress.(counters := sc.progress.counters.(pages := k + 1),
                            requests := sc.progress.requests + [RequestFor(url, plan)]);
      var sc1 := sc.(progress := p);
      if k < |env.pages| && env.pages[k].Ok? {
        var page := env.pages[k].value;
        var next := page.nextLink.GetOr("");
        var sc2 := MsgFold(args, env, sc1, page.value, k, 0);
        PageLoopLinks(args, env, sc2, next, plan);
        PageLoopRequests(args, env, sc2, next, plan);
        PageLoopRequestsFor(args, env, sc2, next, plan);
        var o := PageLoop(args, env, sc2, next, plan);
        assert o == PageLoop(args, env, sc, url, plan);
        var rs := o.scan.progress.requests;
        assert LinksFollowed(env, rs, k + 1);
        if k + 1 < |rs| {
          assert next != "" && rs[k + 1].url == next;
          assert LinkOf(env, k, rs[k + 1].url);
        }
      }
    }
  }

  // ---------------------------------------------------------------------
  // Whole runs

  /** Without a user email or a queue URL the run returns [] at once: no
      request, no store touched, no counter moved. */
  lemma GuardsStopEarly(args: Args, env: Env, emails: seq<EmailRow>, documents: seq<DocumentRow>,
                        objects: seq<S3Object>, scanner: seq<ScannerRow>)
    requires !Truthy(args.userEmail) || !Truthy(args.sqsQueueUrl)
    ensures var o := RunSpec(args, env, emails, documents, objects, scanner);
      o.results == [] && o.scan == Start(emails, documents, objects) && o.scanner == scanner && o.scan.progress.requests == []
  {
  }

  /** A failure while setting up (authentication, folder resolution, an
      unparsable stored watermark) ends the run with [] before any listing
      request, and nothing is tracked, so nothing is written. */
  lemma SetupFailureWritesNothing(args: Args, env: Env, emails: seq<EmailRow>, documents: seq<DocumentRow>,
                                  objects: seq<S3Object>, scanner: seq<ScannerRow>)
    requires Truthy(args.userEmail) && Truthy(args.sqsQueueUrl)
    requires Setup(args, env, args.userEmail.value, scanner).Err?
    ensures var o := RunSpec(args, env, emails, documents, objects, scanner);
      o.results == [] && o.failed && o.scan == Start(emails, documents, objects) && o.scanner == scanner
  {
  }

  /** The query and the requests of a run that got past setup: the lower
      bound is the stored watermark, or now minus seven days when none is
      stored, less 30 minutes; the first request goes to the base URL with
      the query; parameters go only where the URL is the base URL; each
      later URL is the previous page's nextLink. */
  lemma RunRequests(args: Args, env: Env, emails: seq<EmailRow>, documents: seq<DocumentRow>,
                    objects: seq<S3Object>, scanner: seq<ScannerRow>)
    requires Truthy(args.userEmail) && Truthy(args.sqsQueueUrl)
    requires Setup(args, env, args.userEmail.value, scanner).Ok?
    ensures var plan := Setup(args, env, args.userEmail.value, scanner).value;
      var stored := LastProcessedTimestamp(scanner, args.userEmail.value, env.timestampCall);
      var rs := RunSpec(args, env, emails, documents, objects, scanner).scan.progress.requests;
      && plan.query.orderBy == OrderBy
      && (stored.None? ==> plan.query.lowerBoundMinutes == env.nowMinutes - DefaultLookbackMinutes - OverlapMinutes)
      && (stored.Some? ==> env.parseMinutes(stored.value).Some?
                           && plan.query.lowerBoundMinutes == env.parseMinutes(stored.value).value - OverlapMinutes)
      && |rs| >= 1 && rs[0] == Request(plan.baseUrl, Some(plan.query))
      && (forall j :: 0 <= j < |rs| ==> (rs[j].query.Some? <==> rs[j].url == plan.baseUrl))
      && LinksFollowed(env, rs, 0)
  {
    var user := args.userEmail.value;
    var plan := Setup(args, env, user, scanner).value;
    var stored := LastProcessedTimestamp(scanner, user, env.timestampCall);
    assert LowerBound(env, stored).Some? && plan.query == Query(LowerBound(env, stored).value, OrderBy);
    assert plan.baseUrl != "" by {
      assert |plan.baseUrl| >= |"/users/"|;
    }
    var sc0 := Start(emails, documents, objects);
    PageLoopRequests(args, env, sc0, plan.baseUrl, plan);
    PageLoopRequestsFor(args, env, sc0, plan.baseUrl, plan);
    PageLoopLinks(args, env, sc0, plan.baseUrl, plan);
    var rs := PageLoop(args, env, sc0, plan.baseUrl, plan).scan.progress.requests;
    assert rs == RunSpec(args, env, emails, documents, objects, scanner).scan.progress.requests;
    assert rs[0] == Request(plan.baseUrl, Some(plan.query));
    forall j | 0 <= j < |rs|
      ensures rs[j].query.Some? <==> rs[j].url == plan.baseUrl
    {
      assert rs[j] == RequestFor(rs[j].url, plan);
    }
  }

  /** The watermark a run writes: the tracked pair is the latest over the
      messages of the pages the run went through (TrackedIsLatest), the
      write happens once, after the loop, with the count of new messages,
      status "error" exactly when an exception ended the run (which then
      returns []), and only when a pair is tracked and the store call
      completes. */
  lemma RunWatermark(args: Args, env: Env, emails: seq<EmailRow>, documents: seq<DocumentRow>,
                     objects: seq<S3Object>, scanner: seq<ScannerRow>)
    requires Truthy(args.userEmail) && Truthy(args.sqsQueueUrl)
    ensures var o := RunSpec(args, env, emails, documents, objects, scanner);
      var p := o.scan.progress;
      && (exists n :: 0 <= n <= |env.pages| && p.tracked == TrackAll(NotTracked, Fetched(env, 0, n)))
      && o.scanner == WriteWatermark(args, env, args.userEmail.value, scanner, p.tracked, p.counters.newEmails,
                                     if o.failed then StatusError else StatusSuccess)
      && (o.failed ==> o.results == [])
      && (!o.failed ==> o.results == p.results && |o.results| == p.counters.newEmails)
  {
    var user := args.userEmail.value;
    var sc0 := Start(emails, documents, objects);
    match Setup(args, env, user, scanner)
    case Err(_) =>
      assert Fetched(env, 0, 0) == [];
      assert TrackAll(NotTracked, Fetched(env, 0, 0)) == NotTracked;
    case Ok(plan) =>
      PageLoopTracked(args, env, sc0, plan.baseUrl, plan);
      PageLoopCounts(args, env, sc0, plan.baseUrl, plan);
      var o := PageLoop(args, env, sc0, plan.baseUrl, plan);
      assert o.scan.progress.tracked == TrackAll(NotTracked, Fetched(env, 0, PagesDone(o)));
  }

  /** With the fresh per-run scanner id, the write never updates an existing
      row: the table is either unchanged or gains exactly one row, under
      the run's key, counting the run's new messages. */
  lemma FreshKeyInserts(args: Args, env: Env, emails: seq<EmailRow>, documents: seq<DocumentRow>,
                        objects: seq<S3Object>, scanner: seq<ScannerRow>)
    requires Truthy(args.userEmail) && Truthy(args.sqsQueueUrl)
    requires !HasKey(scanner, ScannerKey(args.scannerId, args.entityId, args.userEmail.value))
    ensures var o := RunSpec(args, env, emails, documents, objects, scanner);
      var t := o.scan.progress.tracked;
      || o.scanner == scanner
      || (t.timestamp != "" && t.emailId != "" &&
          o.scanner == scanner + [ScannerRow(ScannerKey(args.scannerId, args.entityId, args.userEmail.value), Some(t.timestamp), t.emailId,
                                             o.scan.progress.counters.newEmails, if o.failed then StatusError else StatusSuccess)])
  {
    RunWatermark(args, env, emails, documents, objects, scanner);
  }

  lemma {:induction false} FetchedUntracked(env: Env, from: nat, to: nat)
    requires from <= to
    requires forall k, j :: 0 <= k < |env.pages| && env.pages[k].Ok? && 0 <= j < |env.pages[k].value.value| ==>
      !Tracks(env.pages[k].value.value[j])
    ensures forall j {:trigger Fetched(env, from, to)[j]} :: 0 <= j < |Fetched(env, from, to)| ==>
      !Tracks(Fetched(env, from, to)[j])
    decreases (to as int) - (from as int)
  {
    if from < to {
      FetchedUntracked(env, from + 1, to);
      var head := if from < |env.pages| && env.pages[from].Ok? then env.pages[from].value.value else [];
      var all := Fetched(env, from, to);
      assert all == head + Fetched(env, from + 1, to);
      forall j | 0 <= j < |all| ensures !Tracks(all[j]) {
        if j < |head| {
          assert all[j] == env.pages[from].value.value[j];
        } else {
          assert all[j] == Fetched(env, from + 1, to)[j - |head|];
        }
      }
    }
  }

  /** A run whose listing holds no tracked message (every message a reply,
      a forward, or with a null subject; or no messages at all) leaves the
      watermark store untouched. */
  lemma NothingTrackedNoWrite(args: Args, env: Env, emails: seq<EmailRow>, documents: seq<DocumentRow>,
                              objects: seq<S3Object>, scanner: seq<ScannerRow>)
    requires forall k, j :: 0 <= k < |env.pages| && env.pages[k].Ok? && 0 <= j < |env.pages[k].value.value| ==>
      !Tracks(env.pages[k].value.value[j])
    ensures RunSpec(args, env, emails, documents, objects, scanner).scanner == scanner
  {
    if Truthy(args.userEmail) && Truthy(args.sqsQueueUrl) {
      RunWatermark(args, env, emails, documents, objects, scanner);
      var o := RunSpec(args, env, emails, documents, objects, scanner);
      var n :| 0 <= n <= |env.pages| && o.scan.progress.tracked == TrackAll(NotTracked, Fetched(env, 0, n));
      FetchedUntracked(env, 0, n);
      TrackedIsLatest(Fetched(env, 0, n));
    }
  }

  /** A duplicate still moves the watermark: the tracked pair of a page does
      not depend on the duplicate lookup, so a run re-seeing only messages
      it has stored writes the same watermark as if they were new. */
  lemma DuplicatesStillTracked(args: Args, env1: Env, env2: Env, sc: Scan, msgs: seq<Message>, k: nat)
    ensures MsgFold(args, env1, sc, msgs, k, 0).progress.tracked == MsgFold(args, env2, sc, msgs, k, 0).progress.tracked
  {
    MsgFoldTracked(args, env1, sc, msgs, k, 0);
    MsgFoldTracked(args, env2, sc, msgs, k, 0);
  }
}
