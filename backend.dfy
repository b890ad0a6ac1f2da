/**
 * The backend's data rules: the three tables held in memory, the request validation of the
 * create and subscribe routes, the list ordering with subscriber counts, the scheduling of a
 * new issue, and the two jobs that mark issues sent and record daily issues.
 *
 * Time is a number of microseconds since 0001-01-01 00:00:00, the origin of Python's
 * `datetime`; the current time, the generated issue content and the request bodies are
 * parameters. Ids come from a counter instead of random bytes, so a new id is always fresh.
 */
module Backend {
  import opened Options

  type Id = nat
  type Time = nat

  const MicrosPerSecond: nat := 1_000_000
  const MicrosPerHour: nat := 3600 * MicrosPerSecond
  const MicrosPerDay: nat := 24 * MicrosPerHour

  const StatusCreated := 201
  const StatusBadRequest := 400
  const StatusNotFound := 404
  const StatusServerError := 500

  datatype NewsletterRow = NewsletterRow(id: Id, name: string, prompt: string, createdAt: Time)
  datatype SubscriberRow = SubscriberRow(id: Id, newsletterId: Id, email: string, signedUpAt: Time)
  datatype IssueRow = IssueRow(id: Id, newsletterId: Id, content: string, scheduledSendAt: Time, sentAt: Option<Time>)

  /** One message handed to the mail server. */
  datatype Mail = Mail(recipient: string, subject: string, html: string)

  /** A parsed JSON request body whose fields are strings; `None` is a body that parses to `null`. */
  type Body = Option<map<string, string>>

  // ---------------------------------------------------------------------------
  // Request validation

  /** `data.get(key)` is truthy: the field is present and not the empty string. */
  predicate HasText(fields: map<string, string>, key: string) {
    key in fields && fields[key] != ""
  }

  /** `create_newsletter` accepts a body with a non-empty name and a non-empty prompt. */
  predicate CreateBodyValid(body: Body) {
    body.Some? && HasText(body.value, "name") && HasText(body.value, "prompt")
  }

  // ---------------------------------------------------------------------------
  // Table queries

  function NewsletterIds(newsletters: seq<NewsletterRow>): (r: set<Id>) {
    set n | n in newsletters :: n.id
  }

  function Emails(subscribers: seq<SubscriberRow>): (r: set<string>) {
    set s | s in subscribers :: s.email
  }

  /** The unique constraint on `subscribers.email`: no two rows share an email. */
  ghost predicate EmailsUnique(subscribers: seq<SubscriberRow>) {
    forall i, j :: 0 <= i < j < |subscribers| ==> subscribers[i].email != subscribers[j].email
  }

  /** `len(nl.subscribers)`: the subscribers whose `newsletter_id` is `id`. */
  function CountFor(subscribers: seq<SubscriberRow>, id: Id): (r: nat) {
    if subscribers == [] then 0
    else (if subscribers[0].newsletterId == id then 1 else 0) + CountFor(subscribers[1..], id)
  }

  /** Adding a subscriber raises its newsletter's count by one and leaves every other count alone. */
  lemma {:induction false} CountForAppend(subscribers: seq<SubscriberRow>, s: SubscriberRow, id: Id)
    ensures CountFor(subscribers + [s], id) == CountFor(subscribers, id) + (if s.newsletterId == id then 1 else 0)
  {
    if subscribers != [] {
      assert (subscribers + [s])[1..] == subscribers[1..] + [s];
      CountForAppend(subscribers[1..], s, id);
    }
  }

  /** A newsletter nobody subscribed to has count 0; the count never exceeds the table. */
  lemma {:induction false} CountForBounds(subscribers: seq<SubscriberRow>, id: Id)
    ensures CountFor(subscribers, id) <= |subscribers|
    ensures (forall s :: s in subscribers ==> s.newsletterId != id) ==> CountFor(subscribers, id) == 0
  {
    if subscribers != [] {
      CountForBounds(subscribers[1..], id);
    }
  }

  /** `issue.newsletter`: the first newsletter with the given id. */
  function FindNewsletter(newsletters: seq<NewsletterRow>, id: Id): (r: Option<NewsletterRow>)
    ensures r.Some? ==> r.value in newsletters && r.value.id == id
    ensures r.None? ==> id !in NewsletterIds(newsletters)
  {
    if newsletters == [] then None
    else if newsletters[0].id == id then Some(newsletters[0])
    else FindNewsletter(newsletters[1..], id)
  }

  // ---------------------------------------------------------------------------
  // Listing

  /** One element of the list response. */
  datatype NewsletterSummary = NewsletterSummary(row: NewsletterRow, subscriberCount: nat)

  ghost predicate NewestFirst(rows: seq<NewsletterRow>) {
    forall i, j :: 0 <= i < j < |rows| ==> rows[i].createdAt >= rows[j].createdAt
  }

  function InsertByNewest(x: NewsletterRow, rows: seq<NewsletterRow>): (r: seq<NewsletterRow>) {
    if rows == [] then [x]
    else if x.createdAt >= rows[0].createdAt then [x] + rows
    else [rows[0]] + InsertByNewest(x, rows[1..])
  }

  lemma {:induction false} InsertPermutes(x: NewsletterRow, rows: seq<NewsletterRow>)
    ensures multiset(InsertByNewest(x, rows)) == multiset(rows) + multiset{x}
  {
    if rows != [] && x.createdAt < rows[0].createdAt {
      assert rows == [rows[0]] + rows[1..];
      InsertPermutes(x, rows[1..]);
    }
  }

  lemma {:induction false} InsertKeepsNewestFirst(x: NewsletterRow, rows: seq<NewsletterRow>)
    requires NewestFirst(rows)
    ensures NewestFirst(InsertByNewest(x, rows))
  {
    if rows != [] && x.createdAt < rows[0].createdAt {
      var rest := InsertByNewest(x, rows[1..]);
      InsertKeepsNewestFirst(x, rows[1..]);
      assert rest[0] == x || rest[0] == rows[1];
      assert rows[0].createdAt >= rest[0].createdAt;
      var r := [rows[0]] + rest;
      assert InsertByNewest(x, rows) == r;
      forall i, j | 0 <= i < j < |r| ensures r[i].createdAt >= r[j].createdAt {
        if i == 0 {
          assert r[j] == rest[j - 1];
          assert rest[0].createdAt >= rest[j - 1].createdAt;
        } else {
          assert r[i] == rest[i - 1] && r[j] == rest[j - 1];
        }
      }
    }
  }

  /** `ORDER BY created_at DESC`; rows with equal times may come in any order. */
  function SortByNewest(rows: seq<NewsletterRow>): (r: seq<NewsletterRow>)
    ensures NewestFirst(r)
    ensures multiset(r) == multiset(rows)
  {
    if rows == [] then []
    else
      var rest := SortByNewest(rows[1..]);
      InsertPermutes(rows[0], rest);
      InsertKeepsNewestFirst(rows[0], rest);
      assert rows == [rows[0]] + rows[1..];
      assert multiset(rows) == multiset(rows[1..]) + multiset{rows[0]};
      InsertByNewest(rows[0], rest)
  }

  function RowsOf(summaries: seq<NewsletterSummary>): (r: seq<NewsletterRow>) {
    seq(|summaries|, i requires 0 <= i < |summaries| => summaries[i].row)
  }

  /** `list_newsletters`: every newsletter, newest first, each with its subscriber count. */
  function ListNewsletters(newsletters: seq<NewsletterRow>, subscribers: seq<SubscriberRow>): (r: seq<NewsletterSummary>)
    ensures |r| == |newsletters|
    ensures multiset(RowsOf(r)) == multiset(newsletters)
    ensures forall i, j :: 0 <= i < j < |r| ==> r[i].row.createdAt >= r[j].row.createdAt
    ensures forall i :: 0 <= i < |r| ==> r[i].subscriberCount == CountFor(subscribers, r[i].row.id)
  {
    var sorted := SortByNewest(newsletters);
    var r := seq(|sorted|, i requires 0 <= i < |sorted| => NewsletterSummary(sorted[i], CountFor(subscribers, sorted[i].id)));
    assert RowsOf(r) == sorted;
    assert |sorted| == |multiset(sorted)| == |multiset(newsletters)| == |newsletters|;
    r
  }

  /** After a new subscriber row, the list keeps its rows and order; the subscriber's newsletter shows
      one more subscriber and every other count is unchanged. */
  lemma SubscribeRaisesListedCount(newsletters: seq<NewsletterRow>, subscribers: seq<SubscriberRow>, s: SubscriberRow)
    ensures var before := ListNewsletters(newsletters, subscribers);
      var after := ListNewsletters(newsletters, subscribers + [s]);
      && |after| == |before|
      && forall i :: 0 <= i < |after| ==>
        && after[i].row == before[i].row
        && after[i].subscriberCount == before[i].subscriberCount + (if before[i].row.id == s.newsletterId then 1 else 0)
  {
    var before := ListNewsletters(newsletters, subscribers);
    var after := ListNewsletters(newsletters, subscribers + [s]);
    forall i | 0 <= i < |after|
      ensures after[i].row == before[i].row
      ensures after[i].subscriberCount == before[i].subscriberCount + (if before[i].row.id == s.newsletterId then 1 else 0)
    {
      CountForAppend(subscribers, s, after[i].row.id);
    }
  }

  // ---------------------------------------------------------------------------
  // Scheduling

  /** `utcnow().replace(hour=9, minute=0, second=0) + timedelta(days=1)`: 09:00 on the next day,
      keeping the microseconds of `now`. */
  function ScheduleSendAt(now: Time): (r: Time) {
    (now / MicrosPerDay) * MicrosPerDay + 9 * MicrosPerHour + now % MicrosPerSecond + MicrosPerDay
  }

  /** The scheduled time falls on the calendar day after `now`, at 09:00:00 plus `now`'s microseconds,
      and is therefore strictly later than `now`. */
  lemma ScheduleIsNextMorning(now: Time)
    ensures ScheduleSendAt(now) / MicrosPerDay == now / MicrosPerDay + 1
    ensures ScheduleSendAt(now) % MicrosPerDay == 9 * MicrosPerHour + now % MicrosPerSecond
    ensures now < ScheduleSendAt(now)
  {
    var d := now / MicrosPerDay;
    var offset := 9 * MicrosPerHour + now % MicrosPerSecond;
    assert 0 <= offset < MicrosPerDay;
    assert ScheduleSendAt(now) == (d + 1) * MicrosPerDay + offset;
    assert now < (d + 1) * MicrosPerDay;
  }

  // ---------------------------------------------------------------------------
  // Sending

  /** Selected by `send_pending_issues`: not yet sent and due. */
  predicate Pending(issue: IssueRow, now: Time) {
    issue.sentAt.None? && issue.scheduledSendAt <= now
  }

  function MarkIssue(issue: IssueRow, now: Time): (r: IssueRow) {
    if Pending(issue, now) then issue.(sentAt := Some(now)) else issue
  }

  /** The issue table after `send_pending_issues` at `now`. */
  function MarkSent(issues: seq<IssueRow>, now: Time): (r: seq<IssueRow>) {
    seq(|issues|, i requires 0 <= i < |issues| => MarkIssue(issues[i], now))
  }

  /** Exactly the pending issues get `sent_at = now`; every other issue, and every other field, is unchanged. */
  lemma MarkSentChangesExactlyPending(issues: seq<IssueRow>, now: Time)
    ensures |MarkSent(issues, now)| == |issues|
    ensures forall i :: 0 <= i < |issues| && Pending(issues[i], now) ==> MarkSent(issues, now)[i] == issues[i].(sentAt := Some(now))
    ensures forall i :: 0 <= i < |issues| && !Pending(issues[i], now) ==> MarkSent(issues, now)[i] == issues[i]
  {
  }

  /** After a run nothing is pending at the same time, so a second run at that time selects nothing
      and changes nothing; an issue sent by the run is never pending again. */
  lemma MarkSentIdempotent(issues: seq<IssueRow>, now: Time)
    ensures forall i :: 0 <= i < |issues| ==> !Pending(MarkSent(issues, now)[i], now)
    ensures MarkSent(MarkSent(issues, now), now) == MarkSent(issues, now)
    ensures forall i, later: Time :: 0 <= i < |issues| && Pending(issues[i], now) ==> !Pending(MarkSent(issues, now)[i], later)
  {
  }

  function Subject(name: string): (r: string) {
    "Your Vibeletter \U{2013} " + name
  }

  function Html(content: string): (r: string) {
    "<pre>" + content + "</pre>"
  }

  /** The messages for one issue: one per subscriber of the newsletter, in table order. */
  function MailsFor(subscribers: seq<SubscriberRow>, nl: NewsletterRow, content: string): (r: seq<Mail>) {
    if subscribers == [] then []
    else
      (if subscribers[0].newsletterId == nl.id then [Mail(subscribers[0].email, Subject(nl.name), Html(content))] else [])
      + MailsFor(subscribers[1..], nl, content)
  }

  /** An issue is mailed to as many recipients as the list shows subscribers, each one a subscriber's email,
      and every subscriber of the newsletter gets the message. */
  lemma {:induction false} MailsForMatchesSubscribers(subscribers: seq<SubscriberRow>, nl: NewsletterRow, content: string)
    ensures |MailsFor(subscribers, nl, content)| == CountFor(subscribers, nl.id)
    ensures forall m :: m in MailsFor(subscribers, nl, content) ==>
      m.subject == Subject(nl.name) && m.html == Html(content)
      && exists s :: s in subscribers && s.newsletterId == nl.id && s.email == m.recipient
    ensures forall s :: s in subscribers && s.newsletterId == nl.id ==>
      Mail(s.email, Subject(nl.name), Html(content)) in MailsFor(subscribers, nl, content)
  {
    if subscribers != [] {
      MailsForMatchesSubscribers(subscribers[1..], nl, content);
    }
  }

  /** The messages `send_pending_issues` attempts for one issue, if it is pending. */
  function IssueMail(issue: IssueRow, newsletters: seq<NewsletterRow>, subscribers: seq<SubscriberRow>, now: Time): (r: seq<Mail>) {
    if !Pending(issue, now) then []
    else
      match FindNewsletter(newsletters, issue.newsletterId)
      case Some(nl) => MailsFor(subscribers, nl, issue.content)
      case None => []
  }

  /** All messages `send_pending_issues` attempts, issue by issue. */
  function PendingMail(issues: seq<IssueRow>, newsletters: seq<NewsletterRow>, subscribers: seq<SubscriberRow>, now: Time): (r: seq<Mail>) {
    if issues == [] then []
    else PendingMail(issues[..|issues| - 1], newsletters, subscribers, now) + IssueMail(issues[|issues| - 1], newsletters, subscribers, now)
  }

  /** Every message attempted for one issue is among the messages attempted for the whole table. */
  lemma {:induction false} PendingMailHoldsIssueMail(issues: seq<IssueRow>, newsletters: seq<NewsletterRow>,
                                                    subscribers: seq<SubscriberRow>, now: Time, i: nat)
    requires i < |issues|
    ensures forall m :: m in IssueMail(issues[i], newsletters, subscribers, now) ==> m in PendingMail(issues, newsletters, subscribers, now)
  {
    var init := issues[..|issues| - 1];
    if i < |issues| - 1 {
      PendingMailHoldsIssueMail(init, newsletters, subscribers, now, i);
      assert init[i] == issues[i];
    }
  }

  /** The sending job mails every subscriber of every pending issue whose newsletter exists. */
  lemma PendingMailReachesEverySubscriber(issues: seq<IssueRow>, newsletters: seq<NewsletterRow>,
                                          subscribers: seq<SubscriberRow>, now: Time, i: nat, s: SubscriberRow)
    requires i < |issues| && Pending(issues[i], now)
    requires FindNewsletter(newsletters, issues[i].newsletterId).Some?
    requires s in subscribers && s.newsletterId == issues[i].newsletterId
    ensures Mail(s.email, Subject(FindNewsletter(newsletters, issues[i].newsletterId).value.name), Html(issues[i].content))
      in PendingMail(issues, newsletters, subscribers, now)
  {
    MailsForMatchesSubscribers(subscribers, FindNewsletter(newsletters, issues[i].newsletterId).value, issues[i].content);
    PendingMailHoldsIssueMail(issues, newsletters, subscribers, now, i);
  }

  lemma PendingMailStep(issues: seq<IssueRow>, i: nat, newsletters: seq<NewsletterRow>, subscribers: seq<SubscriberRow>, now: Time)
    requires i < |issues|
    ensures PendingMail(issues[..i + 1], newsletters, subscribers, now)
         == PendingMail(issues[..i], newsletters, subscribers, now) + IssueMail(issues[i], newsletters, subscribers, now)
  {
    assert issues[..i + 1][..i] == issues[..i];
  }

  // ---------------------------------------------------------------------------
  // Daily job

  /** The issues `daily_generate_and_send` records: one per newsletter, scheduled and sent at `now`. */
  function DailyIssues(newsletters: seq<NewsletterRow>, contents: seq<string>, now: Time, firstId: Id): (r: seq<IssueRow>)
    requires |contents| == |newsletters|
  {
    seq(|newsletters|, i requires 0 <= i < |newsletters| => IssueRow(firstId + i, newsletters[i].id, contents[i], now, Some(now)))
  }

  /** The messages the daily job attempts for its first `k` newsletters. */
  function DailyMail(newsletters: seq<NewsletterRow>, subscribers: seq<SubscriberRow>, contents: seq<string>, k: nat): (r: seq<Mail>)
    requires |contents| == |newsletters| && k <= |newsletters|
  {
    if k == 0 then []
    else DailyMail(newsletters, subscribers, contents, k - 1) + MailsFor(subscribers, newsletters[k - 1], contents[k - 1])
  }

  /** The daily job mails every subscriber of each of its first `k` newsletters that newsletter's content. */
  lemma {:induction false} DailyMailReachesEverySubscriber(newsletters: seq<NewsletterRow>, subscribers: seq<SubscriberRow>,
                                                          contents: seq<string>, k: nat)
    requires |contents| == |newsletters| && k <= |newsletters|
    ensures forall j, s :: 0 <= j < k && s in subscribers && s.newsletterId == newsletters[j].id ==>
      Mail(s.email, Subject(newsletters[j].name), Html(contents[j])) in DailyMail(newsletters, subscribers, contents, k)
  {
    if k > 0 {
      DailyMailReachesEverySubscriber(newsletters, subscribers, contents, k - 1);
      MailsForMatchesSubscribers(subscribers, newsletters[k - 1], contents[k - 1]);
    }
  }

  /** The daily job records one issue per newsletter, for that newsletter, that no later run of
      `send_pending_issues` selects. */
  lemma DailyIssuesAlreadySent(newsletters: seq<NewsletterRow>, contents: seq<string>, now: Time, firstId: Id)
    requires |contents| == |newsletters|
    ensures |DailyIssues(newsletters, contents, now, firstId)| == |newsletters|
    ensures forall i :: 0 <= i < |newsletters| ==>
      DailyIssues(newsletters, contents, now, firstId)[i].newsletterId == newsletters[i].id
    ensures forall i, t: Time :: 0 <= i < |newsletters| ==> !Pending(DailyIssues(newsletters, contents, now, firstId)[i], t)
  {
  }

  lemma MarkSentStep(issues: seq<IssueRow>, i: nat, now: Time)
    requires i < |issues|
    ensures (MarkSent(issues[..i], now) + issues[i..])[i := MarkIssue(issues[i], now)]
         == MarkSent(issues[..i + 1], now) + issues[i + 1..]
  {
    var lhs := (MarkSent(issues[..i], now) + issues[i..])[i := MarkIssue(issues[i], now)];
    var rhs := MarkSent(issues[..i + 1], now) + issues[i + 1..];
    assert |lhs| == |rhs|;
    forall j | 0 <= j < |lhs| ensures lhs[j] == rhs[j] {
      if j < i {
        assert lhs[j] == MarkSent(issues[..i], now)[j] == MarkIssue(issues[j], now);
      } else if j > i {
        assert lhs[j] == issues[j];
      }
    }
  }

  /** The loop of `send_pending_issues`: every pending issue's subscribers are mailed, and the issue
      gets `sent_at = now` whether or not its mail went out. */
  method SendAndMark(issues: seq<IssueRow>, newsletters: seq<NewsletterRow>, subscribers: seq<SubscriberRow>, now: Time)
    returns (updated: seq<IssueRow>, outbox: seq<Mail>)
    ensures updated == MarkSent(issues, now)
    ensures outbox == PendingMail(issues, newsletters, subscribers, now)
  {
    updated := issues;
    outbox := [];
    var i := 0;
    while i < |updated|
      invariant 0 <= i <= |updated| == |issues|
      invariant updated == MarkSent(issues[..i], now) + issues[i..]
      invariant outbox == PendingMail(issues[..i], newsletters, subscribers, now)
    {
      var issue := updated[i];
      assert issue == issues[i];
      ghost var before := outbox;
      if issue.sentAt.None? && issue.scheduledSendAt <= now {
        var nl := FindNewsletter(newsletters, issue.newsletterId);
        if nl.Some? {
          outbox := outbox + MailsFor(subscribers, nl.value, issue.content);
        }
        updated := updated[i := issue.(sentAt := Some(now))];
      }
      assert outbox == before + IssueMail(issue, newsletters, subscribers, now);
      assert updated == (MarkSent(issues[..i], now) + issues[i..])[i := MarkIssue(issues[i], now)];
      MarkSentStep(issues, i, now);
      PendingMailStep(issues, i, newsletters, subscribers, now);
      i := i + 1;
    }
    assert issues[..i] == issues;
  }

  // ---------------------------------------------------------------------------
  // The store

  /** Every issue has an id below the counter and belongs to an existing newsletter; no two issues share an id. */
  ghost predicate IssuesValid(issues: seq<IssueRow>, newsletters: seq<NewsletterRow>, nextId: Id) {
    && (forall i :: 0 <= i < |issues| ==> issues[i].id < nextId && issues[i].newsletterId in NewsletterIds(newsletters))
    && (forall i, j :: 0 <= i < j < |issues| ==> issues[i].id != issues[j].id)
  }

  lemma MarkSentKeepsIssuesValid(issues: seq<IssueRow>, newsletters: seq<NewsletterRow>, nextId: Id, now: Time)
    requires IssuesValid(issues, newsletters, nextId)
    ensures IssuesValid(MarkSent(issues, now), newsletters, nextId)
  {
    forall i | 0 <= i < |issues|
      ensures MarkSent(issues, now)[i].id == issues[i].id && MarkSent(issues, now)[i].newsletterId == issues[i].newsletterId
    {
    }
  }

  /** The schema's constraints: the primary keys of the three tables, the unique email, the foreign keys;
      every id is below the counter. */
  ghost predicate TablesValid(newsletters: seq<NewsletterRow>, subscribers: seq<SubscriberRow>, issues: seq<IssueRow>, nextId: Id) {
    && (forall i :: 0 <= i < |newsletters| ==> newsletters[i].id < nextId)
    && (forall i, j :: 0 <= i < j < |newsletters| ==> newsletters[i].id != newsletters[j].id)
    && (forall i :: 0 <= i < |subscribers| ==> subscribers[i].id < nextId)
    && (forall i, j :: 0 <= i < j < |subscribers| ==> subscribers[i].id != subscribers[j].id)
    && (forall i :: 0 <= i < |subscribers| ==> subscribers[i].newsletterId in NewsletterIds(newsletters))
    && EmailsUnique(subscribers)
    && IssuesValid(issues, newsletters, nextId)
  }

  /** Recording the daily issues under the next ids keeps the constraints. */
  lemma DailyIssuesKeepValid(newsletters: seq<NewsletterRow>, subscribers: seq<SubscriberRow>, issues: seq<IssueRow>,
                             nextId: Id, contents: seq<string>, now: Time)
    requires TablesValid(newsletters, subscribers, issues, nextId)
    requires |contents| == |newsletters|
    ensures TablesValid(newsletters, subscribers, issues + DailyIssues(newsletters, contents, now, nextId), nextId + |newsletters|)
  {
    var daily := DailyIssues(newsletters, contents, now, nextId);
    var after := issues + daily;
    forall i | 0 <= i < |after|
      ensures after[i].id < nextId + |newsletters| && after[i].newsletterId in NewsletterIds(newsletters)
    {
      if i >= |issues| {
        assert after[i] == daily[i - |issues|];
        assert newsletters[i - |issues|] in newsletters;
      }
    }
    forall i, j | 0 <= i < j < |after| ensures after[i].id != after[j].id {
      if i >= |issues| {
        assert after[i] == daily[i - |issues|] && after[j] == daily[j - |issues|];
      } else if j >= |issues| {
        assert after[i] == issues[i] && after[j] == daily[j - |issues|];
      } else {
        assert after[i] == issues[i] && after[j] == issues[j];
      }
    }
  }

  /** The loop of `daily_generate_and_send`: for each newsletter in turn, its subscribers are mailed the
      newsletter's content and an issue is recorded under the next id, as scheduled and sent at `now`. */
  method GenerateAndSend(newsletters: seq<NewsletterRow>, subscribers: seq<SubscriberRow>, contents: seq<string>,
                         now: Time, firstId: Id)
    returns (added: seq<IssueRow>, outbox: seq<Mail>)
    requires |contents| == |newsletters|
    ensures added == DailyIssues(newsletters, contents, now, firstId)
    ensures outbox == DailyMail(newsletters, subscribers, contents, |newsletters|)
  {
    added, outbox := [], [];
    var id := firstId;
    var k := 0;
    while k < |newsletters|
      invariant 0 <= k <= |newsletters|
      invariant id == firstId + k
      invariant added == DailyIssues(newsletters, contents, now, firstId)[..k]
      invariant outbox == DailyMail(newsletters, subscribers, contents, k)
    {
      var nl := newsletters[k];
      outbox := outbox + MailsFor(subscribers, nl, contents[k]);
      added := added + [IssueRow(id, nl.id, contents[k], now, Some(now))];
      assert DailyIssues(newsletters, contents, now, firstId)[..k + 1]
          == DailyIssues(newsletters, contents, now, firstId)[..k] + [DailyIssues(newsletters, contents, now, firstId)[k]];
      id := id + 1;
      k := k + 1;
    }
    assert DailyIssues(newsletters, contents, now, firstId)[..k] == DailyIssues(newsletters, contents, now, firstId);
  }

  class Store {
    var newsletters: seq<NewsletterRow>
    var subscribers: seq<SubscriberRow>
    var issues: seq<IssueRow>
    var nextId: Id

    /** The schema's constraints, on the current tables. */
    ghost predicate Valid()
      reads this
    {
      TablesValid(newsletters, subscribers, issues, nextId)
    }

    constructor ()
      ensures Valid()
      ensures newsletters == [] && subscribers == [] && issues == []
    {
      newsletters, subscribers, issues := [], [], [];
      nextId := 0;
    }

    /** `POST /api/newsletters`. */
    method CreateNewsletter(body: Body, now: Time) returns (status: int, created: Option<NewsletterRow>)
      requires Valid()
      modifies this
      ensures Valid()
      ensures subscribers == old(subscribers) && issues == old(issues)
      ensures !CreateBodyValid(body) ==>
        status == StatusBadRequest && created == None && newsletters == old(newsletters) && nextId == old(nextId)
      ensures CreateBodyValid(body) ==>
        && status == StatusCreated
        && created == Some(NewsletterRow(old(nextId), body.value["name"], body.value["prompt"], now))
        && newsletters == old(newsletters) + [created.value]
        && nextId == old(nextId) + 1
    {
      if body.None? || !HasText(body.value, "name") || !HasText(body.value, "prompt") {
        return StatusBadRequest, None;
      }
      var nl := NewsletterRow(nextId, body.value["name"], body.value["prompt"], now);
      assert NewsletterIds(newsletters + [nl]) == NewsletterIds(newsletters) + {nl.id};
      newsletters := newsletters + [nl];
      nextId := nextId + 1;
      status, created := StatusCreated, Some(nl);
    }

    /** `GET /api/newsletters`. */
    method List() returns (r: seq<NewsletterSummary>)
      ensures r == ListNewsletters(newsletters, subscribers)
    {
      r := ListNewsletters(newsletters, subscribers);
    }

    /** `POST /api/newsletters/<nid>/subscribe`: a `null` body fails on `data.get` with a server error;
        the commit fails, and is rolled back, when the email is already in the table or `nid` names
        no newsletter. */
    method Subscribe(nid: Id, body: Body, now: Time) returns (status: int)
      requires Valid()
      modifies this
      ensures Valid()
      ensures newsletters == old(newsletters) && issues == old(issues)
      ensures body.None? ==> status == StatusServerError && subscribers == old(subscribers)
      ensures body.Some? && !HasText(body.value, "email") ==> status == StatusBadRequest && subscribers == old(subscribers)
      ensures body.Some? && HasText(body.value, "email") ==>
        var email := body.value["email"];
        if email in Emails(old(subscribers)) || nid !in NewsletterIds(newsletters) then
          status == StatusBadRequest && subscribers == old(subscribers)
        else
          status == StatusCreated && subscribers == old(subscribers) + [SubscriberRow(old(nextId), nid, email, now)]
    {
      if body.None? {
        return StatusServerError;
      }
      if !HasText(body.value, "email") {
        return StatusBadRequest;
      }
      var email := body.value["email"];
      var sub := SubscriberRow(nextId, nid, email, now);
      if email in Emails(subscribers) || nid !in NewsletterIds(newsletters) {
        // the commit violates a constraint and is rolled back
        return StatusBadRequest;
      }
      forall i | 0 <= i < |subscribers| ensures subscribers[i].email != email {
        assert subscribers[i] in subscribers;
      }
      subscribers := subscribers + [sub];
      nextId := nextId + 1;
      status := StatusCreated;
    }

    /** `POST /api/newsletters/<nid>/issues`, with the generated text as `content`. */
    method CreateIssue(nid: Id, content: string, now: Time) returns (status: int, issue: Option<IssueRow>)
      requires Valid()
      modifies this
      ensures Valid()
      ensures newsletters == old(newsletters) && subscribers == old(subscribers)
      ensures nid !in NewsletterIds(newsletters) ==> status == StatusNotFound && issue == None && issues == old(issues)
      ensures nid in NewsletterIds(newsletters) ==>
        && status == StatusCreated
        && issue == Some(IssueRow(old(nextId), nid, content, ScheduleSendAt(now), None))
        && issues == old(issues) + [issue.value]
    {
      if nid !in NewsletterIds(newsletters) {
        return StatusNotFound, None;
      }
      var row := IssueRow(nextId, nid, content, ScheduleSendAt(now), None);
      issues := issues + [row];
      nextId := nextId + 1;
      status, issue := StatusCreated, Some(row);
    }

    /** The sending job: marks every pending issue sent at `now`, whatever happens to its mail,
        and returns the messages it attempted. */
    method SendPendingIssues(now: Time) returns (outbox: seq<Mail>)
      requires Valid()
      modifies this
      ensures Valid()
      ensures newsletters == old(newsletters) && subscribers == old(subscribers) && nextId == old(nextId)
      ensures issues == MarkSent(old(issues), now)
      ensures outbox == PendingMail(old(issues), newsletters, subscribers, now)
    {
      MarkSentKeepsIssuesValid(issues, newsletters, nextId, now);
      var updated;
      updated, outbox := SendAndMark(issues, newsletters, subscribers, now);
      // the session commits every change at once
      issues := updated;
    }

    /** The daily job: one issue per newsletter, with that newsletter's generated content, recorded as
        scheduled and sent at `now`; returns the messages it attempted. */
    method DailyGenerateAndSend(now: Time, contents: seq<string>) returns (outbox: seq<Mail>)
      requires Valid()
      requires |contents| == |newsletters|
      modifies this
      ensures Valid()
      ensures newsletters == old(newsletters) && subscribers == old(subscribers)
      ensures nextId == old(nextId) + |newsletters|
      ensures issues == old(issues) + DailyIssues(newsletters, contents, now, old(nextId))
      ensures outbox == DailyMail(newsletters, subscribers, contents, |newsletters|)
    {
      DailyIssuesKeepValid(newsletters, subscribers, issues, nextId, contents, now);
      var added;
      added, outbox := GenerateAndSend(newsletters, subscribers, contents, now, nextId);
      // the session commits every added issue at once
      issues := issues + added;
      nextId := nextId + |newsletters|;
    }
  }
}
