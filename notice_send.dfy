// POST /api/notices/send: the batch step that moves pending notices to
// `sent`. It selects the pending notices (restricted to the requested ids
// when a non-empty list is given), skips silently those whose trust belongs
// to someone else, calls the dispatcher once per remaining notice, and on
// success marks the notice sent and appends a `notice_sent` audit entry;
// on failure it leaves the notice pending and records an error line.
//
// `Run` is the specification of the loop, one notice at a time; the
// lemmas below give its closed form and the properties the handler
// promises (counters, audit entries, the only transition it applies).

module NoticeSend {
  import opened Types
  import opened Ledger
  import Seqs
  import opened NoticeEmail

  const DefaultAppUrl := "http://localhost:3000"
  const AckPath := "/acknowledge/"
  const AddressSeparator := ", "

  /** `process.env.NEXT_PUBLIC_APP_URL || 'http://localhost:3000'`. */
  function AppUrl(env: Option<string>): string
  {
    OrElse(env, DefaultAppUrl)
  }

  /** The link a beneficiary follows to acknowledge the notice; the token
      reads back from it. */
  function AckUrl(appUrl: string, token: string): (r: string)
    ensures TokenOfAckUrl(appUrl, r) == Some(token)
  {
    var lead := appUrl + AckPath;
    assert (lead + token)[..|lead|] == lead && (lead + token)[|lead|..] == token;
    lead + token
  }

  /** The token a link of `AckUrl`'s shape carries, if it has that shape. */
  function TokenOfAckUrl(appUrl: string, url: string): Option<string>
  {
    var lead := appUrl + AckPath;
    if |lead| <= |url| && url[..|lead|] == lead then Some(url[|lead|..]) else None
  }

  /** `parts.filter(Boolean)` on nullable strings: the present, non-empty
      parts, in their order and with their multiplicity. */
  function PresentParts(parts: seq<Option<string>>): (r: seq<string>)
    ensures |r| == |Seqs.Filter(Present, parts)|
    ensures forall i :: 0 <= i < |r| ==> Some(r[i]) == Seqs.Filter(Present, parts)[i]
    ensures forall i :: 0 <= i < |r| ==> r[i] != ""
    ensures forall s :: s in r <==> Some(s) in parts && s != ""
  {
    if parts == [] then []
    else
      assert parts == [parts[0]] + parts[1..];
      (if Present(parts[0]) then [parts[0].value] else []) + PresentParts(parts[1..])
  }

  /** The trustee's address line: the non-empty parts among address,
      city, state and zip, joined with ", ". */
  function TrusteeAddress(t: Trust): (r: string)
    ensures r == "" <==> !Present(t.trustee_address) && !Present(t.trustee_city)
                         && !Present(t.trustee_state) && !Present(t.trustee_zip)
  {
    var parts := PresentParts([t.trustee_address, t.trustee_city, t.trustee_state, t.trustee_zip]);
    if parts == [] then Seqs.Join(parts, AddressSeparator)
    else
      Seqs.JoinLength(parts, AddressSeparator);
      assert parts[0] in parts && parts[0] != "";
      assert Seqs.SumLengths(parts) >= |parts[0]|;
      Seqs.Join(parts, AddressSeparator)
  }

  /** When every part is present and non-empty, all of them are kept. */
  lemma {:induction false} PresentPartsAllPresent(parts: seq<Option<string>>)
    requires forall i :: 0 <= i < |parts| ==> Present(parts[i])
    ensures |PresentParts(parts)| == |parts|
    ensures forall i :: 0 <= i < |parts| ==> Some(PresentParts(parts)[i]) == parts[i]
  {
    if parts != [] {
      PresentPartsAllPresent(parts[1..]);
    }
  }

  lemma JoinFour(parts: seq<string>, sep: string)
    requires |parts| == 4
    ensures Seqs.Join(parts, sep) == parts[0] + sep + parts[1] + sep + parts[2] + sep + parts[3]
  {
    var p1 := parts[1..];
    var p2 := p1[1..];
    assert |p2| == 2 && p2[1..] == [parts[3]];
    assert Seqs.Join(p2, sep) == parts[2] + sep + parts[3];
    assert Seqs.Join(p1, sep) == parts[1] + sep + (parts[2] + sep + parts[3]);
  }

  /** With all four parts present the line is the full address. */
  lemma TrusteeAddressFull(t: Trust)
    requires Present(t.trustee_address) && Present(t.trustee_city)
    requires Present(t.trustee_state) && Present(t.trustee_zip)
    ensures TrusteeAddress(t) == t.trustee_address.value + ", " + t.trustee_city.value + ", "
                                 + t.trustee_state.value + ", " + t.trustee_zip.value
  {
    AllPartsKept(t);
    JoinFour(PresentParts([t.trustee_address, t.trustee_city, t.trustee_state, t.trustee_zip]), AddressSeparator);
  }

  /** With all four parts present, none is dropped. */
  lemma AllPartsKept(t: Trust)
    requires Present(t.trustee_address) && Present(t.trustee_city)
    requires Present(t.trustee_state) && Present(t.trustee_zip)
    ensures var kept := PresentParts([t.trustee_address, t.trustee_city, t.trustee_state, t.trustee_zip]);
            && TrusteeAddress(t) == Seqs.Join(kept, AddressSeparator)
            && |kept| == 4
            && kept[0] == t.trustee_address.value && kept[1] == t.trustee_city.value
            && kept[2] == t.trustee_state.value && kept[3] == t.trustee_zip.value
  {
    var parts := [t.trustee_address, t.trustee_city, t.trustee_state, t.trustee_zip];
    forall i | 0 <= i < |parts|
      ensures Present(parts[i])
    {
      if i == 0 {} else if i == 1 {} else if i == 2 {} else {}
    }
    PresentPartsAllPresent(parts);
  }

  /** In general the line holds the present parts with one separator
      between each two of them. */
  lemma TrusteeAddressLength(t: Trust)
    ensures var parts := PresentParts([t.trustee_address, t.trustee_city, t.trustee_state, t.trustee_zip]);
            parts != [] ==> |TrusteeAddress(t)| == Seqs.SumLengths(parts) + 2 * (|parts| - 1)
  {
    var parts := PresentParts([t.trustee_address, t.trustee_city, t.trustee_state, t.trustee_zip]);
    if parts != [] {
      Seqs.JoinLength(parts, AddressSeparator);
    }
  }

  /** The template data of one notice. `beneficiaryName` carries the
      recipient's email address: the handler overrides the name with it
      before the email is built. */
  function EmailDataFor(n: Notice, t: Trust, appUrl: string): (r: NoticeEmailData)
    ensures r.beneficiaryName == n.recipient_email
    ensures TokenOfAckUrl(appUrl, r.acknowledgmentUrl) == Some(n.acknowledgment_token)
    ensures r.trustName == t.name && r.trusteePhone == t.trustee_phone
    ensures r.noticeDate == n.notice_date && r.withdrawalAmount == n.withdrawal_amount
            && r.withdrawalDeadline == n.withdrawal_deadline
  {
    NoticeEmailData(
      trustName := t.name,
      trustDate := t.trust_date,
      beneficiaryName := n.recipient_email,
      noticeDate := n.notice_date,
      withdrawalAmount := n.withdrawal_amount,
      withdrawalDeadline := n.withdrawal_deadline,
      trusteeName := t.trustee_name,
      trusteeEmail := t.trustee_email,
      trusteePhone := t.trustee_phone,
      trusteeAddress := TrusteeAddress(t),
      acknowledgmentUrl := AckUrl(appUrl, n.acknowledgment_token))
  }

  /** A notice email goes to the notice's `recipient_email`, and, because
      the override also feeds the salutation, greets the first word of
      that address rather than of `recipient_name`. */
  lemma NoticeEmailAddressedToRecipient(cfg: MailerConfig, n: Notice, t: Trust, appUrl: string)
    ensures NoticeRequest(cfg, EmailDataFor(n, t, appUrl)).to == n.recipient_email
    ensures NoticeRequest(cfg, EmailDataFor(n, t, appUrl)).salutation == "Dear " + FirstName(n.recipient_email) + ","
    ensures NoticeRequest(cfg, EmailDataFor(n, t, appUrl)).subject == NoticeSubject(t.name)
    ensures TokenOfAckUrl(appUrl, EmailDataFor(n, t, appUrl).acknowledgmentUrl) == Some(n.acknowledgment_token)
  {
  }

  /** Notices with different acknowledgment tokens are different messages
      to the provider, even when they go to the same address about the same
      trust (two contributions, say): each carries its own link. */
  lemma NoticeMessagesDistinct(cfg: MailerConfig, n1: Notice, n2: Notice, t1: Trust, t2: Trust, appUrl: string)
    requires n1.acknowledgment_token != n2.acknowledgment_token
    ensures NoticeRequest(cfg, EmailDataFor(n1, t1, appUrl)) != NoticeRequest(cfg, EmailDataFor(n2, t2, appUrl))
  {
    var d1 := EmailDataFor(n1, t1, appUrl);
    var d2 := EmailDataFor(n2, t2, appUrl);
    assert d1.acknowledgmentUrl != d2.acknowledgmentUrl;
    assert NoticeRequest(cfg, d1).template != NoticeRequest(cfg, d2).template;
  }

  // ----- selection -----

  /** `.eq('status', 'pending')`, then `.in('id', notice_ids)` when the list
      is non-empty. */
  predicate IsCandidate(n: Notice, noticeIds: Option<seq<Id>>)
  {
    n.status == Pending && (noticeIds.None? || |noticeIds.value| == 0 || n.id in noticeIds.value)
  }

  function Candidates(notices: seq<Notice>, noticeIds: Option<seq<Id>>): (r: seq<Notice>)
    ensures forall n :: n in r <==> n in notices && IsCandidate(n, noticeIds)
    ensures Seqs.IsSubsequence(r, notices)
  {
    Seqs.Filter((n: Notice) => IsCandidate(n, noticeIds), notices)
  }

  /** An absent or empty id list selects every pending notice; a non-empty
      one only the pending notices it names. */
  lemma CandidatesSelection(notices: seq<Notice>, noticeIds: Option<seq<Id>>)
    ensures noticeIds.None? || noticeIds == Some([]) ==>
              forall n :: n in Candidates(notices, noticeIds) <==> n in notices && n.status == Pending
    ensures noticeIds.Some? && noticeIds.value != [] ==>
              forall n :: n in Candidates(notices, noticeIds)
                <==> n in notices && n.status == Pending && n.id in noticeIds.value
    ensures forall n :: n in Candidates(notices, noticeIds) ==> n.status == Pending
  {
  }

  /** Candidates of a table with distinct ids have distinct ids. */
  lemma CandidatesDistinct(notices: seq<Notice>, noticeIds: Option<seq<Id>>)
    requires NoticeIdsDistinct(notices)
    ensures NoticeIdsDistinct(Candidates(notices, noticeIds))
  {
    Seqs.FilterKeepsDistinct((n: Notice) => IsCandidate(n, noticeIds), (n: Notice) => n.id, notices);
  }

  // ----- one notice -----

  /** Everything the loop reads besides the notice itself: the caller, the
      trust table, the app URL, the clock reading used for `sent_at`, the
      mailer configuration, and the email provider. */
  datatype SendEnv = SendEnv(
    user: Id,
    trusts: seq<Trust>,
    appUrl: string,
    now: string,
    mailer: MailerConfig,
    provider: EmailRequest -> ProviderOutcome)

  /** What the loop does with one candidate. */
  datatype Attempt = Skipped | Dispatched(messageId: Option<string>) | Rejected(reason: string)

  /** `${result.error}`: the error text, or "undefined" when there is none. */
  function ErrorText(e: Option<string>): string
  {
    if e.Some? then e.value else "undefined"
  }

  predicate Owned(env: SendEnv, n: Notice)
  {
    OwnsTrust(env.trusts, n.trust_id, env.user)
  }

  /** A notice of another user's trust (or of no trust) is skipped; any
      other is dispatched exactly when the sender reports success, with the
      sender's message id, and otherwise rejected with its error text. */
  function AttemptFor(env: SendEnv, n: Notice): (a: Attempt)
    ensures a.Skipped? <==> !Owned(env, n)
    ensures Owned(env, n) ==>
              var res := SendNoticeEmail(env.mailer, EmailDataFor(n, FindTrust(env.trusts, n.trust_id).value, env.appUrl),
                                         env.provider);
              && (a.Dispatched? <==> res.success)
              && (a.Dispatched? ==> a.messageId == res.messageId)
              && (a.Rejected? ==> a.reason == ErrorText(res.error))
  {
    match FindTrust(env.trusts, n.trust_id)
    case None => Skipped
    case Some(t) =>
      if t.user_id != env.user then Skipped
      else
        var r := SendNoticeEmail(env.mailer, EmailDataFor(n, t, env.appUrl), env.provider);
        if r.success then Dispatched(r.messageId) else Rejected(ErrorText(r.error))
  }

  /** A notice of the caller's trust whose email the sender reports as
      failed is rejected with the sender's reason, never "undefined". */
  lemma FailureHasReason(env: SendEnv, n: Notice, t: Trust)
    requires FindTrust(env.trusts, n.trust_id) == Some(t) && t.user_id == env.user
    requires !SendNoticeEmail(env.mailer, EmailDataFor(n, t, env.appUrl), env.provider).success
    ensures AttemptFor(env, n).Rejected?
    ensures Some(AttemptFor(env, n).reason)
            == SendNoticeEmail(env.mailer, EmailDataFor(n, t, env.appUrl), env.provider).error
  {
  }

  function MarkSent(n: Notice, now: string): Notice
  {
    n.(status := Sent, sent_at := Some(now))
  }

  /** `.update({ status: 'sent', sent_at: now }).eq('id', id)`. */
  function MarkSentWhere(table: seq<Notice>, id: Id, now: string): (r: seq<Notice>)
    ensures |r| == |table|
    ensures forall i :: 0 <= i < |table| ==> r[i].id == table[i].id && r[i].trust_id == table[i].trust_id
  {
    seq(|table|, i requires 0 <= i < |table| => if table[i].id == id then MarkSent(table[i], now) else table[i])
  }

  function SentEntry(user: Id, n: Notice, messageId: Option<string>): AuditEntry
  {
    AuditEntry(Some(user), NoticeSentAction, NoticeEntity, n.id, NoticeSentDetails(n.recipient_email, messageId))
  }

  /** `${notice.recipient_name}: ${result.error}`. */
  function FailureLine(n: Notice, reason: string): string
  {
    n.recipient_name + ": " + reason
  }

  /** The loop's variables: the notice table, the audit log, and the
      `results` object. */
  datatype SendState = SendState(
    notices: seq<Notice>,
    audit: seq<AuditEntry>,
    sent: nat,
    failed: nat,
    errors: seq<string>)

  /** What the loop needs besides the state: the caller, the timestamp
      written into `sent_at`, and what happens to each candidate. */
  datatype Batch = Batch(user: Id, now: string, attempt: Notice -> Attempt)

  /** The batch of one request: each candidate goes through `AttemptFor`. */
  function BatchOf(env: SendEnv): (b: Batch)
    ensures b.user == env.user && b.now == env.now
    ensures forall n :: b.attempt(n).Skipped? <==> !Owned(env, n)
  {
    Batch(env.user, env.now, (n: Notice) => AttemptFor(env, n))
  }

  /** One iteration of the loop: a skipped notice changes nothing; any
      other counts once, as sent (with one audit entry) or as failed (with
      one error line); the table keeps its rows and their ids. */
  function Step(b: Batch, st: SendState, n: Notice): (r: SendState)
    ensures b.attempt(n).Skipped? ==> r == st
    ensures r.sent >= st.sent && r.failed >= st.failed
    ensures r.sent + r.failed == st.sent + st.failed + (if b.attempt(n).Skipped? then 0 else 1)
    ensures |r.audit| == |st.audit| + (r.sent - st.sent)
    ensures |r.errors| == |st.errors| + (r.failed - st.failed)
    ensures |r.notices| == |st.notices|
  {
    match b.attempt(n)
    case Skipped => st
    case Dispatched(id) =>
      st.(notices := MarkSentWhere(st.notices, n.id, b.now),
          audit := st.audit + [SentEntry(b.user, n, id)],
          sent := st.sent + 1)
    case Rejected(reason) =>
      st.(failed := st.failed + 1, errors := st.errors + [FailureLine(n, reason)])
  }

  /** The loop over the candidates, in the order the query returned them. */
  function Run(b: Batch, st: SendState, cands: seq<Notice>): (r: SendState)
    ensures r.sent >= st.sent && r.failed >= st.failed
    ensures (r.sent - st.sent) + (r.failed - st.failed) <= |cands|
    ensures |r.audit| == |st.audit| + (r.sent - st.sent)
    ensures |r.errors| == |st.errors| + (r.failed - st.failed)
    ensures |r.notices| == |st.notices|
    decreases |cands|
  {
    if cands == [] then st else Run(b, Step(b, st, cands[0]), cands[1..])
  }

  // ----- closed form -----

  /** The ids of the candidates whose dispatch succeeded. */
  function DeliveredIds(b: Batch, cands: seq<Notice>): (r: set<Id>)
    ensures forall id :: id in r <==> exists n :: n in cands && b.attempt(n).Dispatched? && n.id == id
  {
    if cands == [] then {}
    else
      assert cands == [cands[0]] + cands[1..];
      (if b.attempt(cands[0]).Dispatched? then {cands[0].id} else {}) + DeliveredIds(b, cands[1..])
  }

  /** The audit entries of the successful dispatches, in order. */
  function SentEntries(b: Batch, cands: seq<Notice>): (r: seq<AuditEntry>)
    ensures forall e :: e in r ==> exists n :: n in cands && e.entity_id == n.id
  {
    if cands == [] then []
    else
      assert cands == [cands[0]] + cands[1..];
      match b.attempt(cands[0])
      case Dispatched(id) => [SentEntry(b.user, cands[0], id)] + SentEntries(b, cands[1..])
      case _ => SentEntries(b, cands[1..])
  }

  /** The error lines of the failed dispatches, in order. */
  function FailureLines(b: Batch, cands: seq<Notice>): seq<string>
  {
    if cands == [] then []
    else
      match b.attempt(cands[0])
      case Rejected(reason) => [FailureLine(cands[0], reason)] + FailureLines(b, cands[1..])
      case _ => FailureLines(b, cands[1..])
  }

  /** Every row whose id is in `ids` marked sent, the others as they were. */
  function MarkSentAll(table: seq<Notice>, ids: set<Id>, now: string): seq<Notice>
  {
    seq(|table|, i requires 0 <= i < |table| => if table[i].id in ids then MarkSent(table[i], now) else table[i])
  }

  lemma MarkSentAllNone(table: seq<Notice>, now: string)
    ensures MarkSentAll(table, {}, now) == table
  {
  }

  lemma MarkSentAllAfterWhere(table: seq<Notice>, id: Id, ids: set<Id>, now: string)
    ensures MarkSentAll(MarkSentWhere(table, id, now), ids, now) == MarkSentAll(table, {id} + ids, now)
  {
  }

  lemma {:induction false} RunNotices(b: Batch, st: SendState, cands: seq<Notice>)
    ensures Run(b, st, cands).notices == MarkSentAll(st.notices, DeliveredIds(b, cands), b.now)
    decreases |cands|
  {
    if cands == [] {
      MarkSentAllNone(st.notices, b.now);
    } else {
      var n := cands[0];
      RunNotices(b, Step(b, st, n), cands[1..]);
      if b.attempt(n).Dispatched? {
        MarkSentAllAfterWhere(st.notices, n.id, DeliveredIds(b, cands[1..]), b.now);
      }
    }
  }

  lemma {:induction false} RunAudit(b: Batch, st: SendState, cands: seq<Notice>)
    ensures Run(b, st, cands).audit == st.audit + SentEntries(b, cands)
    ensures Run(b, st, cands).sent == st.sent + |SentEntries(b, cands)|
    decreases |cands|
  {
    if cands == [] {
      assert st.audit + [] == st.audit;
    } else {
      var n := cands[0];
      RunAudit(b, Step(b, st, n), cands[1..]);
      match b.attempt(n)
      case Dispatched(id) =>
        var e := SentEntry(b.user, n, id);
        assert st.audit + [e] + SentEntries(b, cands[1..]) == st.audit + ([e] + SentEntries(b, cands[1..]));
      case _ =>
    }
  }

  lemma {:induction false} RunErrors(b: Batch, st: SendState, cands: seq<Notice>)
    ensures Run(b, st, cands).errors == st.errors + FailureLines(b, cands)
    ensures Run(b, st, cands).failed == st.failed + |FailureLines(b, cands)|
    decreases |cands|
  {
    if cands == [] {
      assert st.errors + [] == st.errors;
    } else {
      var n := cands[0];
      RunErrors(b, Step(b, st, n), cands[1..]);
      match b.attempt(n)
      case Rejected(reason) =>
        var line := FailureLine(n, reason);
        assert st.errors + [line] + FailureLines(b, cands[1..]) == st.errors + ([line] + FailureLines(b, cands[1..]));
      case _ =>
    }
  }

  /** The loop's result without the loop: the delivered rows marked sent,
      one audit entry per delivery and one error line per failure, appended
      in candidate order, and the counters their numbers. */
  lemma RunClosedForm(b: Batch, st: SendState, cands: seq<Notice>)
    ensures Run(b, st, cands)
            == SendState(
                 MarkSentAll(st.notices, DeliveredIds(b, cands), b.now),
                 st.audit + SentEntries(b, cands),
                 st.sent + |SentEntries(b, cands)|,
                 st.failed + |FailureLines(b, cands)|,
                 st.errors + FailureLines(b, cands))
  {
    RunNotices(b, st, cands);
    RunAudit(b, st, cands);
    RunErrors(b, st, cands);
  }

  /** Every owned candidate is either delivered or failed. */
  lemma {:induction false} OutcomesCoverOwned(env: SendEnv, cands: seq<Notice>)
    ensures |SentEntries(BatchOf(env), cands)| + |FailureLines(BatchOf(env), cands)|
            == |Seqs.Filter((n: Notice) => Owned(env, n), cands)|
  {
    if cands != [] {
      OutcomesCoverOwned(env, cands[1..]);
      var b := BatchOf(env);
      assert b.attempt(cands[0]).Skipped? <==> !Owned(env, cands[0]);
    }
  }

  /** After the loop `sent + failed` is the number of owned candidates,
      there is one error line per failure, and the audit log grew by one
      entry per success, appended after the entries it had. */
  lemma SendCounters(env: SendEnv, notices: seq<Notice>, audit: seq<AuditEntry>, cands: seq<Notice>)
    ensures var st := Run(BatchOf(env), SendState(notices, audit, 0, 0, []), cands);
            && st.sent + st.failed == |Seqs.Filter((n: Notice) => Owned(env, n), cands)|
            && |st.errors| == st.failed
            && |st.audit| == |audit| + st.sent
            && st.audit[..|audit|] == audit
  {
    RunClosedForm(BatchOf(env), SendState(notices, audit, 0, 0, []), cands);
    OutcomesCoverOwned(env, cands);
  }

  /** The loop changes a row of the notice table only by moving a pending
      candidate whose dispatch succeeded to `sent`, stamped with `now`;
      every other row (not pending, not selected, another user's, or a
      failed dispatch) is left exactly as it was. */
  lemma SendTransitions(b: Batch, notices: seq<Notice>, audit: seq<AuditEntry>, noticeIds: Option<seq<Id>>)
    requires NoticeIdsDistinct(notices)
    ensures var after := Run(b, SendState(notices, audit, 0, 0, []), Candidates(notices, noticeIds)).notices;
            && |after| == |notices|
            && forall j :: 0 <= j < |notices| ==>
                 after[j] == if IsCandidate(notices[j], noticeIds) && b.attempt(notices[j]).Dispatched?
                             then MarkSent(notices[j], b.now) else notices[j]
    ensures var after := Run(b, SendState(notices, audit, 0, 0, []), Candidates(notices, noticeIds)).notices;
            forall j :: 0 <= j < |notices| ==>
              after[j] == notices[j]
              || (notices[j].status == Pending && after[j] == notices[j].(status := Sent, sent_at := Some(b.now)))
  {
    var cands := Candidates(notices, noticeIds);
    RunClosedForm(b, SendState(notices, audit, 0, 0, []), cands);
    var ids := DeliveredIds(b, cands);
    forall j | 0 <= j < |notices|
      ensures notices[j].id in ids <==> IsCandidate(notices[j], noticeIds) && b.attempt(notices[j]).Dispatched?
    {
      if notices[j].id in ids {
        var m :| m in cands && b.attempt(m).Dispatched? && m.id == notices[j].id;
        var i :| 0 <= i < |notices| && notices[i] == m;
        assert i == j;
      } else {
        if IsCandidate(notices[j], noticeIds) {
          assert notices[j] in cands;
        }
      }
    }
  }

  function CountFor(entries: seq<AuditEntry>, id: Id): nat
  {
    if entries == [] then 0
    else (if entries[0].entity_id == id then 1 else 0) + CountFor(entries[1..], id)
  }

  lemma {:induction false} CountForAbsent(entries: seq<AuditEntry>, id: Id)
    requires forall e :: e in entries ==> e.entity_id != id
    ensures CountFor(entries, id) == 0
  {
    if entries != [] {
      assert entries[0] in entries;
      CountForAbsent(entries[1..], id);
    }
  }

  /** Among candidates with distinct ids, each one gets exactly one
      `notice_sent` audit entry when its dispatch succeeded and none
      otherwise. */
  lemma {:induction false} AuditOncePerDelivered(b: Batch, cands: seq<Notice>, k: nat)
    requires NoticeIdsDistinct(cands)
    requires k < |cands|
    ensures CountFor(SentEntries(b, cands), cands[k].id)
            == if b.attempt(cands[k]).Dispatched? then 1 else 0
    decreases |cands|
  {
    var rest := cands[1..];
    var target := cands[k].id;
    if k == 0 {
      forall e | e in SentEntries(b, rest)
        ensures e.entity_id != target
      {
        var m :| m in rest && e.entity_id == m.id;
        var i :| 0 <= i < |rest| && rest[i] == m;
        assert cands[i + 1] == m;
      }
      CountForAbsent(SentEntries(b, rest), target);
    } else {
      assert rest[k - 1] == cands[k];
      AuditOncePerDelivered(b, rest, k - 1);
      assert cands[0].id != target;
    }
    match b.attempt(cands[0])
    case Dispatched(id) =>
      assert SentEntries(b, cands) == [SentEntry(b.user, cands[0], id)] + SentEntries(b, rest);
      assert ([SentEntry(b.user, cands[0], id)] + SentEntries(b, rest))[1..] == SentEntries(b, rest);
    case _ =>
  }

  /** The candidates of a table with distinct ids: each gets exactly one
      `notice_sent` audit entry when its dispatch succeeded and none
      otherwise. */
  lemma AuditOncePerCandidate(b: Batch, notices: seq<Notice>, noticeIds: Option<seq<Id>>, k: nat)
    requires NoticeIdsDistinct(notices)
    requires k < |Candidates(notices, noticeIds)|
    ensures var cands := Candidates(notices, noticeIds);
            CountFor(SentEntries(b, cands), cands[k].id) == if b.attempt(cands[k]).Dispatched? then 1 else 0
  {
    CandidatesDistinct(notices, noticeIds);
    AuditOncePerDelivered(b, Candidates(notices, noticeIds), k);
  }

  /** A candidate of the caller's trust whose email the sender reports as
      sent gets a `notice_sent` entry carrying the sender's message id. */
  lemma {:induction false} SuccessLogsMessageId(env: SendEnv, cands: seq<Notice>, n: Notice)
    requires n in cands && Owned(env, n)
    requires SendNoticeEmail(env.mailer, EmailDataFor(n, FindTrust(env.trusts, n.trust_id).value, env.appUrl),
                             env.provider).success
    ensures SentEntry(env.user, n,
                      SendNoticeEmail(env.mailer, EmailDataFor(n, FindTrust(env.trusts, n.trust_id).value, env.appUrl),
                                      env.provider).messageId)
            in SentEntries(BatchOf(env), cands)
    decreases |cands|
  {
    var b := BatchOf(env);
    if cands[0] != n {
      SuccessLogsMessageId(env, cands[1..], n);
      match b.attempt(cands[0])
      case Dispatched(id) =>
        assert SentEntries(b, cands) == [SentEntry(b.user, cands[0], id)] + SentEntries(b, cands[1..]);
      case _ =>
    }
  }

  // ----- the handler -----

  lemma MarkSentWhereKeepsValid(trusts: seq<Trust>, beneficiaries: seq<Beneficiary>,
                                contributions: seq<Contribution>, notices: seq<Notice>, nextId: Id,
                                id: Id, now: string)
    requires ValidTables(trusts, beneficiaries, contributions, notices, nextId)
    ensures ValidTables(trusts, beneficiaries, contributions, MarkSentWhere(notices, id, now), nextId)
  {
  }

  /** `{ sent, failed, errors }`; `errors` is absent from the early answer
      given when nothing is pending. */
  datatype SendReport = SendReport(sent: nat, failed: nat, errors: Option<seq<string>>)

  /** One iteration of the handler's loop: the batch's attempt (for the
      handler, `AttemptFor`: look the trust up, skip the notice unless the
      caller owns it, otherwise dispatch the email), then the outcome
      recorded in the store and the counters. */
  method SendOne(db: Store, b: Batch, n: Notice, sent: nat, failed: nat, errors: seq<string>)
    returns (sent': nat, failed': nat, errors': seq<string>)
    requires db.Valid()
    modifies db
    ensures db.Valid()
    ensures db.trusts == old(db.trusts) && db.beneficiaries == old(db.beneficiaries)
    ensures db.contributions == old(db.contributions) && db.nextId == old(db.nextId)
    ensures SendState(db.notices, db.audit, sent', failed', errors')
            == Step(b, SendState(old(db.notices), old(db.audit), sent, failed, errors), n)
  {
    sent', failed', errors' := sent, failed, errors;
    match b.attempt(n) {
      case Skipped =>
      case Dispatched(messageId) =>
        MarkSentWhereKeepsValid(db.trusts, db.beneficiaries, db.contributions, db.notices, db.nextId, n.id, b.now);
        db.notices := MarkSentWhere(db.notices, n.id, b.now);
        db.audit := db.audit + [SentEntry(b.user, n, messageId)];
        sent' := sent + 1;
      case Rejected(reason) =>
        failed' := failed + 1;
        errors' := errors + [FailureLine(n, reason)];
    }
  }

  /** The handler's loop over the candidates, in order. */
  method SendAll(db: Store, env: SendEnv, cands: seq<Notice>) returns (sent: nat, failed: nat, errors: seq<string>)
    requires db.Valid() && env.trusts == db.trusts
    modifies db
    ensures db.Valid()
    ensures db.trusts == old(db.trusts) && db.beneficiaries == old(db.beneficiaries)
    ensures db.contributions == old(db.contributions) && db.nextId == old(db.nextId)
    ensures SendState(db.notices, db.audit, sent, failed, errors)
            == Run(BatchOf(env), SendState(old(db.notices), old(db.audit), 0, 0, []), cands)
  {
    var batch := BatchOf(env);
    ghost var goal := Run(batch, SendState(db.notices, db.audit, 0, 0, []), cands);
    sent, failed, errors := 0, 0, [];
    for k := 0 to |cands|
      invariant db.Valid() && env.trusts == db.trusts
      invariant db.trusts == old(db.trusts) && db.beneficiaries == old(db.beneficiaries)
      invariant db.contributions == old(db.contributions) && db.nextId == old(db.nextId)
      invariant Run(batch, SendState(db.notices, db.audit, sent, failed, errors), cands[k..]) == goal
    {
      assert cands[k..] == [cands[k]] + cands[k + 1..];
      sent, failed, errors := SendOne(db, batch, cands[k], sent, failed, errors);
    }
  }

  /** POST /api/notices/send. */
  method SendPending(db: Store, user: Option<Id>, noticeIds: Option<seq<Id>>, appUrlEnv: Option<string>,
                     now: string, mailer: MailerConfig, provider: EmailRequest -> ProviderOutcome)
    returns (resp: Response<SendReport>)
    requires db.Valid()
    modifies db
    ensures db.Valid()
    ensures db.trusts == old(db.trusts) && db.beneficiaries == old(db.beneficiaries)
    ensures db.contributions == old(db.contributions) && db.nextId == old(db.nextId)
    ensures user.None? ==> resp == Err(Unauthorized) && unchanged(db)
    ensures user.Some? && Candidates(old(db.notices), noticeIds) == [] ==>
              resp == Ok(SendReport(0, 0, None)) && unchanged(db)
    ensures user.Some? && Candidates(old(db.notices), noticeIds) != [] ==>
              var env := SendEnv(user.value, old(db.trusts), AppUrl(appUrlEnv), now, mailer, provider);
              var st := Run(BatchOf(env), SendState(old(db.notices), old(db.audit), 0, 0, []),
                            Candidates(old(db.notices), noticeIds));
              && resp == Ok(SendReport(st.sent, st.failed, Some(st.errors)))
              && db.notices == st.notices
              && db.audit == st.audit
  {
    if user.None? {
      return Err(Unauthorized);
    }
    var cands := Candidates(db.notices, noticeIds);
    if cands == [] {
      return Ok(SendReport(0, 0, None));
    }
    var env := SendEnv(user.value, db.trusts, AppUrl(appUrlEnv), now, mailer, provider);
    var sent, failed, errors := SendAll(db, env, cands);
    resp := Ok(SendReport(sent, failed, Some(errors)));
  }
}
