// GET and POST /api/contributions: the ordered checks before a contribution
// is recorded (the trust exists, it is the caller's, it has an active
// beneficiary), the row written, its audit entry, and the notices returned.

module ContributionsRoute {
  import opened Types
  import opened Ledger
  import Seqs

  /** The JSON body of a POST. */
  datatype ContributionInput = ContributionInput(
    trust_id: Option<Id>,
    amount: real,
    contribution_date: string,
    description: Option<string>)

  /** What a successful POST answers with. */
  datatype Recorded = Recorded(contribution: Contribution, notices: seq<Notice>)

  const Forbidden := ApiError(403, "Unauthorized")
  const NoActiveBeneficiaries :=
    ApiError(400, "Trust has no active beneficiaries. Add beneficiaries before recording contributions.")

  /** The active beneficiaries of a trust (the `count: 'exact'` query). */
  function ActiveBeneficiaries(beneficiaries: seq<Beneficiary>, trustId: Id): (r: seq<Beneficiary>)
    ensures forall b :: b in r <==> b in beneficiaries && b.trust_id == trustId && b.is_active
  {
    Seqs.Filter((b: Beneficiary) => b.trust_id == trustId && b.is_active, beneficiaries)
  }

  predicate TrustExists(trusts: seq<Trust>, trustId: Option<Id>)
  {
    trustId.Some? && FindTrust(trusts, trustId.value).Some?
  }

  /** The decision of POST /api/contributions: the checks run in the order
      401, 404, 403, 400 and all precede the insert; otherwise the row to
      insert (its id is assigned by the store). */
  function PrepareContribution(user: Option<Id>, body: ContributionInput, trusts: seq<Trust>,
                               beneficiaries: seq<Beneficiary>): (r: Response<Contribution>)
    ensures user.None? ==> r == Err(Unauthorized)
    ensures user.Some? && !TrustExists(trusts, body.trust_id) ==> r == Err(TrustNotFound)
    ensures (user.Some? && TrustExists(trusts, body.trust_id)
             && FindTrust(trusts, body.trust_id.value).value.user_id != user.value) ==> r == Err(Forbidden)
    ensures (user.Some? && TrustExists(trusts, body.trust_id)
             && FindTrust(trusts, body.trust_id.value).value.user_id == user.value
             && ActiveBeneficiaries(beneficiaries, body.trust_id.value) == []) ==> r == Err(NoActiveBeneficiaries)
    ensures r.Ok? <==> && user.Some? && body.trust_id.Some?
                       && OwnsTrust(trusts, body.trust_id.value, user.value)
                       && exists b :: b in beneficiaries && b.trust_id == body.trust_id.value && b.is_active
    ensures r.Ok? ==> && Some(r.data.trust_id) == body.trust_id
                      && r.data.amount == body.amount
                      && r.data.contribution_date == body.contribution_date
                      && r.data.description == OrNull(body.description)
                      && !r.data.notices_generated
  {
    if user.None? then Err(Unauthorized)
    else if body.trust_id.None? then Err(TrustNotFound)
    else match FindTrust(trusts, body.trust_id.value)
      case None => Err(TrustNotFound)
      case Some(trust) =>
        if trust.user_id != user.value then Err(Forbidden)
        else
          var active := ActiveBeneficiaries(beneficiaries, trust.id);
          if |active| == 0 then Err(NoActiveBeneficiaries)
          else
            assert active[0] in active;
            Ok(Contribution(
              id := 0,
              trust_id := trust.id,
              amount := body.amount,
              contribution_date := body.contribution_date,
              description := OrNull(body.description),
              notices_generated := false,
              notices_generated_at := None))
  }

  /** The notices of one contribution (`.eq('contribution_id', id)`). */
  function NoticesOf(notices: seq<Notice>, contributionId: Id): (r: seq<Notice>)
    ensures forall n :: n in r <==> n in notices && n.contribution_id == contributionId
    ensures Seqs.IsSubsequence(r, notices)
  {
    Seqs.Filter((n: Notice) => n.contribution_id == contributionId, notices)
  }

  /** `a <= b` in character order. On the store's `YYYY-MM-DD` dates this
      is calendar order. */
  predicate NotLater(a: string, b: string)
  {
    if a == [] then true
    else if b == [] then false
    else if a[0] != b[0] then a[0] < b[0]
    else NotLater(a[1..], b[1..])
  }

  /** Any two dates are ordered one way or the other. */
  lemma {:induction false} NotLaterTotal(a: string, b: string)
    ensures NotLater(a, b) || NotLater(b, a)
  {
    if a != [] && b != [] && a[0] == b[0] {
      NotLaterTotal(a[1..], b[1..]);
    }
  }

  /** `.order('contribution_date', { ascending: false })` holds of `cs`. */
  ghost predicate NewestFirst(cs: seq<Contribution>)
  {
    forall i :: 0 < i < |cs| ==> NotLater(cs[i].contribution_date, cs[i - 1].contribution_date)
  }

  /** Puts `c` into a newest-first list ahead of every row that is not
      later than it. */
  function InsertByDate(c: Contribution, cs: seq<Contribution>): (r: seq<Contribution>)
    requires NewestFirst(cs)
    ensures |r| == |cs| + 1
    ensures r[0] == c || (cs != [] && r[0] == cs[0])
    ensures multiset(r) == multiset(cs) + multiset{c}
    ensures NewestFirst(r)
  {
    if cs == [] || NotLater(cs[0].contribution_date, c.contribution_date) then [c] + cs
    else
      NotLaterTotal(c.contribution_date, cs[0].contribution_date);
      assert cs == [cs[0]] + cs[1..];
      assert NewestFirst(cs[1..]) by {
        forall i | 0 < i < |cs[1..]|
          ensures NotLater(cs[1..][i].contribution_date, cs[1..][i - 1].contribution_date)
        {
          assert cs[1..][i] == cs[i + 1] && cs[1..][i - 1] == cs[i];
        }
      }
      [cs[0]] + InsertByDate(c, cs[1..])
  }

  /** The rows of `cs` ordered by `contribution_date`, latest first. Rows
      with the same date come in no order the source promises. */
  function SortNewestFirst(cs: seq<Contribution>): (r: seq<Contribution>)
    ensures multiset(r) == multiset(cs)
    ensures NewestFirst(r)
  {
    if cs == [] then []
    else
      assert cs == [cs[0]] + cs[1..];
      InsertByDate(cs[0], SortNewestFirst(cs[1..]))
  }

  /** GET /api/contributions: every contribution, or those of one trust
      when `trust_id` is supplied, latest contribution date first. */
  function ListContributions(user: Option<Id>, trustId: Option<Id>, contributions: seq<Contribution>)
    : (r: Response<seq<Contribution>>)
    ensures user.None? <==> r == Err(Unauthorized)
    ensures user.Some? ==> r.Ok?
    ensures r.Ok? ==> NewestFirst(r.data)
    ensures r.Ok? && trustId.None? ==> multiset(r.data) == multiset(contributions)
    ensures r.Ok? && trustId.Some? ==> forall c :: c in r.data <==> c in contributions && c.trust_id == trustId.value
    ensures r.Ok? && trustId.Some? ==>
              multiset(r.data) == multiset(Seqs.Filter((c: Contribution) => c.trust_id == trustId.value, contributions))
  {
    if user.None? then Err(Unauthorized)
    else if trustId.None? then Ok(SortNewestFirst(contributions))
    else
      var mine := Seqs.Filter((c: Contribution) => c.trust_id == trustId.value, contributions);
      var sorted := SortNewestFirst(mine);
      assert forall c :: c in sorted <==> c in multiset(mine);
      Ok(sorted)
  }

  lemma InsertKeepsValid(trusts: seq<Trust>, beneficiaries: seq<Beneficiary>,
                         contributions: seq<Contribution>, notices: seq<Notice>, nextId: Id, row: Contribution)
    requires ValidTables(trusts, beneficiaries, contributions, notices, nextId)
    requires row.id == nextId
    ensures ValidTables(trusts, beneficiaries, contributions + [row], notices, nextId + 1)
  {
  }

  /** POST /api/contributions. */
  method Post(db: Store, user: Option<Id>, body: ContributionInput) returns (resp: Response<Recorded>)
    requires db.Valid()
    modifies db
    ensures db.Valid()
    ensures var d := PrepareContribution(user, body, old(db.trusts), old(db.beneficiaries));
            d.Err? ==> resp == Err(d.error) && unchanged(db)
    ensures var d := PrepareContribution(user, body, old(db.trusts), old(db.beneficiaries));
            d.Ok? ==>
              && resp.Ok?
              && resp.data.contribution == d.data.(id := old(db.nextId))
              && resp.data.notices == NoticesOf(db.notices, old(db.nextId))
              && db.contributions == old(db.contributions) + [resp.data.contribution]
              && db.audit == old(db.audit)
                             + [AuditEntry(user, ContributionCreated, ContributionEntity, old(db.nextId),
                                           ContributionDetails(body.amount, body.trust_id.value))]
              && db.nextId == old(db.nextId) + 1
              && db.trusts == old(db.trusts)
              && db.beneficiaries == old(db.beneficiaries)
              && db.notices == old(db.notices)
  {
    var decision := PrepareContribution(user, body, db.trusts, db.beneficiaries);
    if decision.Err? {
      return Err(decision.error);
    }
    InsertKeepsValid(db.trusts, db.beneficiaries, db.contributions, db.notices, db.nextId,
                     decision.data.(id := db.nextId));
    var id := db.FreshId();
    var row := decision.data.(id := id);
    db.contributions := db.contributions + [row];
    db.audit := db.audit + [AuditEntry(user, ContributionCreated, ContributionEntity, id,
                                       ContributionDetails(body.amount, body.trust_id.value))];
    resp := Ok(Recorded(row, NoticesOf(db.notices, id)));
  }
}
