// POST and GET /api/trusts: required-field validation, the defaults applied
// to a new trust, owner stamping, the audit entry, and the owner-scoped list.

module TrustsRoute {
  import opened Types
  import opened Ledger
  import Seqs

  /** The JSON body of a POST; a field the body leaves out is `None`. */
  datatype TrustInput = TrustInput(
    name: Option<string>,
    trust_date: Option<string>,
    trust_type: Option<string>,
    trustee_name: Option<string>,
    trustee_address: Option<string>,
    trustee_city: Option<string>,
    trustee_state: Option<string>,
    trustee_zip: Option<string>,
    trustee_phone: Option<string>,
    trustee_email: Option<string>,
    withdrawal_period_days: Option<int>)

  const DefaultTrustType := "ILIT"
  const DefaultWithdrawalPeriodDays := 30

  /** `body.withdrawal_period_days || 30`. */
  function WithdrawalPeriod(days: Option<int>): int
  {
    if days.Some? && days.value != 0 then days.value else DefaultWithdrawalPeriodDays
  }

  /** The shape of every row the handler writes: required text present,
      optional text absent or non-empty, a non-zero withdrawal period. */
  predicate Normalized(t: Trust)
  {
    && t.name != "" && t.trust_date != "" && t.trustee_name != "" && t.trustee_email != ""
    && t.trust_type != ""
    && t.trustee_address != Some("") && t.trustee_city != Some("")
    && t.trustee_state != Some("") && t.trustee_zip != Some("")
    && t.trustee_phone != Some("")
    && t.withdrawal_period_days != 0
  }

  /** The decision of POST /api/trusts: an error, or the row to insert
      (its id is assigned by the store). */
  function PrepareTrust(user: Option<Id>, body: TrustInput): (r: Response<Trust>)
    ensures user.None? ==> r == Err(Unauthorized)
    ensures user.Some? && !(Present(body.name) && Present(body.trust_date)
                            && Present(body.trustee_name) && Present(body.trustee_email))
            ==> r == Err(MissingRequiredFields)
    ensures r.Ok? <==> user.Some? && Present(body.name) && Present(body.trust_date)
                       && Present(body.trustee_name) && Present(body.trustee_email)
    ensures r.Ok? ==> && user.Some? && r.data.user_id == user.value
                      && Some(r.data.name) == body.name
                      && Some(r.data.trust_date) == body.trust_date
                      && Some(r.data.trustee_name) == body.trustee_name
                      && Some(r.data.trustee_email) == body.trustee_email
                      && Normalized(r.data) && r.data.is_active
    ensures r.Ok? ==> && NullWhenEmpty(body.trustee_address, r.data.trustee_address)
                      && NullWhenEmpty(body.trustee_city, r.data.trustee_city)
                      && NullWhenEmpty(body.trustee_state, r.data.trustee_state)
                      && NullWhenEmpty(body.trustee_zip, r.data.trustee_zip)
                      && NullWhenEmpty(body.trustee_phone, r.data.trustee_phone)
                      && (Present(body.trust_type) ==> Some(r.data.trust_type) == body.trust_type)
                      && (!Present(body.trust_type) ==> r.data.trust_type == DefaultTrustType)
  {
    if user.None? then Err(Unauthorized)
    else if !Present(body.name) || !Present(body.trust_date)
            || !Present(body.trustee_name) || !Present(body.trustee_email) then
      Err(MissingRequiredFields)
    else
      Ok(Trust(
        id := 0,
        user_id := user.value,
        name := body.name.value,
        trust_date := body.trust_date.value,
        trust_type := OrElse(body.trust_type, DefaultTrustType),
        trustee_name := body.trustee_name.value,
        trustee_address := OrNull(body.trustee_address),
        trustee_city := OrNull(body.trustee_city),
        trustee_state := OrNull(body.trustee_state),
        trustee_zip := OrNull(body.trustee_zip),
        trustee_phone := OrNull(body.trustee_phone),
        trustee_email := body.trustee_email.value,
        withdrawal_period_days := WithdrawalPeriod(body.withdrawal_period_days),
        is_active := true))
  }

  /** The body that resubmits a stored trust. */
  function AsInput(t: Trust): TrustInput
  {
    TrustInput(Some(t.name), Some(t.trust_date), Some(t.trust_type), Some(t.trustee_name),
               t.trustee_address, t.trustee_city, t.trustee_state, t.trustee_zip,
               t.trustee_phone, Some(t.trustee_email), Some(t.withdrawal_period_days))
  }

  /** Defaults are applied once: a prepared row, submitted again by its
      owner, prepares to itself. */
  lemma PrepareTrustIsNormalForm(user: Option<Id>, body: TrustInput)
    requires PrepareTrust(user, body).Ok?
    ensures PrepareTrust(user, AsInput(PrepareTrust(user, body).data)) == PrepareTrust(user, body)
  {
  }

  /** A missing or zero period becomes 30 days; any other is kept. */
  lemma WithdrawalPeriodDefault(body: TrustInput, user: Id)
    requires PrepareTrust(Some(user), body).Ok?
    ensures var days := PrepareTrust(Some(user), body).data.withdrawal_period_days;
            (body.withdrawal_period_days in {None, Some(0)} ==> days == 30)
            && (body.withdrawal_period_days !in {None, Some(0)} ==> Some(days) == body.withdrawal_period_days)
  {
  }

  /** GET /api/trusts: the caller's trusts, newest first. */
  function ListTrusts(user: Option<Id>, trusts: seq<Trust>): (r: Response<seq<Trust>>)
    ensures user.None? <==> r == Err(Unauthorized)
    ensures user.Some? ==> r.Ok?
    ensures r.Ok? ==> forall t :: t in r.data <==> t in trusts && t.user_id == user.value
  {
    if user.None? then Err(Unauthorized)
    else Ok(Seqs.Reverse(Seqs.Filter((t: Trust) => t.user_id == user.value, trusts)))
  }

  /** A trust just appended by its owner heads that owner's list. */
  lemma {:induction false} NewTrustListedFirst(trusts: seq<Trust>, t: Trust)
    ensures ListTrusts(Some(t.user_id), trusts + [t]).Ok?
    ensures ListTrusts(Some(t.user_id), trusts + [t]).data[0] == t
  {
    Seqs.FilterSnoc((x: Trust) => x.user_id == t.user_id, trusts, t);
  }

  /** POST /api/trusts. */
  method Post(db: Store, user: Option<Id>, body: TrustInput) returns (resp: Response<Trust>)
    requires db.Valid()
    modifies db
    ensures db.Valid()
    ensures PrepareTrust(user, body).Err? ==> resp == PrepareTrust(user, body) && unchanged(db)
    ensures PrepareTrust(user, body).Ok? ==>
      && resp == Ok(PrepareTrust(user, body).data.(id := old(db.nextId)))
      && db.trusts == old(db.trusts) + [resp.data]
      && db.audit == old(db.audit)
                     + [AuditEntry(user, TrustCreated, TrustEntity, resp.data.id, TrustDetails(resp.data.name))]
      && db.nextId == old(db.nextId) + 1
      && db.beneficiaries == old(db.beneficiaries)
      && db.contributions == old(db.contributions)
      && db.notices == old(db.notices)
  {
    var decision := PrepareTrust(user, body);
    if decision.Err? {
      return decision;
    }
    ghost var oldTrusts := db.trusts;
    var id := db.FreshId();
    var trust := decision.data.(id := id);
    db.trusts := db.trusts + [trust];
    forall i | 0 <= i < |db.notices|
      ensures FindTrust(db.trusts, db.notices[i].trust_id).Some?
    {
      FindTrustSnoc(oldTrusts, trust, db.notices[i].trust_id);
    }
    db.audit := db.audit + [AuditEntry(user, TrustCreated, TrustEntity, id, TrustDetails(trust.name))];
    resp := Ok(trust);
  }
}
