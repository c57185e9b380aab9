// GET, POST, PUT and DELETE /api/beneficiaries: the ordered checks of each
// handler, the defaults applied to a new beneficiary, the field-by-field
// update, and the soft delete.

module BeneficiariesRoute {
  import opened Types
  import opened Ledger
  import Seqs

  /** The JSON body of a POST; a field the body leaves out is `None`. */
  datatype BeneficiaryInput = BeneficiaryInput(
    trust_id: Option<Id>,
    full_name: Option<string>,
    email: Option<string>,
    address: Option<string>,
    city: Option<string>,
    state: Option<string>,
    zip: Option<string>,
    is_minor: Option<bool>,
    guardian_name: Option<string>,
    guardian_email: Option<string>,
    share_percentage: Option<real>)

  const GuardianRequired := ApiError(400, "Guardian information required for minors")
  const IdRequired := ApiError(400, "Beneficiary ID required")
  const TrustIdRequired := ApiError(400, "trust_id is required")
  const DefaultSharePercentage := 100.0

  predicate HasRequiredFields(body: BeneficiaryInput)
  {
    body.trust_id.Some? && Present(body.full_name) && Present(body.email)
  }

  /** A minor comes with a guardian's name and email. */
  predicate GuardianSupplied(body: BeneficiaryInput)
  {
    body.is_minor == Some(true) ==> Present(body.guardian_name) && Present(body.guardian_email)
  }

  /** Every beneficiary the POST handler writes that is a minor has a
      guardian on record. */
  predicate MinorHasGuardian(b: Beneficiary)
  {
    b.is_minor ==> Present(b.guardian_name) && Present(b.guardian_email)
  }

  /** `body.share_percentage || 100`. */
  function SharePercentage(share: Option<real>): real
  {
    if share.Some? && share.value != 0.0 then share.value else DefaultSharePercentage
  }

  /** The decision of POST /api/beneficiaries: the checks run in the order
      401, 400 (required fields), 400 (guardian), 404 (trust not the
      caller's); otherwise the row to insert (its id is assigned by the store). */
  function PrepareBeneficiary(user: Option<Id>, body: BeneficiaryInput, trusts: seq<Trust>)
    : (r: Response<Beneficiary>)
    ensures user.None? ==> r == Err(Unauthorized)
    ensures user.Some? && !HasRequiredFields(body) ==> r == Err(MissingRequiredFields)
    ensures user.Some? && HasRequiredFields(body) && !GuardianSupplied(body) ==> r == Err(GuardianRequired)
    ensures (user.Some? && HasRequiredFields(body) && GuardianSupplied(body)
             && !OwnsTrust(trusts, body.trust_id.value, user.value)) ==> r == Err(TrustNotFound)
    ensures r.Ok? <==> && user.Some? && HasRequiredFields(body) && GuardianSupplied(body)
                       && OwnsTrust(trusts, body.trust_id.value, user.value)
    ensures r.Ok? ==> && user.Some? && HasRequiredFields(body)
                      && Some(r.data.trust_id) == body.trust_id
                      && OwnsTrust(trusts, r.data.trust_id, user.value)
                      && Some(r.data.full_name) == body.full_name
                      && Some(r.data.email) == body.email
                      && r.data.is_minor == (body.is_minor == Some(true))
                      && MinorHasGuardian(r.data)
                      && r.data.share_percentage != 0.0
                      && r.data.is_active
    ensures r.Ok? ==> && NullWhenEmpty(body.address, r.data.address)
                      && NullWhenEmpty(body.city, r.data.city)
                      && NullWhenEmpty(body.state, r.data.state)
                      && NullWhenEmpty(body.zip, r.data.zip)
                      && NullWhenEmpty(body.guardian_name, r.data.guardian_name)
                      && NullWhenEmpty(body.guardian_email, r.data.guardian_email)
  {
    if user.None? then Err(Unauthorized)
    else if !HasRequiredFields(body) then Err(MissingRequiredFields)
    else if !GuardianSupplied(body) then Err(GuardianRequired)
    else if !OwnsTrust(trusts, body.trust_id.value, user.value) then Err(TrustNotFound)
    else
      Ok(Beneficiary(
        id := 0,
        trust_id := body.trust_id.value,
        full_name := body.full_name.value,
        email := body.email.value,
        address := OrNull(body.address),
        city := OrNull(body.city),
        state := OrNull(body.state),
        zip := OrNull(body.zip),
        is_minor := body.is_minor == Some(true),
        guardian_name := OrNull(body.guardian_name),
        guardian_email := OrNull(body.guardian_email),
        share_percentage := SharePercentage(body.share_percentage),
        is_active := true))
  }

  /** The validation errors come before the ownership lookup: they do not
      depend on the trust table. */
  lemma ValidationPrecedesLookup(user: Id, body: BeneficiaryInput, trusts1: seq<Trust>, trusts2: seq<Trust>)
    requires !HasRequiredFields(body) || !GuardianSupplied(body)
    ensures PrepareBeneficiary(Some(user), body, trusts1) == PrepareBeneficiary(Some(user), body, trusts2)
    ensures PrepareBeneficiary(Some(user), body, trusts1).error.status == 400
  {
  }

  /** A missing or zero share becomes 100; any other is kept. */
  lemma SharePercentageDefault(user: Id, body: BeneficiaryInput, trusts: seq<Trust>)
    requires PrepareBeneficiary(Some(user), body, trusts).Ok?
    ensures var share := PrepareBeneficiary(Some(user), body, trusts).data.share_percentage;
            (body.share_percentage in {None, Some(0.0)} ==> share == 100.0)
            && (body.share_percentage !in {None, Some(0.0)} ==> Some(share) == body.share_percentage)
  {
  }

  /** GET /api/beneficiaries: every beneficiary of the caller's trust,
      active or not, newest first. */
  function ListBeneficiaries(user: Option<Id>, trustId: Option<Id>, trusts: seq<Trust>,
                             beneficiaries: seq<Beneficiary>): (r: Response<seq<Beneficiary>>)
    ensures user.None? ==> r == Err(Unauthorized)
    ensures user.Some? && trustId.None? ==> r == Err(TrustIdRequired)
    ensures user.Some? && trustId.Some? && !OwnsTrust(trusts, trustId.value, user.value) ==> r == Err(TrustNotFound)
    ensures r.Ok? <==> user.Some? && trustId.Some? && OwnsTrust(trusts, trustId.value, user.value)
    ensures r.Ok? ==> && user.Some? && trustId.Some? && OwnsTrust(trusts, trustId.value, user.value)
                      && forall b :: b in r.data <==> b in beneficiaries && b.trust_id == trustId.value
  {
    if user.None? then Err(Unauthorized)
    else if trustId.None? then Err(TrustIdRequired)
    else if !OwnsTrust(trusts, trustId.value, user.value) then Err(TrustNotFound)
    else Ok(Seqs.Reverse(Seqs.Filter((b: Beneficiary) => b.trust_id == trustId.value, beneficiaries)))
  }

  /** The columns a PUT body may carry besides `id`; `None` leaves a column
      as it is, and a nullable column may be set to `Some(None)` (null). */
  datatype BeneficiaryPatch = BeneficiaryPatch(
    trust_id: Option<Id>,
    full_name: Option<string>,
    email: Option<string>,
    address: Option<Option<string>>,
    city: Option<Option<string>>,
    state: Option<Option<string>>,
    zip: Option<Option<string>>,
    is_minor: Option<bool>,
    guardian_name: Option<Option<string>>,
    guardian_email: Option<Option<string>>,
    share_percentage: Option<real>,
    is_active: Option<bool>)

  function Patched<T>(field: Option<T>, current: T): T
  {
    if field.Some? then field.value else current
  }

  /** `.update(updates)` on one row: every supplied column is set to the
      value supplied, every other column keeps its value, and the id never
      changes. */
  function ApplyPatch(b: Beneficiary, p: BeneficiaryPatch): (r: Beneficiary)
    ensures r.id == b.id
    ensures (p.trust_id.Some? ==> r.trust_id == p.trust_id.value) && (p.trust_id.None? ==> r.trust_id == b.trust_id)
    ensures (p.full_name.Some? ==> r.full_name == p.full_name.value) && (p.full_name.None? ==> r.full_name == b.full_name)
    ensures (p.email.Some? ==> r.email == p.email.value) && (p.email.None? ==> r.email == b.email)
    ensures (p.address.Some? ==> r.address == p.address.value) && (p.address.None? ==> r.address == b.address)
    ensures (p.city.Some? ==> r.city == p.city.value) && (p.city.None? ==> r.city == b.city)
    ensures (p.state.Some? ==> r.state == p.state.value) && (p.state.None? ==> r.state == b.state)
    ensures (p.zip.Some? ==> r.zip == p.zip.value) && (p.zip.None? ==> r.zip == b.zip)
    ensures (p.is_minor.Some? ==> r.is_minor == p.is_minor.value) && (p.is_minor.None? ==> r.is_minor == b.is_minor)
    ensures (p.guardian_name.Some? ==> r.guardian_name == p.guardian_name.value)
            && (p.guardian_name.None? ==> r.guardian_name == b.guardian_name)
    ensures (p.guardian_email.Some? ==> r.guardian_email == p.guardian_email.value)
            && (p.guardian_email.None? ==> r.guardian_email == b.guardian_email)
    ensures (p.share_percentage.Some? ==> r.share_percentage == p.share_percentage.value)
            && (p.share_percentage.None? ==> r.share_percentage == b.share_percentage)
    ensures (p.is_active.Some? ==> r.is_active == p.is_active.value) && (p.is_active.None? ==> r.is_active == b.is_active)
  {
    Beneficiary(
      id := b.id,
      trust_id := Patched(p.trust_id, b.trust_id),
      full_name := Patched(p.full_name, b.full_name),
      email := Patched(p.email, b.email),
      address := Patched(p.address, b.address),
      city := Patched(p.city, b.city),
      state := Patched(p.state, b.state),
      zip := Patched(p.zip, b.zip),
      is_minor := Patched(p.is_minor, b.is_minor),
      guardian_name := Patched(p.guardian_name, b.guardian_name),
      guardian_email := Patched(p.guardian_email, b.guardian_email),
      share_percentage := Patched(p.share_percentage, b.share_percentage),
      is_active := Patched(p.is_active, b.is_active))
  }

  const NoChanges := BeneficiaryPatch(None, None, None, None, None, None, None, None, None, None, None, None)

  /** The patch of DELETE: only `is_active` is set, to false. */
  const Deactivation := NoChanges.(is_active := Some(false))

  /** Applying the same update again changes nothing more, and an empty
      update changes nothing. */
  lemma ApplyPatchIdempotent(b: Beneficiary, p: BeneficiaryPatch)
    ensures ApplyPatch(ApplyPatch(b, p), p) == ApplyPatch(b, p)
    ensures ApplyPatch(b, NoChanges) == b
  {
  }

  /** `.update(p).eq('id', id)` on the whole table: every row with that id
      is updated, every other row is untouched, and no row is added or
      removed. */
  function UpdateWhere(table: seq<Beneficiary>, id: Id, p: BeneficiaryPatch): (r: seq<Beneficiary>)
    ensures |r| == |table|
    ensures forall i :: 0 <= i < |table| ==> r[i].id == table[i].id
    ensures forall i :: 0 <= i < |table| && table[i].id == id ==> r[i] == ApplyPatch(table[i], p)
    ensures forall i :: 0 <= i < |table| && table[i].id != id ==> r[i] == table[i]
  {
    seq(|table|, i requires 0 <= i < |table| => if table[i].id == id then ApplyPatch(table[i], p) else table[i])
  }

  /** The first beneficiary with the given id. */
  function FindBeneficiary(table: seq<Beneficiary>, id: Id): (r: Option<Beneficiary>)
    ensures r.Some? ==> r.value in table && r.value.id == id
    ensures r.None? <==> forall i :: 0 <= i < |table| ==> table[i].id != id
  {
    if table == [] then None
    else if table[0].id == id then Some(table[0])
    else
      assert forall i :: 1 <= i < |table| ==> table[i] == table[1..][i - 1];
      FindBeneficiary(table[1..], id)
  }

  /** The decision of PUT /api/beneficiaries: 401, then 400 without an id,
      then the store's error when no row has that id (`.single()` finds
      nothing); otherwise the updated row. No ownership check is made. */
  function PutDecision(user: Option<Id>, id: Option<Id>, updates: BeneficiaryPatch,
                       table: seq<Beneficiary>): (r: Response<Beneficiary>)
    ensures user.None? ==> r == Err(Unauthorized)
    ensures user.Some? && id.None? ==> r == Err(IdRequired)
    ensures user.Some? && id.Some? && FindBeneficiary(table, id.value).None? ==> r == Err(StoreError)
    ensures r.Ok? <==> user.Some? && id.Some? && exists i :: 0 <= i < |table| && table[i].id == id.value
    ensures r.Ok? ==> id.Some? && r.data in UpdateWhere(table, id.value, updates) && r.data.id == id.value
  {
    if user.None? then Err(Unauthorized)
    else if id.None? then Err(IdRequired)
    else match FindBeneficiary(table, id.value)
      case None => Err(StoreError)
      case Some(b) =>
        UpdatedRowInTable(table, id.value, updates);
        Ok(ApplyPatch(b, updates))
  }

  lemma UpdatedRowInTable(table: seq<Beneficiary>, id: Id, p: BeneficiaryPatch)
    requires FindBeneficiary(table, id).Some?
    ensures ApplyPatch(FindBeneficiary(table, id).value, p) in UpdateWhere(table, id, p)
  {
    var b := FindBeneficiary(table, id).value;
    var i :| 0 <= i < |table| && table[i] == b;
    assert UpdateWhere(table, id, p)[i] == ApplyPatch(b, p);
  }

  /** The soft delete keeps every row; the rows with that id only become
      inactive, and every other row is untouched. */
  lemma SoftDeleteKeepsRows(table: seq<Beneficiary>, id: Id)
    ensures |UpdateWhere(table, id, Deactivation)| == |table|
    ensures forall i :: 0 <= i < |table| ==>
              UpdateWhere(table, id, Deactivation)[i]
              == if table[i].id == id then table[i].(is_active := false) else table[i]
  {
  }

  /** POST /api/beneficiaries. */
  method Post(db: Store, user: Option<Id>, body: BeneficiaryInput) returns (resp: Response<Beneficiary>)
    requires db.Valid()
    modifies db
    ensures db.Valid()
    ensures var d := PrepareBeneficiary(user, body, old(db.trusts));
            d.Err? ==> resp == d && unchanged(db)
    ensures var d := PrepareBeneficiary(user, body, old(db.trusts));
            d.Ok? ==>
              && resp == Ok(d.data.(id := old(db.nextId)))
              && db.beneficiaries == old(db.beneficiaries) + [resp.data]
              && db.audit == old(db.audit)
                             + [AuditEntry(user, BeneficiaryCreated, BeneficiaryEntity, resp.data.id,
                                           BeneficiaryDetails(resp.data.full_name, resp.data.trust_id))]
              && db.nextId == old(db.nextId) + 1
              && db.trusts == old(db.trusts)
              && db.contributions == old(db.contributions)
              && db.notices == old(db.notices)
  {
    var decision := PrepareBeneficiary(user, body, db.trusts);
    if decision.Err? {
      return decision;
    }
    var id := db.FreshId();
    var row := decision.data.(id := id);
    db.beneficiaries := db.beneficiaries + [row];
    db.audit := db.audit + [AuditEntry(user, BeneficiaryCreated, BeneficiaryEntity, id,
                                       BeneficiaryDetails(row.full_name, row.trust_id))];
    resp := Ok(row);
  }

  /** PUT /api/beneficiaries: no audit entry is written. */
  method Put(db: Store, user: Option<Id>, id: Option<Id>, updates: BeneficiaryPatch)
    returns (resp: Response<Beneficiary>)
    requires db.Valid()
    modifies db
    ensures db.Valid()
    ensures resp == PutDecision(user, id, updates, old(db.beneficiaries))
    ensures resp.Err? ==> unchanged(db)
    ensures resp.Ok? ==> && db.beneficiaries == UpdateWhere(old(db.beneficiaries), id.value, updates)
                         && db.trusts == old(db.trusts) && db.contributions == old(db.contributions)
                         && db.notices == old(db.notices) && db.audit == old(db.audit)
                         && db.nextId == old(db.nextId)
  {
    resp := PutDecision(user, id, updates, db.beneficiaries);
    if resp.Ok? {
      db.beneficiaries := UpdateWhere(db.beneficiaries, id.value, updates);
    }
  }

  /** DELETE /api/beneficiaries: 401, then 400 without an id; otherwise the
      soft delete, which succeeds whether or not a row has that id. */
  function DeleteDecision(user: Option<Id>, id: Option<Id>): (r: Response<bool>)
    ensures user.None? ==> r == Err(Unauthorized)
    ensures user.Some? && id.None? ==> r == Err(IdRequired)
    ensures user.Some? && id.Some? ==> r == Ok(true)
  {
    if user.None? then Err(Unauthorized)
    else if id.None? then Err(IdRequired)
    else Ok(true)
  }

  /** DELETE /api/beneficiaries. */
  method Delete(db: Store, user: Option<Id>, id: Option<Id>) returns (resp: Response<bool>)
    requires db.Valid()
    modifies db
    ensures db.Valid()
    ensures resp == DeleteDecision(user, id)
    ensures resp.Err? ==> unchanged(db)
    ensures resp.Ok? ==> && db.beneficiaries == UpdateWhere(old(db.beneficiaries), id.value, Deactivation)
                         && db.trusts == old(db.trusts) && db.contributions == old(db.contributions)
                         && db.notices == old(db.notices) && db.audit == old(db.audit)
                         && db.nextId == old(db.nextId)
  {
    resp := DeleteDecision(user, id);
    if resp.Ok? {
      db.beneficiaries := UpdateWhere(db.beneficiaries, id.value, Deactivation);
    }
  }
}
