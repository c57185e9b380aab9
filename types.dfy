// Records of the trust-notice store (trusts, beneficiaries, contributions,
// notices, audit entries) and the request/response shapes shared by the
// route handlers.

module Types {

  /** Row identifiers. The store's uuids are abstract here; an id that a
      request leaves out (or sends as the empty string) is `None`. */
  type Id = nat

  datatype Option<T> = None | Some(value: T)

  /** JavaScript truthiness of an optional string: present and non-empty. */
  predicate Present(o: Option<string>)
  {
    o.Some? && o.value != ""
  }

  /** `field || null` on an optional string. */
  function OrNull(o: Option<string>): Option<string>
  {
    if Present(o) then o else None
  }

  /** `stored` is what `field || null` writes for `given`: the value when
      it is present, null when it is absent or empty. */
  predicate NullWhenEmpty(given: Option<string>, stored: Option<string>)
  {
    (Present(given) ==> stored == given) && (!Present(given) ==> stored == None)
  }

  /** `field || fallback` on an optional string. */
  function OrElse(o: Option<string>, fallback: string): string
  {
    if Present(o) then o.value else fallback
  }

  datatype Trust = Trust(
    id: Id,
    user_id: Id,
    name: string,
    trust_date: string,
    trust_type: string,
    trustee_name: string,
    trustee_address: Option<string>,
    trustee_city: Option<string>,
    trustee_state: Option<string>,
    trustee_zip: Option<string>,
    trustee_phone: Option<string>,
    trustee_email: string,
    withdrawal_period_days: int,
    is_active: bool)

  datatype Beneficiary = Beneficiary(
    id: Id,
    trust_id: Id,
    full_name: string,
    email: string,
    address: Option<string>,
    city: Option<string>,
    state: Option<string>,
    zip: Option<string>,
    is_minor: bool,
    guardian_name: Option<string>,
    guardian_email: Option<string>,
    share_percentage: real,
    is_active: bool)

  datatype Contribution = Contribution(
    id: Id,
    trust_id: Id,
    amount: real,
    contribution_date: string,
    description: Option<string>,
    notices_generated: bool,
    notices_generated_at: Option<string>)

  datatype NoticeStatus = Pending | Sent | Delivered | Bounced | Acknowledged

  /** The status as the store spells it. */
  function StatusName(s: NoticeStatus): string
  {
    match s
    case Pending => "pending"
    case Sent => "sent"
    case Delivered => "delivered"
    case Bounced => "bounced"
    case Acknowledged => "acknowledged"
  }

  /** Distinct statuses have distinct spellings, so a `status` query
      parameter selects at most one status. */
  lemma StatusNameInjective(a: NoticeStatus, b: NoticeStatus)
    requires StatusName(a) == StatusName(b)
    ensures a == b
  {
  }

  datatype Notice = Notice(
    id: Id,
    contribution_id: Id,
    beneficiary_id: Id,
    trust_id: Id,
    notice_date: string,
    withdrawal_amount: real,
    withdrawal_deadline: string,
    recipient_email: string,
    recipient_name: string,
    status: NoticeStatus,
    sent_at: Option<string>,
    delivered_at: Option<string>,
    opened_at: Option<string>,
    acknowledgment_token: string,
    acknowledged_at: Option<string>,
    acknowledged_by_name: Option<string>,
    acknowledged_ip: Option<string>,
    acknowledged_user_agent: Option<string>,
    pdf_url: Option<string>)

  /** No two rows of the notice table share an id (its primary key). */
  ghost predicate NoticeIdsDistinct(notices: seq<Notice>)
  {
    forall i, j :: 0 <= i < j < |notices| ==> notices[i].id != notices[j].id
  }

  datatype EntityType = TrustEntity | BeneficiaryEntity | ContributionEntity | NoticeEntity

  /** The `details` object each handler attaches to its audit entry. */
  datatype AuditDetails =
    | TrustDetails(name: string)
    | BeneficiaryDetails(beneficiary_name: string, trust_id: Id)
    | ContributionDetails(amount: real, contribution_trust_id: Id)
    | NoticeSentDetails(recipient: string, messageId: Option<string>)

  datatype AuditEntry = AuditEntry(
    user_id: Option<Id>,
    action: string,
    entity_type: EntityType,
    entity_id: Id,
    details: AuditDetails)

  const TrustCreated := "trust_created"
  const BeneficiaryCreated := "beneficiary_created"
  const ContributionCreated := "contribution_created"
  const NoticeSentAction := "notice_sent"

  /** The `{ data: null, error }` body and its HTTP status. */
  datatype ApiError = ApiError(status: int, message: string)

  /** The `{ data, error }` envelope every handler answers with. */
  datatype Response<T> = Ok(data: T) | Err(error: ApiError)

  const Unauthorized := ApiError(401, "Unauthorized")
  const MissingRequiredFields := ApiError(400, "Missing required fields")
  const TrustNotFound := ApiError(404, "Trust not found")

  /** Stands for an error the store reports (answered with status 500 and
      the store's own message, which the model does not reproduce). */
  const StoreError := ApiError(500, "store error")
}
