// GET /api/notices: the notices matching the optional `trust_id`,
// `status` and `contribution_id` query parameters, newest first, kept only
// when the notice's trust belongs to the caller. The `GET` handler of
// `/api/notices` in `route.ts`, beside the batch send, answers the same
// query without that ownership filter.

module NoticesRoute {
  import opened Types
  import opened Ledger
  import Seqs

  /** The query parameters; an absent or empty parameter is `None`
      (`if (trustId)` skips the empty string). */
  datatype NoticeQuery = NoticeQuery(
    trust_id: Option<Id>,
    status: Option<string>,
    contribution_id: Option<Id>)

  /** Each supplied parameter is an equality filter; they are combined
      with "and". */
  predicate MatchesQuery(n: Notice, q: NoticeQuery)
  {
    && (q.trust_id.Some? ==> n.trust_id == q.trust_id.value)
    && (Present(q.status) ==> StatusName(n.status) == q.status.value)
    && (q.contribution_id.Some? ==> n.contribution_id == q.contribution_id.value)
  }

  /** The store query: the matching notices, newest first. */
  function QueryNotices(notices: seq<Notice>, q: NoticeQuery): (r: seq<Notice>)
    ensures forall n :: n in r <==> n in notices && MatchesQuery(n, q)
  {
    Seqs.Reverse(Seqs.Filter((n: Notice) => MatchesQuery(n, q), notices))
  }

  /** `n.trust?.user_id === user.id`: the joined trust exists and is the
      caller's. */
  predicate CallerOwns(trusts: seq<Trust>, user: Id, n: Notice)
  {
    OwnsTrust(trusts, n.trust_id, user)
  }

  /** GET /api/notices. */
  function ListNotices(user: Option<Id>, q: NoticeQuery, notices: seq<Notice>, trusts: seq<Trust>)
    : (r: Response<seq<Notice>>)
    ensures user.None? <==> r == Err(Unauthorized)
    ensures user.Some? ==> r.Ok?
    ensures r.Ok? ==> forall n :: n in r.data <==> n in notices && MatchesQuery(n, q) && CallerOwns(trusts, user.value, n)
    ensures r.Ok? ==> Seqs.IsSubsequence(r.data, QueryNotices(notices, q))
  {
    if user.None? then Err(Unauthorized)
    else Ok(Seqs.Filter((n: Notice) => CallerOwns(trusts, user.value, n), QueryNotices(notices, q)))
  }

  /** GET /api/notices as the handler beside the batch send answers it:
      the same query, with no ownership filter. */
  function ListNoticesUnscoped(user: Option<Id>, q: NoticeQuery, notices: seq<Notice>)
    : (r: Response<seq<Notice>>)
    ensures user.None? <==> r == Err(Unauthorized)
    ensures user.Some? ==> r.Ok?
    ensures r.Ok? ==> forall n :: n in r.data <==> n in notices && MatchesQuery(n, q)
  {
    if user.None? then Err(Unauthorized) else Ok(QueryNotices(notices, q))
  }

  /** The listing is the caller's matching notices in reverse insertion
      order: filtering after the ordering is the same as ordering after
      the filter. */
  lemma ListNoticesNewestFirst(user: Id, q: NoticeQuery, notices: seq<Notice>, trusts: seq<Trust>)
    ensures ListNotices(Some(user), q, notices, trusts).data
         == Seqs.Reverse(Seqs.Filter((n: Notice) => MatchesQuery(n, q) && CallerOwns(trusts, user, n), notices))
  {
    var matches := (n: Notice) => MatchesQuery(n, q);
    var owned := (n: Notice) => CallerOwns(trusts, user, n);
    var both := (n: Notice) => MatchesQuery(n, q) && CallerOwns(trusts, user, n);
    Seqs.FilterReverse(owned, Seqs.Filter(matches, notices));
    Seqs.FilterFilter(matches, owned, both, notices);
  }

  /** A query with no parameters lists every notice of the caller's
      trusts. */
  lemma EmptyQueryListsAllOwned(user: Id, notices: seq<Notice>, trusts: seq<Trust>)
    ensures var r := ListNotices(Some(user), NoticeQuery(None, None, None), notices, trusts);
            forall n :: n in r.data <==> n in notices && CallerOwns(trusts, user, n)
  {
  }

  /** A `status` parameter that spells a status selects notices of that
      status only. */
  lemma StatusParameterSelects(user: Id, q: NoticeQuery, notices: seq<Notice>, trusts: seq<Trust>,
                               st: NoticeStatus)
    requires q.status == Some(StatusName(st))
    ensures forall n :: n in ListNotices(Some(user), q, notices, trusts).data ==> n.status == st
  {
    forall n | n in ListNotices(Some(user), q, notices, trusts).data
      ensures n.status == st
    {
      assert MatchesQuery(n, q);
      StatusNameInjective(n.status, st);
    }
  }

  /** A `status` parameter that spells no status selects nothing. */
  lemma UnknownStatusSelectsNothing(user: Id, q: NoticeQuery, notices: seq<Notice>, trusts: seq<Trust>)
    requires Present(q.status)
    requires forall st :: StatusName(st) != q.status.value
    ensures ListNotices(Some(user), q, notices, trusts).data == []
  {
    var r := ListNotices(Some(user), q, notices, trusts).data;
    if r != [] {
      assert false;
    }
  }

  /** The unscoped handler answers with notices of other users' trusts
      that the owner-scoped one withholds. */
  lemma UnscopedListingExposesOtherTrusts(user: Id, q: NoticeQuery, notices: seq<Notice>, trusts: seq<Trust>, n: Notice)
    requires n in notices && MatchesQuery(n, q) && !CallerOwns(trusts, user, n)
    ensures n in ListNoticesUnscoped(Some(user), q, notices).data
    ensures n !in ListNotices(Some(user), q, notices, trusts).data
  {
  }

  /** Every notice the scoped listing returns, the unscoped one returns
      too, in the same relative order. */
  lemma ScopedWithinUnscoped(user: Id, q: NoticeQuery, notices: seq<Notice>, trusts: seq<Trust>)
    ensures Seqs.IsSubsequence(ListNotices(Some(user), q, notices, trusts).data,
                               ListNoticesUnscoped(Some(user), q, notices).data)
  {
  }
}
