// The relational store the route handlers read and write: one table per
// entity, each a sequence of rows in insertion order, plus the append-only
// audit log. Row ids are handed out by the store.

module Ledger {
  import opened Types

  /** The first trust with the given id (`.eq('id', id).single()`). */
  function FindTrust(trusts: seq<Trust>, id: Id): (r: Option<Trust>)
    ensures r.Some? ==> r.value in trusts && r.value.id == id
    ensures r.None? <==> forall i :: 0 <= i < |trusts| ==> trusts[i].id != id
  {
    if trusts == [] then None
    else if trusts[0].id == id then Some(trusts[0])
    else
      var r := FindTrust(trusts[1..], id);
      assert forall i :: 1 <= i < |trusts| ==> trusts[i] == trusts[1..][i - 1];
      r
  }

  /** Appending a trust never changes which trust an existing id finds. */
  lemma {:induction false} FindTrustSnoc(trusts: seq<Trust>, t: Trust, id: Id)
    ensures FindTrust(trusts + [t], id)
         == if FindTrust(trusts, id).Some? then FindTrust(trusts, id)
            else if t.id == id then Some(t) else None
  {
    if trusts == [] {
      assert trusts + [t] == [t];
    } else {
      assert (trusts + [t])[1..] == trusts[1..] + [t];
      FindTrustSnoc(trusts[1..], t, id);
    }
  }

  /** The trust `id` exists and belongs to `user`
      (`.eq('id', id).eq('user_id', user).single()` finds a row). */
  predicate OwnsTrust(trusts: seq<Trust>, id: Id, user: Id)
  {
    match FindTrust(trusts, id)
    case None => false
    case Some(t) => t.user_id == user
  }

  /** The primary keys of every table are distinct and below `nextId`, and
      every notice refers to an existing trust. */
  ghost predicate ValidTables(trusts: seq<Trust>, beneficiaries: seq<Beneficiary>,
                              contributions: seq<Contribution>, notices: seq<Notice>, nextId: Id)
  {
    && (forall i :: 0 <= i < |trusts| ==> trusts[i].id < nextId)
    && (forall i, j :: 0 <= i < j < |trusts| ==> trusts[i].id != trusts[j].id)
    && (forall i :: 0 <= i < |beneficiaries| ==> beneficiaries[i].id < nextId)
    && (forall i, j :: 0 <= i < j < |beneficiaries| ==> beneficiaries[i].id != beneficiaries[j].id)
    && (forall i :: 0 <= i < |contributions| ==> contributions[i].id < nextId)
    && (forall i, j :: 0 <= i < j < |contributions| ==> contributions[i].id != contributions[j].id)
    && (forall i :: 0 <= i < |notices| ==> notices[i].id < nextId)
    && NoticeIdsDistinct(notices)
    && (forall i :: 0 <= i < |notices| ==> FindTrust(trusts, notices[i].trust_id).Some?)
  }

  class Store {
    var trusts: seq<Trust>
    var beneficiaries: seq<Beneficiary>
    var contributions: seq<Contribution>
    var notices: seq<Notice>
    var audit: seq<AuditEntry>
    var nextId: Id

    ghost predicate Valid()
      reads this
    {
      ValidTables(trusts, beneficiaries, contributions, notices, nextId)
    }

    /** Opens a store on existing tables. */
    constructor Open(trusts: seq<Trust>, beneficiaries: seq<Beneficiary>,
                     contributions: seq<Contribution>, notices: seq<Notice>,
                     audit: seq<AuditEntry>, nextId: Id)
      requires ValidTables(trusts, beneficiaries, contributions, notices, nextId)
      ensures Valid()
      ensures this.trusts == trusts && this.beneficiaries == beneficiaries
      ensures this.contributions == contributions && this.notices == notices
      ensures this.audit == audit && this.nextId == nextId
    {
      this.trusts := trusts;
      this.beneficiaries := beneficiaries;
      this.contributions := contributions;
      this.notices := notices;
      this.audit := audit;
      this.nextId := nextId;
    }

    /** Hands out an id no row carries yet. */
    method FreshId() returns (id: Id)
      requires Valid()
      modifies this`nextId
      ensures Valid()
      ensures id == old(nextId) && nextId == id + 1
    {
      id := nextId;
      nextId := nextId + 1;
    }
  }
}
