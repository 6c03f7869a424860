/**
 * The invite store (crates/services/src/dao/invite.rs): creating an invite, checking that it
 * can still be used, counting a use with automatic exhaustion, and revoking it. The collection
 * is a sequence in insertion order; ids are the hex of the database's object ids, and times are
 * milliseconds.
 */
module InviteDao {
  import opened Wrappers
  import opened ApiErrors
  import opened Seqs

  datatype InviteStatus = Active | Revoked | Exhausted | Expired

  /** The status as the API renders it: its variant name in lower case. */
  function StatusName(s: InviteStatus): string
  {
    match s
    case Active => "active"
    case Revoked => "revoked"
    case Exhausted => "exhausted"
    case Expired => "expired"
  }

  datatype Invite = Invite(
    id: string,
    tenantId: string,
    code: string,
    inviterId: string,
    targetEmail: Option<string>,
    maxUses: Option<nat>,
    useCount: nat,
    expiresAt: Option<int>,
    assignRoleIds: seq<string>,
    status: InviteStatus,
    createdAt: int,
    updatedAt: int)

  datatype CreateParams = CreateParams(targetEmail: Option<string>, maxUses: Option<nat>, expiresInHours: Option<nat>, assignRoleIds: seq<string>)

  const MILLIS_PER_HOUR: nat := 3600 * 1000

  /** The invite `create` stores: one use for a targeted invite, expiry `hours` after now, active and unused. */
  function NewInvite(id: string, tenantId: string, inviterId: string, p: CreateParams, code: string, nowMs: int): Invite
  {
    Invite(id, tenantId, code, inviterId, p.targetEmail,
           if p.targetEmail.Some? then Some(1) else p.maxUses,
           0,
           if p.expiresInHours.Some? then Some(nowMs + p.expiresInHours.value * MILLIS_PER_HOUR) else None,
           p.assignRoleIds, Active, nowMs, nowMs)
  }

  /** `validate`: the status first, then the expiry, then the use count. */
  function Validate(inv: Invite, nowMs: int): Result<(), DaoError>
  {
    match inv.status
    case Revoked => Err(DaoValidation("Invite has been revoked"))
    case Exhausted => Err(DaoValidation("Invite has been fully used"))
    case Expired => Err(DaoValidation("Invite has expired"))
    case Active =>
      if inv.expiresAt.Some? && nowMs > inv.expiresAt.value then Err(DaoValidation("Invite has expired"))
      else if inv.maxUses.Some? && inv.useCount >= inv.maxUses.value then Err(DaoValidation("Invite has been fully used"))
      else Ok(())
  }

  /** An invite validates exactly when it is active, not past its expiry and below its use limit. */
  lemma ValidateExactly(inv: Invite, nowMs: int)
    ensures Validate(inv, nowMs).Ok? <==>
      inv.status == Active
      && (inv.expiresAt.None? || nowMs <= inv.expiresAt.value)
      && (inv.maxUses.None? || inv.useCount < inv.maxUses.value)
    ensures Validate(inv, nowMs) == Err(DaoValidation("Invite has been revoked")) <==> inv.status == Revoked
    ensures Validate(inv, nowMs) == Err(DaoValidation("Invite has expired")) <==>
      inv.status == Expired || (inv.status == Active && inv.expiresAt.Some? && nowMs > inv.expiresAt.value)
  {
  }

  /**
   * A new invite: active and unused; a targeted one has exactly one use; it expires `hours`
   * after creation, or never; and it is valid at once unless it allows zero uses.
   */
  lemma NewInviteDefaults(id: string, tenantId: string, inviterId: string, p: CreateParams, code: string, nowMs: int)
    ensures var inv := NewInvite(id, tenantId, inviterId, p, code, nowMs);
      inv.status == Active && inv.useCount == 0
      && (p.targetEmail.Some? ==> inv.maxUses == Some(1))
      && (p.targetEmail.None? ==> inv.maxUses == p.maxUses)
      && (inv.expiresAt.Some? <==> p.expiresInHours.Some?)
      && (p.expiresInHours.Some? ==> inv.expiresAt.value - nowMs == p.expiresInHours.value * 3_600_000)
      && (Validate(inv, nowMs).Ok? <==> inv.maxUses != Some(0))
  {
  }

  /** The filter of `increment_use_count`: the invite is active and below its use limit, if it has one. */
  predicate CanIncrement(inv: Invite)
  {
    inv.status == Active && (inv.maxUses.None? || inv.useCount < inv.maxUses.value)
  }

  /** The stored invite after a counted use: one more use, and exhausted once it has reached its limit. */
  function AfterUse(inv: Invite, nowMs: int): Invite
  {
    var counted := inv.(useCount := inv.useCount + 1, updatedAt := nowMs);
    if counted.maxUses.Some? && counted.useCount >= counted.maxUses.value then counted.(status := Exhausted) else counted
  }

  /** A use that reaches the limit exhausts the invite: it no longer validates, and cannot be used again. */
  lemma LastUseExhausts(inv: Invite, nowMs: int, laterMs: int)
    requires CanIncrement(inv) && inv.maxUses == Some(inv.useCount + 1)
    ensures AfterUse(inv, nowMs).status == Exhausted
    ensures Validate(AfterUse(inv, nowMs), laterMs) == Err(DaoValidation("Invite has been fully used"))
    ensures !CanIncrement(AfterUse(inv, nowMs))
  {
  }

  /** An invite that validates can be used; an expired but still active one can be too (the filter ignores expiry). */
  lemma ValidMeansUsable(inv: Invite, nowMs: int)
    ensures Validate(inv, nowMs).Ok? ==> CanIncrement(inv)
    ensures inv.status == Active && inv.maxUses.None? ==> CanIncrement(inv)
  {
  }

  /** What `increment_use_count` refuses with. */
  const CANNOT_USE := "Invite cannot be used (exhausted, expired, or revoked)"

  /** The selectors the store's queries filter by. */
  function HasId(id: string): Invite -> bool { (inv: Invite) => inv.id == id }
  function HasCode(code: string): Invite -> bool { (inv: Invite) => inv.code == code }
  function HasIdInTenant(id: string, tenantId: string): Invite -> bool { (inv: Invite) => inv.id == id && inv.tenantId == tenantId }

  /** `find_by_code`'s answer on a collection: the first invite with the code, else not found. */
  function FindCode(invites: seq<Invite>, code: string): (r: Result<Invite, DaoError>)
    ensures r.Ok? ==> r.value in invites && r.value.code == code
    ensures r.Err? <==> forall k :: 0 <= k < |invites| ==> invites[k].code != code
    ensures r.Err? ==> r.error == DaoNotFound
  {
    match IndexWhere(invites, HasCode(code))
    case Some(k) => Ok(invites[k])
    case None => Err(DaoNotFound)
  }

  /** With distinct ids, looking an invite up by its own id finds that very invite. */
  lemma IdLocates(invites: seq<Invite>, inv: Invite)
    requires forall k, j :: 0 <= k < j < |invites| ==> invites[k].id != invites[j].id
    requires inv in invites
    ensures var k := IndexWhere(invites, HasId(inv.id)); k.Some? && invites[k.value] == inv
  {
    var i :| 0 <= i < |invites| && invites[i] == inv;
    var k := IndexWhere(invites, HasId(inv.id));
    assert HasId(inv.id)(invites[i]);
    assert k.Some?;
    assert invites[k.value].id == inv.id;
  }

  class InviteStore {
    /** The collection, in insertion order. */
    var invites: seq<Invite>

    /** Ids are distinct; no invite has more uses than its limit. */
    ghost predicate Valid()
      reads this
    {
      (forall k, j :: 0 <= k < j < |invites| ==> invites[k].id != invites[j].id)
      && (forall k :: 0 <= k < |invites| ==> invites[k].maxUses.None? || invites[k].useCount <= invites[k].maxUses.value)
    }

    constructor ()
      ensures Valid() && invites == []
    {
      invites := [];
    }

    /** `create`: the new invite is inserted under the id the database assigns, and returned. */
    method Create(id: string, tenantId: string, inviterId: string, p: CreateParams, code: string, nowMs: int) returns (inv: Invite)
      requires Valid() && forall k :: 0 <= k < |invites| ==> invites[k].id != id
      modifies this
      ensures Valid()
      ensures inv == NewInvite(id, tenantId, inviterId, p, code, nowMs)
      ensures invites == old(invites) + [inv]
    {
      inv := NewInvite(id, tenantId, inviterId, p, code, nowMs);
      invites := invites + [inv];
    }

    /** `find_by_code`: the first invite with the code, else not found. */
    method FindByCode(code: string) returns (r: Result<Invite, DaoError>)
      ensures r == FindCode(invites, code)
    {
      var k := 0;
      while k < |invites|
        invariant 0 <= k <= |invites|
        invariant IndexWhere(invites, HasCode(code)) == (match IndexWhere(invites[k..], HasCode(code)) case None => None case Some(i) => Some(i + k))
      {
        assert invites[k..][1..] == invites[k + 1..];
        if invites[k].code == code {
          return Ok(invites[k]);
        }
        k := k + 1;
      }
      return Err(DaoNotFound);
    }

    /**
     * `increment_use_count`: when the invite exists, is active and below its limit, one use is
     * counted and it is exhausted on reaching the limit; the invite as counted, before that
     * exhaustion, is returned. Otherwise nothing changes.
     */
    method IncrementUseCount(id: string, nowMs: int) returns (r: Result<Invite, DaoError>)
      requires Valid()
      modifies this
      ensures Valid()
      ensures var k := IndexWhere(old(invites), HasId(id));
        if k.Some? && CanIncrement(old(invites)[k.value]) then
          invites == old(invites)[k.value := AfterUse(old(invites)[k.value], nowMs)]
          && r == Ok(old(invites)[k.value].(useCount := old(invites)[k.value].useCount + 1, updatedAt := nowMs))
        else invites == old(invites) && r == Err(DaoValidation(CANNOT_USE))
    {
      var k := IndexWhere(invites, HasId(id));
      if k.None? || !CanIncrement(invites[k.value]) {
        return Err(DaoValidation(CANNOT_USE));
      }
      var inv := invites[k.value];
      r := Ok(inv.(useCount := inv.useCount + 1, updatedAt := nowMs));
      invites := invites[k.value := AfterUse(inv, nowMs)];
    }

    /** `revoke`: the invite with both the id and the tenant becomes revoked; true iff one matched. */
    method Revoke(id: string, tenantId: string) returns (matched: bool)
      requires Valid()
      modifies this
      ensures Valid()
      ensures var k := IndexWhere(old(invites), HasIdInTenant(id, tenantId));
        matched == k.Some?
        && invites == if k.Some? then old(invites)[k.value := old(invites)[k.value].(status := Revoked)] else old(invites)
    {
      var k := IndexWhere(invites, HasIdInTenant(id, tenantId));
      matched := k.Some?;
      if k.Some? {
        invites := invites[k.value := invites[k.value].(status := Revoked)];
      }
    }
  }

  /** A revoked invite never validates and cannot be used. */
  lemma RevokedIsDead(inv: Invite, nowMs: int)
    ensures Validate(inv.(status := Revoked), nowMs) == Err(DaoValidation("Invite has been revoked"))
    ensures !CanIncrement(inv.(status := Revoked))
  {
  }
}
