/**
 * The invite endpoints (crates/api/src/routes/invite.rs): public invite info, accepting an
 * invite, and the tenant-scoped create, revoke and add-member endpoints guarded by the
 * INVITE_MEMBERS permission. The tenant store (crates/services/src/dao/tenant.rs is not part of
 * this model) is a class holding each membership's role ids and each tenant's "member" role;
 * a member's permission bits and the DAO error's display text are inputs.
 */
module InviteRoutes {
  import opened Wrappers
  import opened ApiErrors
  import opened InviteDao
  import opened Seqs
  import Handler

  /** `parse_oid`: the id in lower-case hex, or 400 naming the text. */
  function ParseOid(s: string): (r: Result<string, ApiError>)
    ensures r.Ok? <==> Handler.ParseObjectId(s).Some?
    ensures r.Ok? ==> r.value == Handler.ParseObjectId(s).value
    ensures r.Err? ==> r.error == BadRequest("Invalid ObjectId: " + s)
  {
    match Handler.ParseObjectId(s)
    case Some(id) => Ok(id)
    case None => Err(BadRequest("Invalid ObjectId: " + s))
  }

  /** Parsing every id of a list, collected into one result: the first failure wins. */
  function ParseOids(ss: seq<string>): (r: Result<seq<string>, ApiError>)
  {
    if ss == [] then Ok([])
    else match ParseOid(ss[0])
      case Err(e) => Err(e)
      case Ok(id) =>
        match ParseOids(ss[1..])
        case Err(e) => Err(e)
        case Ok(ids) => Ok([id] + ids)
  }

  /** The list parses exactly when every entry does, entry by entry; otherwise the error names the first bad one. */
  lemma {:induction false} ParseOidsExact(ss: seq<string>)
    ensures ParseOids(ss).Ok? <==> forall i :: 0 <= i < |ss| ==> ParseOid(ss[i]).Ok?
    ensures ParseOids(ss).Ok? ==>
              |ParseOids(ss).value| == |ss| && forall i :: 0 <= i < |ss| ==> ParseOids(ss).value[i] == ParseOid(ss[i]).value
    ensures ParseOids(ss).Err? ==>
              exists i :: 0 <= i < |ss| && ParseOid(ss[i]).Err? && (forall j :: 0 <= j < i ==> ParseOid(ss[j]).Ok?)
                          && ParseOids(ss).error == ParseOid(ss[i]).error
  {
    if ss != [] {
      ParseOidsExact(ss[1..]);
      if ParseOid(ss[0]).Ok? && ParseOids(ss[1..]).Err? {
        var i :| 0 <= i < |ss[1..]| && ParseOid(ss[1..][i]).Err?
          && (forall j :: 0 <= j < i ==> ParseOid(ss[1..][j]).Ok?) && ParseOids(ss[1..]).error == ParseOid(ss[1..][i]).error;
        assert ParseOid(ss[i + 1]).Err? && forall j :: 0 <= j < i + 1 ==> ParseOid(ss[j]).Ok?;
      }
      if ParseOid(ss[0]).Ok? && ParseOids(ss[1..]).Ok? {
        assert forall i :: 1 <= i < |ss| ==> ss[i] == ss[1..][i - 1];
      }
      if ParseOids(ss).Ok? {
        assert forall i :: 1 <= i < |ss| ==> ss[i] == ss[1..][i - 1];
      }
    }
  }

  /** `permissions::has`: every bit of the flag is granted (crates/db/src/models/role.rs is not part of this model). */
  predicate Has(perms: bv64, flag: bv64)
  {
    perms & flag == flag
  }

  /** `require_invite_permission`: the lookup's error, or 403 unless the member holds the flag. */
  function RequireInvitePermission(perms: Result<bv64, DaoError>, inviteMembers: bv64): (r: Result<(), ApiError>)
    ensures r.Ok? <==> perms.Ok? && Has(perms.value, inviteMembers)
    ensures perms.Err? ==> r == Err(FromDao(perms.error))
    ensures perms.Ok? && r.Err? ==> r.error == Forbidden("Missing INVITE_MEMBERS permission")
  {
    match perms
    case Err(e) => Err(FromDao(e))
    case Ok(p) => if Has(p, inviteMembers) then Ok(()) else Err(Forbidden("Missing INVITE_MEMBERS permission"))
  }

  /** Granting more permissions never takes the right away. */
  lemma PermissionMonotone(p: bv64, q: bv64, inviteMembers: bv64)
    ensures RequireInvitePermission(Ok(p), inviteMembers).Ok? ==> RequireInvitePermission(Ok(p | q), inviteMembers).Ok?
  {
  }

  /** Only the flag's own bits decide. */
  lemma PermissionOnlyFlag(p: bv64, inviteMembers: bv64)
    ensures RequireInvitePermission(Ok(p), inviteMembers).Ok? <==> RequireInvitePermission(Ok(p & inviteMembers), inviteMembers).Ok?
  {
  }

  /** A membership: the (tenant, user) pair. */
  type Membership = (string, string)

  class TenantStore {
    /** Each membership's role ids. */
    var members: map<Membership, seq<string>>
    /** Each tenant's role named "member", where it has one. */
    var memberRole: map<string, string>

    constructor (memberRole: map<string, string>)
      ensures members == map[] && this.memberRole == memberRole
    {
      this.members := map[];
      this.memberRole := memberRole;
    }

    /** `add_member`: the user joins the tenant with the roles. */
    method AddMember(tenantId: string, userId: string, roles: seq<string>)
      modifies this`members
      ensures members == old(members)[(tenantId, userId) := roles]
    {
      members := members[(tenantId, userId) := roles];
    }
  }

  /** The roles a new member gets: the requested ones, or the tenant's "member" role when none are requested. */
  function RolesToGrant(requested: seq<string>, tenantId: string, memberRole: map<string, string>): (r: Result<seq<string>, ApiError>)
    ensures requested != [] ==> r == Ok(requested)
    ensures requested == [] && tenantId in memberRole ==> r == Ok([memberRole[tenantId]])
    ensures requested == [] && tenantId !in memberRole ==> r == Err(FromDao(DaoNotFound))
  {
    if requested != [] then Ok(requested)
    else if tenantId in memberRole then Ok([memberRole[tenantId]])
    else Err(FromDao(DaoNotFound))
  }

  // ---------------------------------------------------------------- accept

  /** What an accepted invite does: the invite whose use is counted and the roles its user gets. */
  datatype AcceptPlan = AcceptPlan(invite: Invite, roles: seq<string>)

  /**
   * `accept_invite`'s checks in their order: the lookup, the validity (400 with the DAO error's
   * text), the target email (403), an existing membership (409), then the roles to grant.
   */
  function AcceptDecision(found: Result<Invite, DaoError>, userId: string, email: string, nowMs: int,
                          members: map<Membership, seq<string>>, memberRole: map<string, string>,
                          daoDisplay: DaoError -> string): Result<AcceptPlan, ApiError>
  {
    match found
    case Err(e) => Err(FromDao(e))
    case Ok(inv) =>
      match Validate(inv, nowMs)
      case Err(e) => Err(BadRequest(daoDisplay(e)))
      case Ok(_) =>
        if inv.targetEmail.Some? && inv.targetEmail.value != email then Err(Forbidden("This invite is for a different email address"))
        else if (inv.tenantId, userId) in members then Err(Conflict("Already a member of this tenant"))
        else match RolesToGrant(inv.assignRoleIds, inv.tenantId, memberRole)
          case Err(e) => Err(e)
          case Ok(roles) => Ok(AcceptPlan(inv, roles))
  }

  /**
   * The accept order: an unknown code is 404, an unusable invite 400, someone else's invite 403
   * and an existing member 409, each only when the earlier checks passed; a success grants the
   * invite's roles, or the member role when it names none.
   */
  lemma AcceptOrder(invites: seq<Invite>, code: string, userId: string, email: string, nowMs: int,
                    members: map<Membership, seq<string>>, memberRole: map<string, string>, daoDisplay: DaoError -> string)
    ensures var found := FindCode(invites, code);
      var d := AcceptDecision(found, userId, email, nowMs, members, memberRole, daoDisplay);
      (found.Err? ==> d == Err(NotFound("Resource not found")))
      && (d.Ok? ==> found.Ok?)
      && (found.Ok? ==>
            var inv := found.value;
            (Validate(inv, nowMs).Err? <==> d.Err? && d.error.BadRequest?)
            && (d.Err? && d.error.Forbidden? <==>
                  Validate(inv, nowMs).Ok? && inv.targetEmail.Some? && inv.targetEmail.value != email)
            && (d.Err? && d.error.Conflict? <==>
                  Validate(inv, nowMs).Ok? && (inv.targetEmail.None? || inv.targetEmail.value == email)
                  && (inv.tenantId, userId) in members)
            && (d.Ok? ==>
                  d.value.invite == inv && Validate(inv, nowMs).Ok? && (inv.tenantId, userId) !in members
                  && d.value.roles == (if inv.assignRoleIds == [] then [memberRole[inv.tenantId]] else inv.assignRoleIds)))
  {
  }

  /** What a successful accept reports: the joined tenant's id, name and slug. */
  datatype AcceptedTenant = AcceptedTenant(tenantId: string, tenantName: string, tenantSlug: string)

  /**
   * `accept_invite` against the stores: when every check passes, the user becomes a member and
   * the invite's use is counted; otherwise nothing changes. The count cannot fail here, because
   * a valid invite passes the increment's filter; its 400 path belongs to concurrent accepts.
   * `tenantLookup` is the answer of the final tenant lookup (name and slug), which runs after
   * both stores changed: its failure is reported through `FromDao` and the changes stay.
   */
  method AcceptInvite(store: InviteStore, tenants: TenantStore, code: string, userId: string, email: string,
                      nowMs: int, daoDisplay: DaoError -> string, tenantLookup: Result<(string, string), DaoError>)
    returns (r: Result<AcceptedTenant, ApiError>)
    requires store.Valid()
    modifies store, tenants`members
    ensures store.Valid()
    ensures var d := AcceptDecision(FindCode(old(store.invites), code), userId, email, nowMs,
                                    old(tenants.members), tenants.memberRole, daoDisplay);
      if d.Err? then r == Err(d.error) && store.invites == old(store.invites) && tenants.members == old(tenants.members)
      else
        var k := IndexWhere(old(store.invites), HasId(d.value.invite.id));
        (tenantLookup.Err? ==> r == Err(FromDao(tenantLookup.error)))
        && (tenantLookup.Ok? ==>
              r == Ok(AcceptedTenant(d.value.invite.tenantId, tenantLookup.value.0, tenantLookup.value.1)))
        && k.Some? && old(store.invites)[k.value] == d.value.invite
        && store.invites == old(store.invites)[k.value := AfterUse(d.value.invite, nowMs)]
        && tenants.members == old(tenants.members)[(d.value.invite.tenantId, userId) := d.value.roles]
  {
    var found := store.FindByCode(code);
    ghost var d := AcceptDecision(found, userId, email, nowMs, tenants.members, tenants.memberRole, daoDisplay);
    if found.Err? {
      return Err(FromDao(found.error));
    }
    var inv := found.value;
    var valid := Validate(inv, nowMs);
    if valid.Err? {
      return Err(BadRequest(daoDisplay(valid.error)));
    }
    if inv.targetEmail.Some? && inv.targetEmail.value != email {
      return Err(Forbidden("This invite is for a different email address"));
    }
    if (inv.tenantId, userId) in tenants.members {
      return Err(Conflict("Already a member of this tenant"));
    }
    var roles := RolesToGrant(inv.assignRoleIds, inv.tenantId, tenants.memberRole);
    if roles.Err? {
      return Err(roles.error);
    }
    tenants.AddMember(inv.tenantId, userId, roles.value);
    IdLocates(store.invites, inv);
    ValidMeansUsable(inv, nowMs);
    var counted := store.IncrementUseCount(inv.id, nowMs);
    assert counted.Ok?;
    if tenantLookup.Err? {
      return Err(FromDao(tenantLookup.error));
    }
    r := Ok(AcceptedTenant(inv.tenantId, tenantLookup.value.0, tenantLookup.value.1));
  }

  // ---------------------------------------------------------------- info

  datatype InviteInfo = InviteInfo(code: string, tenantName: string, tenantSlug: string, inviterName: string,
                                   isValid: bool, status: string, alreadyMember: Option<bool>)

  /**
   * `get_invite_info`: the invite lookup, then the lookups of its tenant (name and slug) and of
   * its inviter (display name). An unknown code is 404 "Invite not found"; a failed tenant or
   * inviter lookup goes through `FromDao`. Membership is reported only to a signed-in caller.
   */
  function GetInviteInfo(found: Result<Invite, DaoError>, tenant: Result<(string, string), DaoError>,
                         inviter: Result<string, DaoError>, nowMs: int, caller: Option<string>,
                         members: map<Membership, seq<string>>): (r: Result<InviteInfo, ApiError>)
    ensures r.Ok? <==> found.Ok? && tenant.Ok? && inviter.Ok?
    ensures found.Err? ==> r == Err(NotFound("Invite not found"))
    ensures found.Ok? && tenant.Err? ==> r == Err(FromDao(tenant.error))
    ensures found.Ok? && tenant.Ok? && inviter.Err? ==> r == Err(FromDao(inviter.error))
    ensures r.Ok? ==> r.value.code == found.value.code
                      && r.value.tenantName == tenant.value.0 && r.value.tenantSlug == tenant.value.1
                      && r.value.inviterName == inviter.value
  {
    match found
    case Err(_) => Err(NotFound("Invite not found"))
    case Ok(inv) =>
      match tenant
      case Err(e) => Err(FromDao(e))
      case Ok(t) =>
        match inviter
        case Err(e) => Err(FromDao(e))
        case Ok(name) =>
          Ok(InviteInfo(inv.code, t.0, t.1, name, Validate(inv, nowMs).Ok?, StatusName(inv.status),
                        if caller.Some? then Some((inv.tenantId, caller.value) in members) else None))
  }

  /**
   * An unknown code is the only way to get "Invite not found": once the invite is found, a
   * failed tenant or inviter lookup answers with the store's own error, so a missing tenant or
   * inviter reads as 404 "Resource not found" and a database failure as a 500.
   */
  lemma InfoLookupErrors(found: Result<Invite, DaoError>, tenant: Result<(string, string), DaoError>,
                         inviter: Result<string, DaoError>, nowMs: int, caller: Option<string>,
                         members: map<Membership, seq<string>>)
    ensures var r := GetInviteInfo(found, tenant, inviter, nowMs, caller, members);
      (r == Err(NotFound("Invite not found")) <==> found.Err?)
      && (found.Ok? && r.Err? ==>
            (r.error == NotFound("Resource not found") <==>
               (tenant.Err? && tenant.error.DaoNotFound?) || (tenant.Ok? && inviter.Err? && inviter.error.DaoNotFound?))
            && (Status(r.error) == 500 <==>
               (tenant.Err? && (tenant.error.Mongo? || tenant.error.BsonSer? || tenant.error.BsonDe?))
               || (tenant.Ok? && inviter.Err? && (inviter.error.Mongo? || inviter.error.BsonSer? || inviter.error.BsonDe?))))
  {
    var r := GetInviteInfo(found, tenant, inviter, nowMs, caller, members);
    if found.Ok? && tenant.Err? {
      assert r.error == FromDao(tenant.error);
    } else if found.Ok? && inviter.Err? {
      assert r.error == FromDao(inviter.error);
    }
  }

  /**
   * The info agrees with accepting: it reports the invite valid exactly when accepting would not
   * be refused as unusable, reports membership exactly to a signed-in caller, and its status text
   * names the status unambiguously.
   */
  lemma InfoAgreesWithAccept(inv: Invite, tenant: (string, string), inviter: string, nowMs: int, caller: Option<string>, email: string,
                             members: map<Membership, seq<string>>, memberRole: map<string, string>, daoDisplay: DaoError -> string)
    ensures var info := GetInviteInfo(Ok(inv), Ok(tenant), Ok(inviter), nowMs, caller, members).value;
      (caller.Some? ==> var d := AcceptDecision(Ok(inv), caller.value, email, nowMs, members, memberRole, daoDisplay);
        (info.isValid <==> !(d.Err? && d.error.BadRequest?))
        && (d == Err(Conflict("Already a member of this tenant")) <==>
              info.isValid && info.alreadyMember == Some(true) && (inv.targetEmail.None? || inv.targetEmail.value == email)))
      && (info.alreadyMember.Some? <==> caller.Some?)
      && (info.isValid ==> info.status == "active")
  {
  }

  /** Distinct statuses render distinctly. */
  lemma StatusNameInjective(s1: InviteStatus, s2: InviteStatus)
    ensures StatusName(s1) == StatusName(s2) <==> s1 == s2
  {
    if s1 != s2 {
      assert StatusName(s1)[2] != StatusName(s2)[2];
    }
  }

  // ---------------------------------------------------------------- create, revoke, add member

  datatype CreateRequest = CreateRequest(targetEmail: Option<string>, maxUses: Option<nat>, expiresInHours: Option<nat>, assignRoleIds: seq<string>)

  /** The default lifetime, seven days. */
  const DEFAULT_EXPIRY_HOURS: nat := 168

  /** `create_invite`'s checks and the parameters it passes on: tenant id, permission, role ids, then the expiry default. */
  function CreateDecision(tenantHex: string, perms: Result<bv64, DaoError>, inviteMembers: bv64, body: CreateRequest): Result<(string, CreateParams), ApiError>
  {
    match ParseOid(tenantHex)
    case Err(e) => Err(e)
    case Ok(tid) =>
      match RequireInvitePermission(perms, inviteMembers)
      case Err(e) => Err(e)
      case Ok(_) =>
        match ParseOids(body.assignRoleIds)
        case Err(e) => Err(e)
        case Ok(roles) =>
          Ok((tid, CreateParams(body.targetEmail, body.maxUses,
                                if body.expiresInHours.Some? then body.expiresInHours else Some(DEFAULT_EXPIRY_HOURS), roles)))
  }

  /** A created invite always expires: after the requested hours, or after 168 hours; role ids arrive parsed, in order. */
  lemma CreateDefaults(tenantHex: string, perms: Result<bv64, DaoError>, inviteMembers: bv64, body: CreateRequest,
                       id: string, userId: string, code: string, nowMs: int)
    ensures var d := CreateDecision(tenantHex, perms, inviteMembers, body);
      (d.Ok? <==> ParseOid(tenantHex).Ok? && RequireInvitePermission(perms, inviteMembers).Ok? && ParseOids(body.assignRoleIds).Ok?)
      && (d.Ok? ==>
        var inv := NewInvite(id, d.value.0, userId, d.value.1, code, nowMs);
        d.value.0 == Handler.ParseObjectId(tenantHex).value
        && inv.expiresAt == Some(nowMs + (if body.expiresInHours.Some? then body.expiresInHours.value else 168) * 3_600_000)
        && |inv.assignRoleIds| == |body.assignRoleIds|)
  {
    ParseOidsExact(body.assignRoleIds);
  }

  /** `create_invite` against the store: 201 and the stored invite, or the first failed check and no change. */
  method CreateInvite(store: InviteStore, tenantHex: string, perms: Result<bv64, DaoError>, inviteMembers: bv64,
                      body: CreateRequest, userId: string, id: string, code: string, nowMs: int)
    returns (r: Result<(nat, Invite), ApiError>)
    requires store.Valid() && forall k :: 0 <= k < |store.invites| ==> store.invites[k].id != id
    modifies store
    ensures store.Valid()
    ensures var d := CreateDecision(tenantHex, perms, inviteMembers, body);
      if d.Err? then r == Err(d.error) && store.invites == old(store.invites)
      else r == Ok((201, NewInvite(id, d.value.0, userId, d.value.1, code, nowMs))) && store.invites == old(store.invites) + [r.value.1]
  {
    var d := CreateDecision(tenantHex, perms, inviteMembers, body);
    if d.Err? {
      return Err(d.error);
    }
    var inv := store.Create(id, d.value.0, userId, d.value.1, code, nowMs);
    r := Ok((201, inv));
  }

  /** `revoke_invite`: both ids are parsed and the permission checked; the answer is "revoked" even when no invite matched. */
  method RevokeInvite(store: InviteStore, tenantHex: string, inviteHex: string, perms: Result<bv64, DaoError>, inviteMembers: bv64)
    returns (r: Result<bool, ApiError>)
    requires store.Valid()
    modifies store
    ensures store.Valid()
    ensures ParseOid(tenantHex).Err? ==> r == Err(ParseOid(tenantHex).error) && store.invites == old(store.invites)
    ensures ParseOid(tenantHex).Ok? && ParseOid(inviteHex).Err? ==> r == Err(ParseOid(inviteHex).error) && store.invites == old(store.invites)
    ensures ParseOid(tenantHex).Ok? && ParseOid(inviteHex).Ok? && RequireInvitePermission(perms, inviteMembers).Err? ==>
      r == Err(RequireInvitePermission(perms, inviteMembers).error) && store.invites == old(store.invites)
    ensures r.Ok? ==> r.value && ParseOid(tenantHex).Ok? && ParseOid(inviteHex).Ok?
    ensures r.Ok? ==>
              var k := IndexWhere(old(store.invites), HasIdInTenant(ParseOid(inviteHex).value, ParseOid(tenantHex).value));
              store.invites == if k.Some? then old(store.invites)[k.value := old(store.invites)[k.value].(status := Revoked)] else old(store.invites)
  {
    var tid := ParseOid(tenantHex);
    if tid.Err? {
      return Err(tid.error);
    }
    var iid := ParseOid(inviteHex);
    if iid.Err? {
      return Err(iid.error);
    }
    var allowed := RequireInvitePermission(perms, inviteMembers);
    if allowed.Err? {
      return Err(allowed.error);
    }
    var _ := store.Revoke(iid.value, tid.value);
    r := Ok(true);
  }

  /** `add_member`'s checks in their order: tenant id, permission, user id, existing membership (409), then the roles. */
  function AddMemberDecision(tenantHex: string, perms: Result<bv64, DaoError>, inviteMembers: bv64, userHex: string, roleIds: seq<string>,
                             members: map<Membership, seq<string>>, memberRole: map<string, string>): Result<(Membership, seq<string>), ApiError>
  {
    match ParseOid(tenantHex)
    case Err(e) => Err(e)
    case Ok(tid) =>
      match RequireInvitePermission(perms, inviteMembers)
      case Err(e) => Err(e)
      case Ok(_) =>
        match ParseOid(userHex)
        case Err(e) => Err(e)
        case Ok(uid) =>
          if (tid, uid) in members then Err(Conflict("User is already a member"))
          else if roleIds == [] then
            match RolesToGrant([], tid, memberRole)
            case Err(e) => Err(e)
            case Ok(roles) => Ok(((tid, uid), roles))
          else
            match ParseOids(roleIds)
            case Err(e) => Err(e)
            case Ok(roles) => Ok(((tid, uid), roles))
  }

  /**
   * add_member: an existing member is 409 whatever roles were asked for; an empty role list
   * grants the member role; otherwise the requested roles, parsed, and a malformed one is 400.
   */
  lemma AddMemberOrder(tenantHex: string, perms: Result<bv64, DaoError>, inviteMembers: bv64, userHex: string, roleIds: seq<string>,
                       members: map<Membership, seq<string>>, memberRole: map<string, string>)
    requires ParseOid(tenantHex).Ok? && RequireInvitePermission(perms, inviteMembers).Ok? && ParseOid(userHex).Ok?
    ensures var tid, uid := ParseOid(tenantHex).value, ParseOid(userHex).value;
      var d := AddMemberDecision(tenantHex, perms, inviteMembers, userHex, roleIds, members, memberRole);
      ((tid, uid) in members ==> d == Err(Conflict("User is already a member")))
      && ((tid, uid) !in members && roleIds == [] && tid in memberRole ==> d == Ok(((tid, uid), [memberRole[tid]])))
      && ((tid, uid) !in members && roleIds != [] ==>
            (d.Ok? <==> forall i :: 0 <= i < |roleIds| ==> ParseOid(roleIds[i]).Ok?)
            && (d.Ok? ==> |d.value.1| == |roleIds|)
            && (d.Err? ==> d.error.BadRequest?))
  {
    ParseOidsExact(roleIds);
    var d := AddMemberDecision(tenantHex, perms, inviteMembers, userHex, roleIds, members, memberRole);
    if ParseOids(roleIds).Err? {
      var i :| 0 <= i < |roleIds| && ParseOid(roleIds[i]).Err? && ParseOids(roleIds).error == ParseOid(roleIds[i]).error;
    }
  }

  /** `add_member` against the tenant store: 201 and the new membership, or the first failed check and no change. */
  method AddMember(tenants: TenantStore, tenantHex: string, perms: Result<bv64, DaoError>, inviteMembers: bv64,
                   userHex: string, roleIds: seq<string>) returns (r: Result<nat, ApiError>)
    modifies tenants`members
    ensures var d := AddMemberDecision(tenantHex, perms, inviteMembers, userHex, roleIds, old(tenants.members), tenants.memberRole);
      if d.Err? then r == Err(d.error) && tenants.members == old(tenants.members)
      else r == Ok(201) && tenants.members == old(tenants.members)[d.value.0 := d.value.1]
  {
    var d := AddMemberDecision(tenantHex, perms, inviteMembers, userHex, roleIds, tenants.members, tenants.memberRole);
    if d.Err? {
      return Err(d.error);
    }
    tenants.AddMember(d.value.0.0, d.value.0.1, d.value.1);
    r := Ok(201);
  }
}
