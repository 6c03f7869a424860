/**
 * The role store (crates/services/src/dao/role.rs): creating a role, updating it within its
 * tenant, the guard that keeps default and managed roles from being deleted, and the four
 * roles every new tenant is seeded with. The unique index on (tenant, name)
 * (crates/db/src/indexes.rs) rejects a second role of one name in a tenant. The permission
 * constants (crates/db/src/models/role.rs is not part of this model) are inputs.
 */
module RoleDao {
  import opened Wrappers
  import opened ApiErrors
  import opened Seqs

  datatype Role = Role(
    id: string,
    tenantId: string,
    name: string,
    description: Option<string>,
    color: Option<nat>,
    position: nat,
    permissions: bv64,
    isDefault: bool,
    isManaged: bool,
    isMentionable: bool,
    isHoisted: bool,
    createdAt: int,
    updatedAt: int)

  /** The role `create` inserts: mentionable and not hoisted, whatever else it is given. */
  function NewRole(id: string, tenantId: string, name: string, description: Option<string>, color: Option<nat>,
                   perms: bv64, isDefault: bool, isManaged: bool, position: nat, nowMs: int): Role
  {
    Role(id, tenantId, name, description, color, position, perms, isDefault, isManaged, true, false, nowMs, nowMs)
  }

  /** A role the guard refuses to delete. */
  predicate Protected(r: Role) { r.isDefault || r.isManaged }

  /** A tenant already has a role of that name. */
  predicate NameTaken(roles: seq<Role>, tenantId: string, name: string)
  {
    exists k :: 0 <= k < |roles| && roles[k].tenantId == tenantId && roles[k].name == name
  }

  /** Another role of the same tenant as role `k` already has the name. */
  predicate RenameClashes(roles: seq<Role>, k: nat, name: string)
    requires k < |roles|
  {
    exists j :: 0 <= j < |roles| && j != k && roles[j].tenantId == roles[k].tenantId && roles[j].name == name
  }

  function HasRoleId(id: string): Role -> bool { (r: Role) => r.id == id }
  function HasRoleIdInTenant(id: string, tenantId: string): Role -> bool { (r: Role) => r.id == id && r.tenantId == tenantId }

  // ---------------------------------------------------------------- update

  datatype RoleUpdate = RoleUpdate(name: Option<string>, description: Option<string>, color: Option<nat>,
                                   permissions: Option<bv64>, position: Option<nat>)

  /** The role after `update`: the provided fields, and always the update time. */
  function Updated(r: Role, u: RoleUpdate, nowMs: int): Role
  {
    r.(name := u.name.UnwrapOr(r.name),
       description := if u.description.Some? then u.description else r.description,
       color := if u.color.Some? then u.color else r.color,
       permissions := u.permissions.UnwrapOr(r.permissions),
       position := u.position.UnwrapOr(r.position),
       updatedAt := nowMs)
  }

  /**
   * An update sets exactly the provided fields and the update time, even when nothing is provided;
   * it never touches the role's identity, tenant or protection, and repeating it changes nothing.
   */
  lemma UpdatedExact(r: Role, u: RoleUpdate, nowMs: int)
    ensures var v := Updated(r, u, nowMs);
      v.updatedAt == nowMs
      && (u.name.Some? ==> v.name == u.name.value) && (u.name.None? ==> v.name == r.name)
      && (u.permissions.Some? ==> v.permissions == u.permissions.value) && (u.permissions.None? ==> v.permissions == r.permissions)
      && (u.position.Some? ==> v.position == u.position.value) && (u.position.None? ==> v.position == r.position)
      && (u.description.Some? ==> v.description == u.description) && (u.color.None? ==> v.color == r.color)
      && v.id == r.id && v.tenantId == r.tenantId && v.isDefault == r.isDefault && v.isManaged == r.isManaged
      && v.createdAt == r.createdAt
    ensures Updated(Updated(r, u, nowMs), u, nowMs) == Updated(r, u, nowMs)
    ensures u == RoleUpdate(None, None, None, None, None) ==> Updated(r, u, nowMs) == r.(updatedAt := nowMs)
  {
  }

  // ---------------------------------------------------------------- delete

  const CANNOT_DELETE := "Cannot delete default or managed roles"

  /** The collection without the element at `k`. */
  function RemoveAt(roles: seq<Role>, k: nat): (r: seq<Role>)
    requires k < |roles|
    ensures |r| == |roles| - 1
  {
    roles[..k] + roles[k + 1..]
  }

  /** Removing one role keeps the ids, and the (tenant, name) pairs, pairwise distinct. */
  lemma RemoveAtKeepsDistinct(roles: seq<Role>, k: nat)
    requires k < |roles|
    requires forall a, b :: 0 <= a < b < |roles| ==>
      roles[a].id != roles[b].id && (roles[a].tenantId != roles[b].tenantId || roles[a].name != roles[b].name)
    ensures var r := RemoveAt(roles, k);
      forall a, b :: 0 <= a < b < |r| ==> r[a].id != r[b].id && (r[a].tenantId != r[b].tenantId || r[a].name != r[b].name)
  {
    var r := RemoveAt(roles, k);
    forall a, b | 0 <= a < b < |r|
      ensures r[a].id != r[b].id && (r[a].tenantId != r[b].tenantId || r[a].name != r[b].name)
    {
      var c := if a < k then a else a + 1;
      var d := if b < k then b else b + 1;
      assert r[a] == roles[c] && r[b] == roles[d];
    }
  }

  /**
   * `delete` as a step: the role is looked up by id alone and must exist; a default or managed
   * role is refused; otherwise the role with both the id and the tenant is removed, and the answer
   * says whether one was.
   */
  function DeleteStep(roles: seq<Role>, roleId: string, tenantId: string): (seq<Role>, Result<bool, DaoError>)
  {
    match IndexWhere(roles, HasRoleId(roleId))
    case None => (roles, Err(DaoNotFound))
    case Some(k) =>
      if Protected(roles[k]) then (roles, Err(DaoForbidden(CANNOT_DELETE)))
      else match IndexWhere(roles, HasRoleIdInTenant(roleId, tenantId))
        case None => (roles, Ok(false))
        case Some(j) => (RemoveAt(roles, j), Ok(true))
  }

  /**
   * With distinct ids: a protected role is never deleted and the collection stays as it is, in
   * any tenant the request names; an unprotected role is deleted exactly when the tenant is its
   * own, and then it alone goes.
   */
  lemma DeleteGuard(roles: seq<Role>, roleId: string, tenantId: string)
    requires forall k, j :: 0 <= k < j < |roles| ==> roles[k].id != roles[j].id
    ensures var (after, r) := DeleteStep(roles, roleId, tenantId);
      (r.Err? ==> after == roles)
      && ((exists k :: 0 <= k < |roles| && roles[k].id == roleId && Protected(roles[k])) <==> r == Err(DaoForbidden(CANNOT_DELETE)))
      && ((forall k :: 0 <= k < |roles| ==> roles[k].id != roleId) <==> r == Err(DaoNotFound))
      && (r == Ok(true) <==> exists k :: 0 <= k < |roles| && roles[k].id == roleId && !Protected(roles[k]) && roles[k].tenantId == tenantId)
      && (r == Ok(true) ==> forall x :: x in after <==> x in roles && x.id != roleId)
  {
    var (after, r) := DeleteStep(roles, roleId, tenantId);
    match IndexWhere(roles, HasRoleId(roleId))
    case None =>
    case Some(k) =>
      if !Protected(roles[k]) {
        match IndexWhere(roles, HasRoleIdInTenant(roleId, tenantId))
        case None =>
        case Some(j) =>
          assert j == k by {
            assert HasRoleId(roleId)(roles[j]);
          }
          RemoveAtMembers(roles, j, roleId);
      }
  }

  /** With distinct ids, removing the role with `roleId` leaves exactly the other roles. */
  lemma RemoveAtMembers(roles: seq<Role>, j: nat, roleId: string)
    requires forall k, i :: 0 <= k < i < |roles| ==> roles[k].id != roles[i].id
    requires j < |roles| && roles[j].id == roleId
    ensures forall x :: x in RemoveAt(roles, j) <==> x in roles && x.id != roleId
  {
    var after := RemoveAt(roles, j);
    assert roles == roles[..j] + [roles[j]] + roles[j + 1..];
    forall x | x in after
      ensures x in roles && x.id != roleId
    {
      if x in roles[..j] {
        var i :| 0 <= i < j && roles[..j][i] == x;
        assert roles[i] == x;
      } else {
        var i :| 0 <= i < |roles[j + 1..]| && roles[j + 1..][i] == x;
        assert roles[j + 1 + i] == x;
      }
    }
  }

  // ---------------------------------------------------------------- seeding

  /** The permission sets of the four default roles. */
  datatype DefaultPermissions = DefaultPermissions(all: bv64, admin: bv64, moderator: bv64, member: bv64)

  datatype RoleSpec = RoleSpec(name: string, permissions: bv64, position: nat)

  /** Owner, Admin, Moderator and Member, at positions 0 to 3. */
  function DefaultSpecs(p: DefaultPermissions): (specs: seq<RoleSpec>)
    ensures |specs| == 4
    ensures forall i :: 0 <= i < 4 ==> specs[i].position == i
    ensures forall i, j :: 0 <= i < j < 4 ==> specs[i].name != specs[j].name
  {
    [RoleSpec("Owner", p.all, 0), RoleSpec("Admin", p.admin, 1), RoleSpec("Moderator", p.moderator, 2), RoleSpec("Member", p.member, 3)]
  }

  /** The role seeding creates for a spec: default and managed, without description or colour. */
  function SeededRole(id: string, tenantId: string, s: RoleSpec, nowMs: int): Role
  {
    NewRole(id, tenantId, s.name, None, None, s.permissions, true, true, s.position, nowMs)
  }

  /** An `Ok` list with `created` in front; an error stays the error. */
  function Prepend(created: seq<Role>, r: Result<seq<Role>, DaoError>): Result<seq<Role>, DaoError>
  {
    match r
    case Ok(rest) => Ok(created + rest)
    case Err(e) => Err(e)
  }

  /**
   * `seed_defaults` from spec `i` on: each role is created in turn; the first one whose name the
   * tenant already has stops the loop with the duplicate-key error, keeping those created before.
   */
  function SeedFrom(roles: seq<Role>, tenantId: string, specs: seq<RoleSpec>, ids: seq<string>, i: nat, nowMs: int, dm: string): (seq<Role>, Result<seq<Role>, DaoError>)
    requires |ids| == |specs| && i <= |specs|
    decreases |specs| - i
  {
    if i == |specs| then (roles, Ok([]))
    else if NameTaken(roles, tenantId, specs[i].name) then (roles, Err(DuplicateKey(dm)))
    else
      var r := SeededRole(ids[i], tenantId, specs[i], nowMs);
      var (after, rest) := SeedFrom(roles + [r], tenantId, specs, ids, i + 1, nowMs, dm);
      (after, Prepend([r], rest))
  }

  /**
   * In a tenant that holds none of the names yet, seeding creates exactly one role per spec, in
   * order, at the given positions, and every one of them is protected.
   */
  lemma {:induction false} SeedFresh(roles: seq<Role>, tenantId: string, specs: seq<RoleSpec>, ids: seq<string>, i: nat, nowMs: int, dm: string)
    requires |ids| == |specs| && i <= |specs|
    requires forall j :: i <= j < |specs| ==> !NameTaken(roles, tenantId, specs[j].name)
    requires forall j, k :: i <= j < k < |specs| ==> specs[j].name != specs[k].name
    ensures var (after, r) := SeedFrom(roles, tenantId, specs, ids, i, nowMs, dm);
      r.Ok? && |r.value| == |specs| - i && after == roles + r.value
      && forall j :: 0 <= j < |r.value| ==> r.value[j] == SeededRole(ids[i + j], tenantId, specs[i + j], nowMs) && Protected(r.value[j])
    decreases |specs| - i
  {
    if i < |specs| {
      var r := SeededRole(ids[i], tenantId, specs[i], nowMs);
      forall j | i + 1 <= j < |specs|
        ensures !NameTaken(roles + [r], tenantId, specs[j].name)
      {
        assert !NameTaken(roles, tenantId, specs[j].name);
        assert (roles + [r])[|roles|] == r;
      }
      SeedFresh(roles + [r], tenantId, specs, ids, i + 1, nowMs, dm);
    }
  }

  /** Seeding a tenant that already has one of the names fails with a duplicate key at the first such name. */
  lemma {:induction false} SeedClash(roles: seq<Role>, tenantId: string, specs: seq<RoleSpec>, ids: seq<string>, i: nat, nowMs: int, dm: string)
    requires |ids| == |specs| && i <= |specs|
    requires exists j :: i <= j < |specs| && NameTaken(roles, tenantId, specs[j].name)
    ensures SeedFrom(roles, tenantId, specs, ids, i, nowMs, dm).1 == Err(DuplicateKey(dm))
    decreases |specs| - i
  {
    if !NameTaken(roles, tenantId, specs[i].name) {
      var r := SeededRole(ids[i], tenantId, specs[i], nowMs);
      var j :| i <= j < |specs| && NameTaken(roles, tenantId, specs[j].name);
      var k :| 0 <= k < |roles| && roles[k].tenantId == tenantId && roles[k].name == specs[j].name;
      assert (roles + [r])[k] == roles[k];
      SeedClash(roles + [r], tenantId, specs, ids, i + 1, nowMs, dm);
    }
  }

  /**
   * A new tenant gets Owner, Admin, Moderator and Member at positions 0 to 3, each default and
   * managed, with its permission set; an existing one of those names makes seeding fail.
   */
  lemma SeedDefaultsOutcome(roles: seq<Role>, tenantId: string, p: DefaultPermissions, ids: seq<string>, nowMs: int, dm: string)
    requires |ids| == 4
    ensures var specs := DefaultSpecs(p);
      var (after, r) := SeedFrom(roles, tenantId, specs, ids, 0, nowMs, dm);
      ((forall j :: 0 <= j < 4 ==> !NameTaken(roles, tenantId, specs[j].name)) ==>
         r.Ok? && after == roles + r.value && |r.value| == 4
         && r.value[0].name == "Owner" && r.value[1].name == "Admin" && r.value[2].name == "Moderator" && r.value[3].name == "Member"
         && r.value[0].permissions == p.all && r.value[3].permissions == p.member
         && forall j :: 0 <= j < 4 ==>
              (r.value[j].position == j && r.value[j].isDefault && r.value[j].isManaged
               && r.value[j].tenantId == tenantId && r.value[j].id == ids[j]))
      && ((exists j :: 0 <= j < 4 && NameTaken(roles, tenantId, specs[j].name)) ==> r == Err(DuplicateKey(dm)))
  {
    var specs := DefaultSpecs(p);
    if forall j :: 0 <= j < 4 ==> !NameTaken(roles, tenantId, specs[j].name) {
      SeedFresh(roles, tenantId, specs, ids, 0, nowMs, dm);
    } else {
      SeedClash(roles, tenantId, specs, ids, 0, nowMs, dm);
    }
  }

  /** The seeded roles can never be deleted. */
  lemma SeededRolesSurviveDelete(roles: seq<Role>, id: string, tenantId: string, s: RoleSpec, nowMs: int, anyTenant: string)
    requires forall k, j :: 0 <= k < j < |roles| ==> roles[k].id != roles[j].id
    requires SeededRole(id, tenantId, s, nowMs) in roles
    ensures DeleteStep(roles, id, anyTenant) == (roles, Err(DaoForbidden(CANNOT_DELETE)))
  {
    DeleteGuard(roles, id, anyTenant);
    var k :| 0 <= k < |roles| && roles[k] == SeededRole(id, tenantId, s, nowMs);
    assert roles[k].id == id && Protected(roles[k]);
  }

  class RoleStore {
    /** The collection, in insertion order. */
    var roles: seq<Role>

    /** Ids are distinct, and so are the names within a tenant. */
    ghost predicate Valid()
      reads this
    {
      forall k, j :: 0 <= k < j < |roles| ==>
        roles[k].id != roles[j].id && (roles[k].tenantId != roles[j].tenantId || roles[k].name != roles[j].name)
    }

    constructor ()
      ensures Valid() && roles == []
    {
      roles := [];
    }

    /** `create`: refused when the tenant already has the name; otherwise inserted and returned. */
    method Create(id: string, tenantId: string, name: string, description: Option<string>, color: Option<nat>,
                  perms: bv64, isDefault: bool, isManaged: bool, position: nat, nowMs: int, duplicateMessage: string)
      returns (r: Result<Role, DaoError>)
      requires Valid() && forall k :: 0 <= k < |roles| ==> roles[k].id != id
      modifies this
      ensures Valid()
      ensures NameTaken(old(roles), tenantId, name) ==> r == Err(DuplicateKey(duplicateMessage)) && roles == old(roles)
      ensures !NameTaken(old(roles), tenantId, name) ==>
        r == Ok(NewRole(id, tenantId, name, description, color, perms, isDefault, isManaged, position, nowMs))
        && roles == old(roles) + [r.value]
    {
      if exists k :: 0 <= k < |roles| && roles[k].tenantId == tenantId && roles[k].name == name {
        return Err(DuplicateKey(duplicateMessage));
      }
      var role := NewRole(id, tenantId, name, description, color, perms, isDefault, isManaged, position, nowMs);
      roles := roles + [role];
      return Ok(role);
    }

    /**
     * `update`: the role with both the id and the tenant gets the provided fields; a new name that
     * another role of the tenant holds breaks the unique index and changes nothing.
     */
    method Update(roleId: string, tenantId: string, u: RoleUpdate, nowMs: int, duplicateMessage: string) returns (r: Result<bool, DaoError>)
      requires Valid()
      modifies this
      ensures Valid()
      ensures var k := IndexWhere(old(roles), HasRoleIdInTenant(roleId, tenantId));
        if k.None? then r == Ok(false) && roles == old(roles)
        else if u.name.Some? && RenameClashes(old(roles), k.value, u.name.value) then r == Err(DuplicateKey(duplicateMessage)) && roles == old(roles)
        else r == Ok(true) && roles == old(roles)[k.value := Updated(old(roles)[k.value], u, nowMs)]
    {
      var k := IndexWhere(roles, HasRoleIdInTenant(roleId, tenantId));
      if k.None? {
        return Ok(false);
      }
      if u.name.Some? && exists j :: 0 <= j < |roles| && j != k.value && roles[j].tenantId == roles[k.value].tenantId && roles[j].name == u.name.value {
        return Err(DuplicateKey(duplicateMessage));
      }
      roles := roles[k.value := Updated(roles[k.value], u, nowMs)];
      return Ok(true);
    }

    /** `delete`, guarded: see `DeleteStep`. */
    method Delete(roleId: string, tenantId: string) returns (r: Result<bool, DaoError>)
      requires Valid()
      modifies this
      ensures Valid()
      ensures (roles, r) == DeleteStep(old(roles), roleId, tenantId)
    {
      var k := IndexWhere(roles, HasRoleId(roleId));
      if k.None? {
        return Err(DaoNotFound);
      }
      if roles[k.value].isDefault || roles[k.value].isManaged {
        return Err(DaoForbidden(CANNOT_DELETE));
      }
      var j := IndexWhere(roles, HasRoleIdInTenant(roleId, tenantId));
      if j.None? {
        return Ok(false);
      }
      RemoveAtKeepsDistinct(roles, j.value);
      roles := RemoveAt(roles, j.value);
      return Ok(true);
    }

    /** `seed_defaults`: the four default roles created in order; the first failure is returned. */
    method SeedDefaults(tenantId: string, p: DefaultPermissions, ids: seq<string>, nowMs: int, duplicateMessage: string)
      returns (r: Result<seq<Role>, DaoError>)
      requires Valid() && |ids| == 4
      requires forall i, j :: 0 <= i < j < 4 ==> ids[i] != ids[j]
      requires forall i, k :: 0 <= i < 4 && 0 <= k < |roles| ==> roles[k].id != ids[i]
      modifies this
      ensures Valid()
      ensures (roles, r) == SeedFrom(old(roles), tenantId, DefaultSpecs(p), ids, 0, nowMs, duplicateMessage)
    {
      r := CreateAll(tenantId, DefaultSpecs(p), ids, nowMs, duplicateMessage);
    }

    /** The loop of `seed_defaults` over any list of specs. */
    method CreateAll(tenantId: string, specs: seq<RoleSpec>, ids: seq<string>, nowMs: int, duplicateMessage: string)
      returns (r: Result<seq<Role>, DaoError>)
      requires Valid() && |ids| == |specs|
      requires forall i, j :: 0 <= i < j < |ids| ==> ids[i] != ids[j]
      requires forall i, k :: 0 <= i < |ids| && 0 <= k < |roles| ==> roles[k].id != ids[i]
      modifies this
      ensures Valid()
      ensures (roles, r) == SeedFrom(old(roles), tenantId, specs, ids, 0, nowMs, duplicateMessage)
    {
      ghost var target := SeedFrom(roles, tenantId, specs, ids, 0, nowMs, duplicateMessage);
      var created: seq<Role> := [];
      PrependNothing(SeedFrom(roles, tenantId, specs, ids, 0, nowMs, duplicateMessage).1);
      var i := 0;
      while i < |specs|
        invariant 0 <= i <= |specs| && Valid()
        invariant |created| == i && roles == old(roles) + created
        invariant forall j :: 0 <= j < i ==> created[j].id == ids[j]
        invariant target.0 == SeedFrom(roles, tenantId, specs, ids, i, nowMs, duplicateMessage).0
        invariant target.1 == Prepend(created, SeedFrom(roles, tenantId, specs, ids, i, nowMs, duplicateMessage).1)
      {
        forall k | 0 <= k < |roles|
          ensures roles[k].id != ids[i]
        {
          if k >= |old(roles)| {
            assert roles[k] == created[k - |old(roles)|];
          }
        }
        ghost var before := roles;
        var role := Create(ids[i], tenantId, specs[i].name, None, None, specs[i].permissions, true, true, specs[i].position, nowMs, duplicateMessage);
        if role.Err? {
          return Err(role.error);
        }
        SeedStep(before, tenantId, specs, ids, i, nowMs, duplicateMessage, created);
        created := created + [role.value];
        i := i + 1;
      }
      PrependAll(created);
      return Ok(created);
    }
  }

  lemma PrependNothing(res: Result<seq<Role>, DaoError>)
    ensures Prepend([], res) == res
  {
    if res.Ok? {
      assert [] + res.value == res.value;
    }
  }

  lemma PrependAll(created: seq<Role>)
    ensures Prepend(created, Ok([])) == Ok(created)
  {
    assert created + [] == created;
  }

  /** One created role moves from the loop's remaining work to what it has created. */
  lemma SeedStep(roles: seq<Role>, tenantId: string, specs: seq<RoleSpec>, ids: seq<string>, i: nat, nowMs: int, dm: string, created: seq<Role>)
    requires |ids| == |specs| && i < |specs| && !NameTaken(roles, tenantId, specs[i].name)
    ensures var r := SeededRole(ids[i], tenantId, specs[i], nowMs);
      var next := SeedFrom(roles + [r], tenantId, specs, ids, i + 1, nowMs, dm);
      SeedFrom(roles, tenantId, specs, ids, i, nowMs, dm).0 == next.0
      && Prepend(created, SeedFrom(roles, tenantId, specs, ids, i, nowMs, dm).1) == Prepend(created + [r], next.1)
  {
    var r := SeededRole(ids[i], tenantId, specs[i], nowMs);
    var next := SeedFrom(roles + [r], tenantId, specs, ids, i + 1, nowMs, dm);
    if next.1.Ok? {
      assert created + ([r] + next.1.value) == (created + [r]) + next.1.value;
    }
  }
}
