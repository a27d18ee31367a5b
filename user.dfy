/** Users, their memberships in units, and membership policies
    (app/models/user.py).

    A membership's policy is a JSON object. Permissions are read along
    dot-separated paths, and updates are merged into it recursively. */
module Users {
  import opened Common

  // ---------------------------------------------------------------------------
  // Roles
  // ---------------------------------------------------------------------------

  datatype GlobalRole = Superadmin | Staff | Accountant | Developer | Resident

  datatype LocalRole = Manager | Cashier | Owner | Tenant | Occupant | Guest

  /** The enum's stored value. */
  function LocalRoleValue(r: LocalRole): string
  {
    match r
    case Manager => "manager"
    case Cashier => "cashier"
    case Owner => "owner"
    case Tenant => "tenant"
    case Occupant => "occupant"
    case Guest => "guest"
  }

  /** What a membership's `unit` relationship shows of the unit: its id, its
      building, and where in the building it is. */
  datatype UnitRef = UnitRef(id: int, buildingId: int, entrance: Option<string>, floor: Option<int>)

  // ---------------------------------------------------------------------------
  // Policies
  // ---------------------------------------------------------------------------

  /** The policy a new membership gets when none is given. */
  function DefaultPolicy(role: LocalRole): map<string, Json>
  {
    map[
      "visibility" := JObj(DefaultVisibilityPolicy(role)),
      "actions" := JObj(DefaultActionsPolicy(role)),
      "rate_limits" := JObj(map["announcements_per_day" := JNum(if role == Manager then 5.0 else 1.0)])
    ]
  }

  function DefaultVisibilityPolicy(role: LocalRole): map<string, Json>
  {
    map[
      "building_docs" := JBool(role == Owner || role == Manager),
      "expenses_summary" := JBool(role == Owner || role == Manager || role == Cashier),
      "own_invoices" := JBool(true),
      "announcements" := JBool(true)]
  }

  function DefaultActionsPolicy(role: LocalRole): map<string, Json>
  {
    map[
      "vote" := JBool(role == Owner),
      "view_finance" := JBool(role == Owner || role == Manager || role == Cashier),
      "manage_building" := JBool(role == Manager)]
  }

  /** One step of the permission walk: into `key` of a dict, or stuck. */
  function Step(current: Json, key: string): (next: Option<Json>)
    ensures next.Some? <==> current.JObj? && key in current.fields
    ensures next.Some? ==> next.value == current.fields[key]
  {
    if current.JObj? && key in current.fields then Some(current.fields[key]) else None
  }

  /** Where the walk along `path` from `root` ends, or `None` when it gets stuck
      on a missing key or a value that is not a dict. */
  function Walk(root: Json, path: seq<string>): Option<Json>
  {
    if path == [] then Some(root)
    else
      match Walk(root, path[..|path| - 1])
      case None => None
      case Some(c) => Step(c, path[|path| - 1])
  }

  /** The walk along `path` reaches a truthy value. */
  predicate Granted(policy: map<string, Json>, path: seq<string>)
  {
    var end := Walk(JObj(policy), path);
    end.Some? && Truthy(end.value)
  }

  /** What `has_permission(key)` answers for a policy. */
  predicate Permitted(policy: map<string, Json>, permissionKey: string)
  {
    Granted(policy, Split(permissionKey, '.'))
  }

  /** Once the walk is stuck it stays stuck. */
  lemma {:induction false} WalkStuck(root: Json, path: seq<string>, i: nat)
    requires i <= |path|
    requires Walk(root, path[..i]) == None
    ensures Walk(root, path) == None
    decreases |path| - i
  {
    if i < |path| {
      assert path[..i + 1][..i] == path[..i];
      WalkStuck(root, path, i + 1);
    } else {
      assert path[..i] == path;
    }
  }

  /** A two-key path walks into the dict at the first key and reads the second. */
  lemma WalkPair(root: map<string, Json>, a: string, b: string)
    ensures Walk(JObj(root), [a, b])
         == if a in root && root[a].JObj? && b in root[a].fields then Some(root[a].fields[b]) else None
  {
    assert [a, b][..1] == [a];
    assert [a][..0] == [];
    assert Walk(JObj(root), [a]) == Step(JObj(root), a);
  }

  /** Splitting a dotted key of two dot-free names gives the two names. */
  lemma SplitPair(a: string, b: string)
    requires '.' !in a && '.' !in b
    ensures Split(a + "." + b, '.') == [a, b]
  {
    var parts := [a, b];
    assert AvoidsChar(parts, '.');
    SplitJoin(parts, '.');
    assert Join(parts, ".") == a + "." + b by {
      assert Join(parts[1..], ".") == b;
    }
  }

  /** The walked path determines the permission key: two different keys
      never split into the same path. */
  lemma PathDeterminesKey(key1: string, key2: string)
    requires Split(key1, '.') == Split(key2, '.')
    ensures key1 == key2
  {
    JoinSplit(key1, '.');
    JoinSplit(key2, '.');
  }

  /** `has_permission("a.b")` walks the path `[a, b]`. */
  lemma PermittedPair(p: map<string, Json>, a: string, b: string)
    requires '.' !in a && '.' !in b
    ensures Permitted(p, a + "." + b) == Granted(p, [a, b])
  {
    SplitPair(a, b);
  }

  /** A two-key path is granted when entry `b` of the dict at `a` is truthy. */
  lemma GrantedPair(p: map<string, Json>, a: string, b: string)
    ensures Granted(p, [a, b])
        <==> a in p && p[a].JObj? && b in p[a].fields && Truthy(p[a].fields[b])
  {
    WalkPair(p, a, b);
  }

  /** The default policy's actions: voting for owners, building management for
      managers, finance for owners, managers and cashiers. */
  lemma DefaultActions(role: LocalRole)
    ensures Granted(DefaultPolicy(role), ["actions", "vote"]) <==> role == Owner
    ensures Granted(DefaultPolicy(role), ["actions", "manage_building"]) <==> role == Manager
    ensures Granted(DefaultPolicy(role), ["actions", "view_finance"])
        <==> role == Owner || role == Manager || role == Cashier
  {
    var p := DefaultPolicy(role);
    GrantedPair(p, "actions", "vote");
    GrantedPair(p, "actions", "manage_building");
    GrantedPair(p, "actions", "view_finance");
  }

  /** The default policy's visibility: building documents for owners and
      managers, the expense summary for owners, managers and cashiers, own
      invoices and announcements for everyone; a non-zero daily announcement
      quota for everyone. */
  lemma DefaultVisibility(role: LocalRole)
    ensures Granted(DefaultPolicy(role), ["visibility", "building_docs"]) <==> role == Owner || role == Manager
    ensures Granted(DefaultPolicy(role), ["visibility", "expenses_summary"])
        <==> role == Owner || role == Manager || role == Cashier
    ensures Granted(DefaultPolicy(role), ["visibility", "own_invoices"])
    ensures Granted(DefaultPolicy(role), ["visibility", "announcements"])
    ensures Granted(DefaultPolicy(role), ["rate_limits", "announcements_per_day"])
    ensures Walk(JObj(DefaultPolicy(role)), ["rate_limits", "announcements_per_day"])
         == Some(JNum(if role == Manager then 5.0 else 1.0))
  {
    var p := DefaultPolicy(role);
    GrantedPair(p, "visibility", "building_docs");
    GrantedPair(p, "visibility", "expenses_summary");
    GrantedPair(p, "visibility", "own_invoices");
    GrantedPair(p, "visibility", "announcements");
    GrantedPair(p, "rate_limits", "announcements_per_day");
    WalkPair(p, "rate_limits", "announcements_per_day");
  }

  // ---------------------------------------------------------------------------
  // Policy merge
  // ---------------------------------------------------------------------------

  /** The value `deep_update` leaves at a key of the update: a recursive merge
      when both sides hold dicts, otherwise the update's value. */
  function MergedEntry(base: map<string, Json>, upd: map<string, Json>, k: string): Json
    requires k in upd
    decreases JObj(upd), 0
  {
    if upd[k].JObj? && k in base && base[k].JObj? then
      JObj(Merge(base[k].fields, upd[k].fields))
    else upd[k]
  }

  /** The dict `deep_update(base, upd)` leaves behind: it keeps every key of
      both sides, leaves the keys the update does not mention unchanged, and
      takes the update's value wherever the two sides do not both hold dicts. */
  function Merge(base: map<string, Json>, upd: map<string, Json>): (r: map<string, Json>)
    ensures r.Keys == base.Keys + upd.Keys
    ensures forall k :: k in base && k !in upd ==> r[k] == base[k]
    ensures forall k :: k in upd && !(upd[k].JObj? && k in base && base[k].JObj?) ==> r[k] == upd[k]
    decreases JObj(upd), 1
  {
    map k | k in base.Keys + upd.Keys :: if k in upd then MergedEntry(base, upd, k) else base[k]
  }

  /** Merging a dict into itself changes nothing. */
  lemma {:induction false} MergeSelf(x: map<string, Json>)
    ensures Merge(x, x) == x
    decreases JObj(x)
  {
    var m := Merge(x, x);
    forall k | k in m ensures k in x && m[k] == x[k] {
      if x[k].JObj? {
        MergeSelf(x[k].fields);
        assert m[k] == MergedEntry(x, x, k) == JObj(x[k].fields);
      }
    }
    forall k | k in x ensures k in m { }
  }

  /** Applying the same update twice is the same as applying it once. */
  lemma {:induction false} MergeIdempotent(base: map<string, Json>, upd: map<string, Json>)
    ensures Merge(Merge(base, upd), upd) == Merge(base, upd)
    decreases JObj(upd)
  {
    var m := Merge(base, upd);
    var mm := Merge(m, upd);
    forall k | k in mm ensures k in m && mm[k] == m[k] {
      if k in upd && upd[k].JObj? {
        if k in base && base[k].JObj? {
          MergeIdempotent(base[k].fields, upd[k].fields);
        } else {
          MergeSelf(upd[k].fields);
        }
      }
    }
    forall k | k in m ensures k in mm { }
  }

  /** The walk along `[k] + rest` is a step into `k`, then the walk along `rest`. */
  lemma {:induction false} WalkCons(root: Json, k: string, rest: seq<string>)
    ensures Walk(root, [k] + rest)
         == match Step(root, k) case None => None case Some(c) => Walk(c, rest)
    decreases |rest|
  {
    var path := [k] + rest;
    if rest == [] {
      assert path[..0] == [];
    } else {
      var init := rest[..|rest| - 1];
      WalkCons(root, k, init);
      assert path[..|path| - 1] == [k] + init;
      if Step(root, k).Some? {
        assert rest[..|rest| - 1] == init;
      } else {
        WalkStuck(root, path, |[k] + init|);
      }
    }
  }

  /** After `update_policy(upd)`, every path that leads to a non-dict value in
      the update leads to that same value in the policy. */
  lemma {:induction false} MergeReaches(base: map<string, Json>, upd: map<string, Json>, path: seq<string>, v: Json)
    requires Walk(JObj(upd), path) == Some(v)
    requires path != [] && !v.JObj?
    ensures Walk(JObj(Merge(base, upd)), path) == Some(v)
    decreases path
  {
    var k, rest := path[0], path[1..];
    assert path == [k] + rest;
    WalkCons(JObj(upd), k, rest);
    WalkCons(JObj(Merge(base, upd)), k, rest);
    if upd[k].JObj? && k in base && base[k].JObj? && rest != [] {
      MergeReaches(base[k].fields, upd[k].fields, rest, v);
    } else if rest != [] {
      assert Merge(base, upd)[k] == upd[k];
    }
  }

  /** `deep_update`: walks the update's entries and writes each into `base`,
      recursing where both sides hold dicts. */
  method DeepUpdate(base: map<string, Json>, upd: map<string, Json>) returns (r: map<string, Json>)
    ensures r == Merge(base, upd)
    decreases JObj(upd)
  {
    r := base;
    var todo := upd;
    while exists k :: k in todo
      invariant MergeProgress(base, upd, todo, r)
      decreases |todo|
    {
      var key :| key in todo;
      var value := todo[key];
      var entry;
      if value.JObj? && key in r && r[key].JObj? {
        var sub := DeepUpdate(r[key].fields, value.fields);
        entry := JObj(sub);
      } else {
        entry := value;
      }
      MergeStep(base, upd, todo, r, key);
      r := r[key := entry];
      todo := todo - {key};
    }
    MergeDone(base, upd, todo, r);
  }

  /** The state of `deep_update`'s loop: the keys already visited hold their
      merged values, the others still hold the base's values, and `todo` is
      the part of the update not yet visited. */
  ghost predicate MergeProgress(base: map<string, Json>, upd: map<string, Json>,
                                todo: map<string, Json>, r: map<string, Json>)
  {
    && (forall k :: k in todo ==> k in upd && todo[k] == upd[k])
    && (forall k :: k in r <==> k in base || (k in upd && k !in todo))
    && (forall k :: k in r ==>
          r[k] == if k in upd && k !in todo then MergedEntry(base, upd, k) else base[k])
  }

  /** Visiting `key` writes its merged value, which the loop computes from the
      current value at `key`: still the base's value. */
  lemma MergeStep(base: map<string, Json>, upd: map<string, Json>,
                  todo: map<string, Json>, r: map<string, Json>, key: string)
    requires MergeProgress(base, upd, todo, r) && key in todo
    ensures key in r <==> key in base
    ensures key in r ==> r[key] == base[key]
    ensures todo[key] == upd[key]
    ensures |todo - {key}| < |todo|
    ensures MergeProgress(base, upd, todo - {key}, r[key := MergedEntry(base, upd, key)])
  {
    assert (todo - {key}).Keys == todo.Keys - {key};
  }

  lemma MergeDone(base: map<string, Json>, upd: map<string, Json>,
                  todo: map<string, Json>, r: map<string, Json>)
    requires MergeProgress(base, upd, todo, r) && !exists k :: k in todo
    ensures r == Merge(base, upd)
  {
    var m := Merge(base, upd);
    forall k | k in r ensures k in m && r[k] == m[k] { }
    forall k | k in m ensures k in r { }
  }

  // ---------------------------------------------------------------------------
  // Memberships
  // ---------------------------------------------------------------------------

  class Membership {
    const id: int
    const userId: int
    const unit: UnitRef
    const role: LocalRole
    const isActive: bool
    const isPrimary: bool
    const since: int
    var policy: map<string, Json>

    /** `Membership(...)`: a missing start date becomes today, and an empty
        policy becomes the role's default policy. */
    constructor (id: int, userId: int, unit: UnitRef, role: LocalRole, isActive: bool, isPrimary: bool,
                 since: Option<int>, policy: map<string, Json>, today: int)
      ensures this.id == id && this.userId == userId && this.unit == unit && this.role == role
      ensures this.isActive == isActive && this.isPrimary == isPrimary
      ensures this.since == OrElse(since, today)
      ensures this.policy == if policy == map[] then DefaultPolicy(role) else policy
    {
      this.id := id;
      this.userId := userId;
      this.unit := unit;
      this.role := role;
      this.isActive := isActive;
      this.isPrimary := isPrimary;
      this.since := OrElse(since, today);
      this.policy := if policy == map[] then DefaultPolicy(role) else policy;
    }

    /** `has_permission`: follows the dotted key through nested dicts and
        answers the truthiness of what it reaches; false as soon as a key is
        missing or a value on the way is not a dict. */
    method HasPermission(permissionKey: string) returns (r: bool)
      ensures r == Permitted(policy, permissionKey)
    {
      var keys := Split(permissionKey, '.');
      var current := JObj(policy);
      for i := 0 to |keys|
        invariant Walk(JObj(policy), keys[..i]) == Some(current)
      {
        assert keys[..i + 1][..i] == keys[..i];
        if current.JObj? && keys[i] in current.fields {
          current := current.fields[keys[i]];
        } else {
          WalkStuck(JObj(policy), keys, i + 1);
          return false;
        }
      }
      assert keys[..|keys|] == keys;
      return Truthy(current);
    }

    /** `update_policy`: merges `updates` into the policy. */
    method UpdatePolicy(updates: map<string, Json>)
      modifies this`policy
      ensures policy == Merge(old(policy), updates)
    {
      policy := DeepUpdate(policy, updates);
    }
  }

  // ---------------------------------------------------------------------------
  // Users
  // ---------------------------------------------------------------------------

  /** The local role a role name stands for in `has_role`. */
  function LocalRoleNamed(name: string): (r: Option<LocalRole>)
    ensures r.Some? ==> LocalRoleValue(r.value) == name
    ensures r.Some? <==> name in ["manager", "owner", "tenant", "occupant"]
  {
    if name == "manager" then Some(Manager)
    else if name == "owner" then Some(Owner)
    else if name == "tenant" then Some(Tenant)
    else if name == "occupant" then Some(Occupant)
    else None
  }

  class User {
    const id: int
    const email: Option<string>
    const phone: Option<string>
    const firstName: Option<string>
    const lastName: Option<string>
    const isSuperuser: bool
    const globalRole: GlobalRole
    const memberships: seq<Membership>
    var loginCount: int
    var lastLogin: Option<int>

    constructor (id: int, email: Option<string>, phone: Option<string>,
                 firstName: Option<string>, lastName: Option<string>,
                 isSuperuser: bool, globalRole: GlobalRole, memberships: seq<Membership>)
      ensures this.id == id && this.email == email && this.phone == phone
      ensures this.firstName == firstName && this.lastName == lastName
      ensures this.isSuperuser == isSuperuser && this.globalRole == globalRole
      ensures this.memberships == memberships
      ensures loginCount == 0 && lastLogin == None
    {
      this.id := id;
      this.email := email;
      this.phone := phone;
      this.firstName := firstName;
      this.lastName := lastName;
      this.isSuperuser := isSuperuser;
      this.globalRole := globalRole;
      this.memberships := memberships;
      loginCount := 0;
      lastLogin := None;
    }

    /** `full_name`: never empty. Both names when both are present, otherwise
        the first present of email and phone, otherwise "User <id>". */
    function FullName(): (s: string)
      ensures s != ""
      ensures Present(firstName) && Present(lastName) ==> s == firstName.value + " " + lastName.value
      ensures !(Present(firstName) && Present(lastName)) && Present(email) ==> s == email.value
      ensures !(Present(firstName) && Present(lastName)) && !Present(email) && Present(phone) ==> s == phone.value
      ensures !(Present(firstName) && Present(lastName)) && !Present(email) && !Present(phone) ==>
                s == "User " + IntToString(id)
    {
      if Present(firstName) && Present(lastName) then firstName.value + " " + lastName.value
      else if Present(email) then email.value
      else if Present(phone) then phone.value
      else "User " + IntToString(id)
    }

    /** Superusers, SUPERADMIN and STAFF pass every building check. */
    predicate Privileged()
    {
      isSuperuser || globalRole == Superadmin || globalRole == Staff
    }

    /** `get_memberships_for_building`: the active memberships in the building, in order. */
    function MembershipsForBuilding(buildingId: int): (ms: seq<Membership>)
      ensures forall m :: m in ms ==> m in memberships && m.unit.buildingId == buildingId && m.isActive
      ensures forall m :: m in memberships && m.unit.buildingId == buildingId && m.isActive ==> m in ms
      ensures |ms| <= |memberships|
    {
      Filter(memberships, buildingId)
    }

    /** `has_role_in_building` */
    predicate HasRoleInBuilding(buildingId: int, role: LocalRole)
      ensures HasRoleInBuilding(buildingId, role) <==>
                exists m :: m in memberships && m.isActive && m.unit.buildingId == buildingId && m.role == role
    {
      exists m :: m in MembershipsForBuilding(buildingId) && m.role == role
    }

    /** `can_access_building` */
    predicate CanAccessBuilding(buildingId: int)
      ensures CanAccessBuilding(buildingId) <==>
                Privileged() || exists m :: m in memberships && m.isActive && m.unit.buildingId == buildingId
    {
      var ms := MembershipsForBuilding(buildingId);
      assert ms != [] ==> ms[0] in ms;
      Privileged() || ms != []
    }

    /** `has_role`: "superadmin" and "admin" ask for the global status; the
        names of MANAGER, OWNER, TENANT and OCCUPANT ask for an active
        membership with that role in any building; every other name, CASHIER
        and GUEST included, is refused. */
    predicate HasRole(role: string)
      ensures role == "superadmin" || role == "admin" ==> (HasRole(role) <==> Privileged())
      ensures role in ["manager", "owner", "tenant", "occupant"] ==>
                (HasRole(role) <==> exists m :: m in memberships && m.isActive && LocalRoleValue(m.role) == role)
      ensures HasRole(role) ==> role in ["superadmin", "admin", "manager", "owner", "tenant", "occupant"]
    {
      if role == "superadmin" || role == "admin" then Privileged()
      else
        match LocalRoleNamed(role)
        case Some(r) => exists m :: m in memberships && m.isActive && m.role == r
        case None => false
    }

    /** `record_login` */
    method RecordLogin(now: int)
      modifies this`loginCount, this`lastLogin
      ensures loginCount == old(loginCount) + 1
      ensures lastLogin == Some(now)
    {
      lastLogin := Some(now);
      loginCount := loginCount + 1;
    }
  }

  /** The active memberships of `ms` in the building, in order. */
  function Filter(ms: seq<Membership>, buildingId: int): (r: seq<Membership>)
    ensures forall m :: m in r ==> m in ms && m.unit.buildingId == buildingId && m.isActive
    ensures forall m :: m in ms && m.unit.buildingId == buildingId && m.isActive ==> m in r
    ensures |r| <= |ms|
  {
    if ms == [] then []
    else
      var rest := Filter(ms[..|ms| - 1], buildingId);
      var m := ms[|ms| - 1];
      assert ms == ms[..|ms| - 1] + [m];
      if m.unit.buildingId == buildingId && m.isActive then rest + [m] else rest
  }

  /** A role in a building gives access to it. */
  lemma RoleGivesAccess(u: User, buildingId: int, role: LocalRole)
    requires u.HasRoleInBuilding(buildingId, role)
    ensures u.CanAccessBuilding(buildingId)
  {
  }
}
