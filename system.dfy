/** Announcements, access tokens and subscriptions (app/models/system.py):
    date-window visibility with audience filters, token validity and zone
    checks, and the plan feature table with usage limits. Today and the
    current instant are parameters. */
module System {
  import opened Common
  import opened Users

  // ---------------------------------------------------------------------------
  // Python's `x in container` on decoded JSON
  // ---------------------------------------------------------------------------

  predicate IsSubstring(x: string, s: string)
  {
    exists i, j :: 0 <= i <= j <= |s| && s[i..j] == x
  }

  /** `x in container`: element equality for a list, key lookup for a dict,
      substring for a string. Containers Python cannot search (numbers,
      booleans, null) and a non-string searched in a string raise TypeError in
      Python; both are modelled as no match. */
  predicate In(x: Json, container: Json)
  {
    match container
    case JList(items) => exists i :: 0 <= i < |items| && PyEq(items[i], x)
    case JObj(fields) => x.JStr? && x.s in fields
    case JStr(s) => x.JStr? && IsSubstring(x.s, s)
    case _ => false
  }

  // ---------------------------------------------------------------------------
  // Announcements
  // ---------------------------------------------------------------------------

  /** The four audience filters and the membership value each one looks at. */
  datatype AudienceFilter = Entrances | Floors | Roles | UnitIds

  function FilterKey(f: AudienceFilter): string
  {
    match f
    case Entrances => "entrances"
    case Floors => "floors"
    case Roles => "roles"
    case UnitIds => "units"
  }

  /** The value of a membership that a filter compares: the unit's entrance
      (or null), the unit's floor (or null), the role's value, the unit id. */
  function FilterValue(f: AudienceFilter, m: Membership): Json
  {
    match f
    case Entrances => if m.unit.entrance.Some? then JStr(m.unit.entrance.value) else JNull
    case Floors => if m.unit.floor.Some? then JNum(m.unit.floor.value as real) else JNull
    case Roles => JStr(LocalRoleValue(m.role))
    case UnitIds => JNum(m.unit.id as real)
  }

  /** The audience every new announcement without one gets: all filters empty. */
  function DefaultAudience(): (a: map<string, Json>)
    ensures forall f: AudienceFilter :: FilterKey(f) in a && !Truthy(a[FilterKey(f)])
  {
    map["entrances" := JList([]), "floors" := JList([]), "roles" := JList([]), "units" := JList([])]
  }

  /** `any(value in container for value in values-of-ms)` */
  function AnyIn(f: AudienceFilter, ms: seq<Membership>, container: Json): (r: bool)
    ensures r <==> exists i :: 0 <= i < |ms| && In(FilterValue(f, ms[i]), container)
  {
    if ms == [] then false
    else In(FilterValue(f, ms[0]), container) || AnyIn(f, ms[1..], container)
  }

  /** Membership `i` of the user is active and in building `b`. */
  predicate ActiveIn(user: User, i: int, b: int)
    requires 0 <= i < |user.memberships|
  {
    user.memberships[i].isActive && user.memberships[i].unit.buildingId == b
  }

  /** Filtering to the active memberships of a building neither loses nor adds
      a matching membership. */
  lemma AnyInFiltered(f: AudienceFilter, user: User, b: int, container: Json)
    ensures AnyIn(f, Filter(user.memberships, b), container) <==>
            exists j :: 0 <= j < |user.memberships| && ActiveIn(user, j, b) &&
                        In(FilterValue(f, user.memberships[j]), container)
  {
    var ms, fs := user.memberships, Filter(user.memberships, b);
    if AnyIn(f, fs, container) {
      var i :| 0 <= i < |fs| && In(FilterValue(f, fs[i]), container);
      assert fs[i] in fs;
      var j :| 0 <= j < |ms| && ms[j] == fs[i];
      assert ActiveIn(user, j, b);
    }
    if exists j :: 0 <= j < |ms| && ActiveIn(user, j, b) && In(FilterValue(f, ms[j]), container) {
      var j :| 0 <= j < |ms| && ActiveIn(user, j, b) && In(FilterValue(f, ms[j]), container);
      assert ms[j] in ms;
      var i :| 0 <= i < |fs| && fs[i] == ms[j];
    }
  }

  class Announcement {
    const id: int
    const buildingId: int
    const authorId: int
    const title: string
    const body: string
    const visibleFrom: Option<int>
    const visibleUntil: Option<int>
    const audience: map<string, Json>
    const isUrgent: bool
    const isPublished: bool
    var viewsCount: int

    /** A missing or empty audience is replaced by the default one. */
    constructor (id: int, buildingId: int, authorId: int, title: string, body: string,
                 visibleFrom: Option<int>, visibleUntil: Option<int>, audience: map<string, Json>,
                 isUrgent: bool, isPublished: bool)
      ensures this.id == id && this.buildingId == buildingId && this.authorId == authorId
      ensures this.title == title && this.body == body
      ensures this.visibleFrom == visibleFrom && this.visibleUntil == visibleUntil
      ensures this.audience == (if audience == map[] then DefaultAudience() else audience)
      ensures this.isUrgent == isUrgent && this.isPublished == isPublished
      ensures viewsCount == 0
    {
      this.id := id;
      this.buildingId := buildingId;
      this.authorId := authorId;
      this.title := title;
      this.body := body;
      this.visibleFrom := visibleFrom;
      this.visibleUntil := visibleUntil;
      this.audience := if audience == map[] then DefaultAudience() else audience;
      this.isUrgent := isUrgent;
      this.isPublished := isPublished;
      viewsCount := 0;
    }

    /** `is_current`: published and today inside the (open-ended where
        missing) date window. */
    function IsCurrent(today: int): (r: bool)
      ensures r ==> isPublished
      ensures visibleFrom.Some? && today < visibleFrom.value ==> !r
      ensures visibleUntil.Some? && today > visibleUntil.value ==> !r
      ensures (isPublished && !(visibleFrom.Some? && today < visibleFrom.value) &&
               !(visibleUntil.Some? && today > visibleUntil.value)) ==> r
    {
      isPublished &&
      (visibleFrom.None? || today >= visibleFrom.value) &&
      (visibleUntil.None? || today <= visibleUntil.value)
    }

    /** A non-empty filter is passed by some active membership of the user in
        this building; an empty filter passes everyone. */
    ghost predicate FilterAdmits(f: AudienceFilter, user: User)
    {
      var c := Get(audience, FilterKey(f));
      !Truthy(c) ||
      exists j :: 0 <= j < |user.memberships| && ActiveIn(user, j, buildingId) &&
                  In(FilterValue(f, user.memberships[j]), c)
    }

    /** The user belongs to this building and passes every audience filter. */
    ghost predicate AudienceAdmits(user: User)
    {
      && (exists j :: 0 <= j < |user.memberships| && ActiveIn(user, j, buildingId))
      && FilterAdmits(Entrances, user)
      && FilterAdmits(Floors, user)
      && FilterAdmits(Roles, user)
      && FilterAdmits(UnitIds, user)
    }

    /** `is_visible_to_user`: current, and either without audience or admitted
        by it. */
    function IsVisibleToUser(user: User, today: int): (r: bool)
      ensures r ==> IsCurrent(today)
      ensures r <==> IsCurrent(today) && (audience == map[] || AudienceAdmits(user))
    {
      if visibleFrom.Some? && today < visibleFrom.value then false
      else if visibleUntil.Some? && today > visibleUntil.value then false
      else if !isPublished then false
      else if audience == map[] then true
      else
        var ms := Filter(user.memberships, buildingId);
        AudienceMatches(user, ms)
    }

    /** The audience part of `is_visible_to_user` on the user's active
        memberships `ms` in this building. */
    function AudienceMatches(user: User, ms: seq<Membership>): (r: bool)
      requires ms == Filter(user.memberships, buildingId)
      ensures r <==> AudienceAdmits(user)
    {
      MembersInBuilding(user, buildingId);
      FilterPassesIff(Entrances, user);
      FilterPassesIff(Floors, user);
      FilterPassesIff(Roles, user);
      FilterPassesIff(UnitIds, user);
      if ms == [] then false
      else
        && FilterPasses(Entrances, ms)
        && FilterPasses(Floors, ms)
        && FilterPasses(Roles, ms)
        && FilterPasses(UnitIds, ms)
    }

    /** One audience filter: an empty one passes; a non-empty one needs a
        membership value among its entries. */
    function FilterPasses(f: AudienceFilter, ms: seq<Membership>): bool
    {
      var c := Get(audience, FilterKey(f));
      !Truthy(c) || AnyIn(f, ms, c)
    }

    lemma FilterPassesIff(f: AudienceFilter, user: User)
      ensures FilterPasses(f, Filter(user.memberships, buildingId)) <==> FilterAdmits(f, user)
    {
      AnyInFiltered(f, user, buildingId, Get(audience, FilterKey(f)));
    }

    /** `increment_views` */
    method IncrementViews()
      modifies this`viewsCount
      ensures viewsCount == old(viewsCount) + 1
    {
      viewsCount := viewsCount + 1;
    }
  }

  lemma MembersInBuilding(user: User, b: int)
    ensures Filter(user.memberships, b) != [] <==>
            exists j :: 0 <= j < |user.memberships| && ActiveIn(user, j, b)
  {
    var ms, fs := user.memberships, Filter(user.memberships, b);
    if fs != [] {
      assert fs[0] in fs;
      var j :| 0 <= j < |ms| && ms[j] == fs[0];
      assert ActiveIn(user, j, b);
    }
    if exists j :: 0 <= j < |ms| && ActiveIn(user, j, b) {
      var j :| 0 <= j < |ms| && ActiveIn(user, j, b);
      assert ms[j] in ms;
      assert ms[j] in fs;
    }
  }

  /** The visibility window has no holes: an announcement current on two days
      is current on every day between them. */
  lemma CurrentBetween(a: Announcement, d1: int, d: int, d2: int)
    requires d1 <= d <= d2
    requires a.IsCurrent(d1) && a.IsCurrent(d2)
    ensures a.IsCurrent(d)
  {
  }

  // ---------------------------------------------------------------------------
  // Access tokens
  // ---------------------------------------------------------------------------

  datatype TokenType = Rfid | Nfc | Ble | Qr | Mobile
  datatype AccessResult = Granted | Denied | Error

  /** One access attempt as logged. */
  datatype AccessLog = AccessLog(tokenId: int, zone: string, result: AccessResult, at: int)

  /** The permissions every new token without any gets. */
  function DefaultPermissions(): (p: map<string, Json>)
    ensures Get(p, "time_windows") == JList([]) && Get(p, "guest_access") == JBool(false)
  {
    map["time_windows" := JList([]), "max_uses_per_day" := JNull, "guest_access" := JBool(false)]
  }

  class AccessToken {
    const id: int
    const userId: int
    const buildingId: int
    const tokenType: TokenType
    const token: string
    const validFrom: Option<int>
    const validUntil: Option<int>
    const zones: Json
    const permissions: map<string, Json>
    const enabled: bool
    var lastUsedAt: Option<int>
    var usageCount: int
    var accessLogs: seq<AccessLog>

    /** Missing or empty zones default to the main entrance; missing or empty
        permissions to the default permissions. */
    constructor (id: int, userId: int, buildingId: int, tokenType: TokenType, token: string,
                 validFrom: Option<int>, validUntil: Option<int>, zones: Json,
                 permissions: map<string, Json>, enabled: bool)
      ensures this.id == id && this.userId == userId && this.buildingId == buildingId
      ensures this.tokenType == tokenType && this.token == token
      ensures this.validFrom == validFrom && this.validUntil == validUntil
      ensures this.zones == (if Truthy(zones) then zones else JList([JStr("main_entrance")]))
      ensures this.permissions == (if permissions == map[] then DefaultPermissions() else permissions)
      ensures this.enabled == enabled
      ensures lastUsedAt == None && usageCount == 0 && accessLogs == []
    {
      this.id := id;
      this.userId := userId;
      this.buildingId := buildingId;
      this.tokenType := tokenType;
      this.token := token;
      this.validFrom := validFrom;
      this.validUntil := validUntil;
      this.zones := if Truthy(zones) then zones else JList([JStr("main_entrance")]);
      this.permissions := if permissions == map[] then DefaultPermissions() else permissions;
      this.enabled := enabled;
      lastUsedAt := None;
      usageCount := 0;
      accessLogs := [];
    }

    /** `is_valid` at instant `now`: enabled and inside the validity period,
        a missing bound leaving that side open. */
    function IsValid(now: int): (r: bool)
      ensures r <==> enabled && (validFrom.None? || validFrom.value <= now) &&
                     (validUntil.None? || now <= validUntil.value)
      ensures !enabled ==> !r
    {
      if !enabled then false
      else if validFrom.Some? && now < validFrom.value then false
      else if validUntil.Some? && now > validUntil.value then false
      else true
    }

    /** `can_access_zone`: a valid token listing the zone; time windows are
        not checked, so the requested time of access `atTime` plays no part
        (no clause below mentions it). */
    function CanAccessZone(zone: string, now: int, atTime: Option<int>): (r: bool)
      ensures r ==> IsValid(now)
      ensures r ==> In(JStr(zone), zones)
      ensures IsValid(now) && In(JStr(zone), zones) ==> r
    {
      if !IsValid(now) then false
      else if !In(JStr(zone), zones) then false
      else true
    }

    /** `record_usage`: one more use at `now`, and one log of it. */
    method RecordUsage(zone: string, result: AccessResult, now: int)
      modifies this`lastUsedAt, this`usageCount, this`accessLogs
      ensures lastUsedAt == Some(now)
      ensures usageCount == old(usageCount) + 1
      ensures accessLogs == old(accessLogs) + [AccessLog(id, zone, result, now)]
    {
      lastUsedAt := Some(now);
      usageCount := usageCount + 1;
      var log := AccessLog(id, zone, result, now);
      accessLogs := accessLogs + [log];
    }
  }

  // ---------------------------------------------------------------------------
  // Subscriptions
  // ---------------------------------------------------------------------------

  datatype Plan = Free | Standard | Pro | Enterprise
  datatype SubscriptionStatus = Active | Expired | Suspended | Cancelled

  function FeatureList(names: seq<string>): Json
  {
    JList(seq(|names|, i requires 0 <= i < |names| => JStr(names[i])))
  }

  /** The limits of one plan, keyed as the code keys them. */
  function PlanLimits(users: int, units: int, announcements: int, storage: int, apiCalls: int,
                      features: seq<string>): map<string, Json>
  {
    map["max_users" := JNum(users as real),
        "max_units" := JNum(units as real),
        "max_announcements_per_month" := JNum(announcements as real),
        "storage_mb" := JNum(storage as real),
        "api_calls_per_day" := JNum(apiCalls as real),
        "features" := FeatureList(features)]
  }

  /** The feature table; a subscription without a plan gets the FREE limits. */
  function FeatureLimits(plan: Option<Plan>): (limits: map<string, Json>)
    ensures "features" in limits && limits["features"].JList?
  {
    match OrElse(plan, Free)
    case Free =>
      PlanLimits(10, 20, 5, 100, 100, ["basic_management", "announcements"])
    case Standard =>
      PlanLimits(100, 200, 50, 1000, 1000, ["basic_management", "announcements", "finance", "voting"])
    case Pro =>
      PlanLimits(500, 1000, 200, 5000, 10000, ["all_features", "iot_integration", "access_control"])
    case Enterprise =>
      PlanLimits(-1, -1, -1, 50000, 100000, ["all_features", "custom_integrations", "dedicated_support"])
  }

  /** `a < b` in Python: numbers and booleans compare by value; anything
      else raises TypeError. */
  function PyLess(a: Json, b: Json): (r: Result<bool>)
    ensures r.Ok? <==> NumericValue(a).Some? && NumericValue(b).Some?
    ensures r.Ok? ==> r.value == (NumericValue(a).value < NumericValue(b).value)
  {
    match (NumericValue(a), NumericValue(b))
    case (Some(x), Some(y)) => Ok(x < y)
    case _ => Err("TypeError")
  }

  /** The usage counters every new subscription without any gets. */
  function DefaultUsageStats(): (s: map<string, Json>)
    ensures Get(s, "monthly_active_users") == JNum(0.0) && Get(s, "storage_used_mb") == JNum(0.0)
  {
    map["monthly_active_users" := JNum(0.0), "storage_used_mb" := JNum(0.0)]
  }

  function DefaultFeaturesUsed(): (f: map<string, Json>)
    ensures Get(f, "users_count") == JNum(0.0) && Get(f, "announcements_count") == JNum(0.0)
    ensures Get(f, "api_calls_count") == JNum(0.0)
  {
    map["users_count" := JNum(0.0), "announcements_count" := JNum(0.0), "api_calls_count" := JNum(0.0)]
  }

  class Subscription {
    const id: int
    const buildingId: int
    const plan: Option<Plan>
    const status: SubscriptionStatus
    const validFrom: Option<int>
    const validUntil: Option<int>
    var featuresUsed: map<string, Json>
    var usageStats: map<string, Json>

    constructor (id: int, buildingId: int, plan: Option<Plan>, status: SubscriptionStatus,
                 validFrom: Option<int>, validUntil: Option<int>,
                 featuresUsed: map<string, Json>, usageStats: map<string, Json>)
      ensures this.id == id && this.buildingId == buildingId && this.plan == plan
      ensures this.status == status && this.validFrom == validFrom && this.validUntil == validUntil
      ensures this.featuresUsed == (if featuresUsed == map[] then DefaultFeaturesUsed() else featuresUsed)
      ensures this.usageStats == (if usageStats == map[] then DefaultUsageStats() else usageStats)
    {
      this.id := id;
      this.buildingId := buildingId;
      this.plan := plan;
      this.status := status;
      this.validFrom := validFrom;
      this.validUntil := validUntil;
      this.featuresUsed := if featuresUsed == map[] then DefaultFeaturesUsed() else featuresUsed;
      this.usageStats := if usageStats == map[] then DefaultUsageStats() else usageStats;
    }

    /** `is_active`: status ACTIVE and today no later than the end date, if any. */
    function IsActive(today: int): (r: bool)
      ensures r <==> status == Active && (validUntil.None? || today <= validUntil.value)
      ensures status != Active ==> !r
    {
      if status != Active then false
      else if validUntil.Some? then today <= validUntil.value
      else true
    }

    /** `get_feature_limits` */
    function Limits(): (limits: map<string, Json>)
      ensures plan.None? ==> limits == FeatureLimits(Some(Free))
      ensures "features" in limits
    {
      FeatureLimits(plan)
    }

    /** `can_use_feature`: an active subscription whose plan lists the feature
        or 'all_features'. */
    function CanUseFeature(feature: string, today: int): (r: bool)
      ensures !IsActive(today) ==> !r
      ensures r <==> IsActive(today) &&
                     (In(JStr("all_features"), Limits()["features"]) || In(JStr(feature), Limits()["features"]))
    {
      if !IsActive(today) then false
      else
        var allowed := if "features" in Limits() then Limits()["features"] else JList([]);
        In(JStr("all_features"), allowed) || In(JStr(feature), allowed)
    }

    /** `check_usage_limit`: false when inactive, true for an unlimited (-1)
        limit, otherwise whether the current value (given, or read from the
        usage counters, 0 when absent) is below the limit; comparing with a
        missing or non-numeric limit raises TypeError. */
    function CheckUsageLimit(limitType: string, currentValue: Option<Json>, today: int): (r: Result<bool>)
      ensures !IsActive(today) ==> r == Ok(false)
      ensures IsActive(today) && PyEq(Get(Limits(), limitType), JNum(-1.0)) ==> r == Ok(true)
      ensures IsActive(today) && !PyEq(Get(Limits(), limitType), JNum(-1.0)) &&
              (currentValue.None? || currentValue == Some(JNull)) ==>
                r == PyLess(if limitType in usageStats then usageStats[limitType] else JNum(0.0),
                            Get(Limits(), limitType))
      ensures IsActive(today) && !PyEq(Get(Limits(), limitType), JNum(-1.0)) &&
              currentValue.Some? && currentValue != Some(JNull) ==>
                r == PyLess(currentValue.value, Get(Limits(), limitType))
      reads this
    {
      if !IsActive(today) then Ok(false)
      else
        var maxValue := Get(Limits(), limitType);
        if PyEq(maxValue, JNum(-1.0)) then Ok(true)
        else
          var stored := if limitType in usageStats then usageStats[limitType] else JNum(0.0);
          var current := if currentValue.None? || currentValue.value.JNull? then stored else currentValue.value;
          PyLess(current, maxValue)
    }

    /** `update_usage`: adds the increment to the named counter (a missing
        counter counts 0) and leaves every other counter alone; a non-numeric
        counter raises TypeError, modelled as `ok == false` with nothing
        changed. */
    method UpdateUsage(usageType: string, increment: real) returns (ok: bool)
      modifies this`usageStats
      ensures ok <==> usageType !in old(usageStats) || NumericValue(old(usageStats)[usageType]).Some?
      ensures ok ==> usageStats == old(usageStats)[usageType :=
                JNum(OrElse(NumericValue(Get(old(usageStats), usageType)), 0.0) + increment)]
      ensures !ok ==> usageStats == old(usageStats)
      ensures forall k :: k in old(usageStats) && k != usageType ==> k in usageStats && usageStats[k] == old(usageStats)[k]
    {
      var current := if usageType in usageStats then usageStats[usageType] else JNum(0.0);
      match NumericValue(current)
      case Some(n) =>
        usageStats := usageStats[usageType := JNum(n + increment)];
        return true;
      case None =>
        return false;
    }
  }

  /** What each plan unlocks: FREE exactly the basic management and
      announcements, STANDARD also finance and voting, PRO and ENTERPRISE
      everything. */
  lemma PlanFeatures(s: Subscription, feature: string, today: int)
    requires s.IsActive(today)
    ensures OrElse(s.plan, Free) == Free ==>
              (s.CanUseFeature(feature, today) <==> feature == "basic_management" || feature == "announcements")
    ensures OrElse(s.plan, Free) == Standard ==>
              (s.CanUseFeature(feature, today) <==>
                 feature == "basic_management" || feature == "announcements" || feature == "finance" || feature == "voting")
    ensures OrElse(s.plan, Free) in {Pro, Enterprise} ==> s.CanUseFeature(feature, today)
  {
    var names := match OrElse(s.plan, Free)
      case Free => ["basic_management", "announcements"]
      case Standard => ["basic_management", "announcements", "finance", "voting"]
      case Pro => ["all_features", "iot_integration", "access_control"]
      case Enterprise => ["all_features", "custom_integrations", "dedicated_support"];
    assert s.Limits()["features"] == FeatureList(names);
    InFeatureList("all_features", names);
    InFeatureList(feature, names);
  }

  /** A feature is in the stored list exactly when its name is listed. */
  lemma InFeatureList(x: string, names: seq<string>)
    ensures In(JStr(x), FeatureList(names)) <==> x in names
  {
    var items := FeatureList(names).items;
    if x in names {
      var i :| 0 <= i < |names| && names[i] == x;
      assert PyEq(items[i], JStr(x));
    }
    if In(JStr(x), FeatureList(names)) {
      var i :| 0 <= i < |items| && PyEq(items[i], JStr(x));
      assert names[i] == x;
    }
  }

  /** Passing `None` explicitly is the same as leaving the current value
      out: both read the stored usage counter. */
  lemma ExplicitNoneReadsUsage(s: Subscription, limitType: string, today: int)
    ensures s.CheckUsageLimit(limitType, Some(JNull), today) == s.CheckUsageLimit(limitType, None, today)
  {
  }

  /** An ENTERPRISE subscription that is active is never limited in users,
      units or announcements, whatever the current value. */
  lemma EnterpriseUnlimited(s: Subscription, limitType: string, current: Option<Json>, today: int)
    requires s.plan == Some(Enterprise) && s.IsActive(today)
    requires limitType in {"max_users", "max_units", "max_announcements_per_month"}
    ensures s.CheckUsageLimit(limitType, current, today) == Ok(true)
  {
    assert Get(s.Limits(), limitType) == JNum(-1.0);
  }
}
