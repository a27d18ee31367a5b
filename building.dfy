/** Buildings and their units (app/models/building.py): the entrance list, the
    bank accounts, address and unit-number formatting, shares, and the
    primary contact of a unit. */
module Buildings {
  import opened Common
  import opened Users

  // ---------------------------------------------------------------------------
  // Addresses
  // ---------------------------------------------------------------------------

  /** The house number of an address as stored: a JSON number or a string. */
  datatype HouseNumber = NumInt(i: int) | NumText(t: string)

  /** Python truthiness of the stored house number. */
  predicate NumberPresent(n: Option<HouseNumber>)
  {
    match n
    case None => false
    case Some(NumInt(i)) => i != 0
    case Some(NumText(t)) => t != ""
  }

  /** `str(number)` */
  function NumberText(n: HouseNumber): string
  {
    match n
    case NumInt(i) => IntToString(i)
    case NumText(t) => t
  }

  /** The address keys `full_address` reads; a missing address has none of them. */
  datatype Address = Address(street: Option<string>, number: Option<HouseNumber>, city: Option<string>)

  /** The parts `full_address` collects, in order: street, number, city, each
      only when present. */
  function AddressParts(a: Address): (parts: seq<string>)
    ensures forall i :: 0 <= i < |parts| ==> parts[i] != ""
    ensures |parts| == (if Present(a.street) then 1 else 0) + (if NumberPresent(a.number) then 1 else 0)
                       + (if Present(a.city) then 1 else 0)
    ensures Present(a.street) ==> parts[0] == a.street.value
    ensures NumberPresent(a.number) ==> parts[if Present(a.street) then 1 else 0] == NumberText(a.number.value)
    ensures Present(a.city) ==> parts[|parts| - 1] == a.city.value
  {
    (if Present(a.street) then [a.street.value] else [])
    + (if NumberPresent(a.number) then [NumberText(a.number.value)] else [])
    + (if Present(a.city) then [a.city.value] else [])
  }

  /** A join starts with its first part and ends with its last. */
  lemma {:induction false} JoinEnds(parts: seq<string>, sep: string)
    requires |parts| > 0
    ensures Join(parts, sep)[..|parts[0]|] == parts[0]
    ensures |Join(parts, sep)| >= |parts[|parts| - 1]|
    ensures Join(parts, sep)[|Join(parts, sep)| - |parts[|parts| - 1]|..] == parts[|parts| - 1]
  {
    if |parts| > 1 {
      JoinEnds(parts[1..], sep);
      var rest := Join(parts[1..], sep);
      assert Join(parts, sep) == parts[0] + sep + rest;
      assert parts[1..][|parts[1..]| - 1] == parts[|parts| - 1];
    }
  }

  /** A join of non-empty parts is empty only when there are no parts. */
  lemma {:induction false} JoinEmpty(parts: seq<string>, sep: string)
    requires forall i :: 0 <= i < |parts| ==> parts[i] != ""
    ensures Join(parts, sep) == "" <==> |parts| == 0
  {
    if |parts| > 1 {
      assert Join(parts, sep) == parts[0] + sep + Join(parts[1..], sep);
      assert |Join(parts, sep)| >= |parts[0]| > 0;
    }
  }

  /** `full_address`: the present parts joined with ", "; empty when none is
      present; starting with the street and ending with the city when those are
      present. */
  function FullAddress(a: Address): (s: string)
    ensures s == Join(AddressParts(a), ", ")
    ensures s == "" <==> !Present(a.street) && !NumberPresent(a.number) && !Present(a.city)
    ensures Present(a.street) ==> |s| >= |a.street.value| && s[..|a.street.value|] == a.street.value
    ensures Present(a.city) ==> |s| >= |a.city.value| && s[|s| - |a.city.value|..] == a.city.value
  {
    var parts := AddressParts(a);
    JoinEmpty(parts, ", ");
    if parts != [] then JoinEnds(parts, ", "); Join(parts, ", ") else Join(parts, ", ")
  }

  /** The pieces a ", "-joined text falls into when split at ",": the first
      part as it is, every later part behind the space of its separator. */
  function Spaced(parts: seq<string>): (pieces: seq<string>)
    requires |parts| >= 1
    ensures |pieces| == |parts| && pieces[0] == parts[0]
    ensures forall i :: 1 <= i < |parts| ==> pieces[i] == " " + parts[i]
  {
    [parts[0]] + Prefixed(parts[1..])
  }

  /** Every part behind a space. */
  function Prefixed(parts: seq<string>): (pieces: seq<string>)
    ensures |pieces| == |parts|
    ensures forall i :: 0 <= i < |parts| ==> pieces[i] == " " + parts[i]
  {
    seq(|parts|, i requires 0 <= i < |parts| => " " + parts[i])
  }

  lemma {:induction false} CommaSpaceJoin(parts: seq<string>)
    requires |parts| >= 1
    ensures ", " + Join(parts, ", ") == "," + Join(Prefixed(parts), ",")
  {
    if |parts| > 1 {
      CommaSpaceJoin(parts[1..]);
      var ps := Prefixed(parts);
      var p0, j1, jp1 := parts[0], Join(parts[1..], ", "), Join(Prefixed(parts[1..]), ",");
      assert ps[1..] == Prefixed(parts[1..]);
      assert Join(ps, ",") == (" " + p0) + "," + jp1;
      calc {
        ", " + Join(parts, ", ");
        ", " + (p0 + ", " + j1);
        (", " + p0) + (", " + j1);
        (", " + p0) + ("," + jp1);
        "," + ((" " + p0) + "," + jp1);
      }
    }
  }

  /** Joining with ", " is joining the spaced pieces with ",". */
  lemma JoinSpaced(parts: seq<string>)
    requires |parts| >= 1
    ensures Join(parts, ", ") == Join(Spaced(parts), ",")
  {
    if |parts| > 1 {
      var p0, rest := parts[0], parts[1..];
      CommaSpaceJoin(rest);
      var pieces, sp := Prefixed(rest), Spaced(parts);
      var j1, jp1 := Join(rest, ", "), Join(pieces, ",");
      assert sp == [p0] + pieces;
      assert |sp| > 1 && sp[1..] == pieces;
      assert Join(sp, ",") == p0 + "," + jp1;
      assert Join(parts, ", ") == p0 + ", " + j1;
      ConcatAssoc(p0, ", ", j1);
      ConcatAssoc(p0, ",", jp1);
    } else {
      assert Spaced(parts) == [parts[0]];
    }
  }

  lemma ConcatAssoc(a: string, b: string, c: string)
    ensures a + b + c == a + (b + c)
  {
  }

  /** A ", "-join of comma-free parts can be taken apart again: splitting it at
      "," gives the parts back, each later one behind its space. */
  lemma JoinedPartsSplit(parts: seq<string>)
    requires |parts| >= 1 && AvoidsChar(parts, ',')
    ensures Split(Join(parts, ", "), ',') == Spaced(parts)
  {
    JoinSpaced(parts);
    var sp := Spaced(parts);
    forall i | 0 <= i < |sp| ensures ',' !in sp[i] {
      if i > 0 {
        assert sp[i] == [' '] + parts[i];
      }
    }
    SplitJoin(sp, ',');
  }

  /** An address whose parts hold no comma is recovered from its text. */
  lemma FullAddressSplits(a: Address)
    requires AvoidsChar(AddressParts(a), ',')
    ensures AddressParts(a) != [] ==> Split(FullAddress(a), ',') == Spaced(AddressParts(a))
  {
    if AddressParts(a) != [] {
      JoinedPartsSplit(AddressParts(a));
    }
  }

  // ---------------------------------------------------------------------------
  // Buildings
  // ---------------------------------------------------------------------------

  /** One entry of `bank_accounts`. */
  datatype BankAccount = BankAccount(iban: string, bankName: string, accountHolder: string, isPrimary: bool)

  /** Exactly the first account is the primary one. */
  predicate PrimaryFirst(accounts: seq<BankAccount>)
  {
    forall i :: 0 <= i < |accounts| ==> (accounts[i].isPrimary <==> i == 0)
  }

  predicate NoDuplicates(xs: seq<string>)
  {
    forall i, j :: 0 <= i < j < |xs| ==> xs[i] != xs[j]
  }

  /** `[e for e in entrances if e != name]` */
  function Without(xs: seq<string>, name: string): (r: seq<string>)
    ensures forall e :: e in r <==> e in xs && e != name
    ensures |r| <= |xs|
    ensures name !in xs ==> r == xs
    ensures multiset(r) == multiset(xs)[name := 0]
  {
    if xs == [] then []
    else
      var rest := Without(xs[..|xs| - 1], name);
      var e := xs[|xs| - 1];
      assert xs == xs[..|xs| - 1] + [e];
      assert multiset(xs) == multiset(xs[..|xs| - 1]) + multiset{e};
      if e != name then rest + [e] else rest
  }

  /** Removing a name keeps the remaining entrances in their order: `Without`
      is a subsequence of the list it comes from. */
  lemma {:induction false} WithoutKeepsOrder(xs: seq<string>, name: string)
    ensures exists f :: IndexMap(f, Without(xs, name), xs)
  {
    if xs != [] {
      var init, e := xs[..|xs| - 1], xs[|xs| - 1];
      WithoutKeepsOrder(init, name);
      var sub := Without(init, name);
      var f :| IndexMap(f, sub, init);
      assert xs == init + [e];
      if e != name {
        var g := f + [|xs| - 1];
        assert Without(xs, name) == sub + [e];
        IndexMapAppend(f, sub, init, e);
      } else {
        assert Without(xs, name) == sub;
        IndexMapExtend(f, sub, init, e);
      }
    } else {
      assert IndexMap([], Without(xs, name), xs);
    }
  }

  lemma IndexMapAppend(f: seq<int>, sub: seq<string>, xs: seq<string>, e: string)
    requires IndexMap(f, sub, xs)
    ensures IndexMap(f + [|xs|], sub + [e], xs + [e])
  {
    var g, s2, x2 := f + [|xs|], sub + [e], xs + [e];
    forall i | 0 <= i < |g| ensures 0 <= g[i] < |x2| && x2[g[i]] == s2[i] {
      if i < |f| { assert g[i] == f[i] && s2[i] == sub[i] && x2[f[i]] == xs[f[i]]; }
    }
  }

  lemma IndexMapExtend(f: seq<int>, sub: seq<string>, xs: seq<string>, e: string)
    requires IndexMap(f, sub, xs)
    ensures IndexMap(f, sub, xs + [e])
  {
    forall i | 0 <= i < |f| ensures (xs + [e])[f[i]] == sub[i] {
      assert (xs + [e])[f[i]] == xs[f[i]];
    }
  }

  /** `f` embeds `sub` into `xs` in order: strictly increasing positions that
      hold the same values. */
  ghost predicate IndexMap(f: seq<int>, sub: seq<string>, xs: seq<string>)
  {
    && |f| == |sub|
    && (forall i :: 0 <= i < |f| ==> 0 <= f[i] < |xs| && xs[f[i]] == sub[i])
    && (forall i, j :: 0 <= i < j < |f| ==> f[i] < f[j])
  }

  class Building {
    const id: int
    const address: Address
    var units: seq<Unit>
    var entrances: seq<string>
    var bankAccounts: seq<BankAccount>

    /** A new building has no units yet; each unit created for it adds itself.
        The entrances and bank accounts passed in are kept. */
    constructor (id: int, address: Address, entrances: seq<string>, bankAccounts: seq<BankAccount>)
      ensures this.id == id && this.address == address && units == []
      ensures this.entrances == entrances && this.bankAccounts == bankAccounts
      ensures UnitsLinked()
    {
      this.id := id;
      this.address := address;
      units := [];
      this.entrances := entrances;
      this.bankAccounts := bankAccounts;
    }

    /** Both sides of the `units`/`building` relationship agree: every unit
        listed here points back to this building. */
    predicate UnitsLinked()
      reads this
    {
      forall i :: 0 <= i < |units| ==> units[i].building == this
    }

    /** `get_units_by_entrance` */
    function UnitsInEntrance(name: string): (us: seq<Unit>)
      reads this
      ensures forall u :: u in us ==> u in units && u.entrance == Some(name)
      ensures forall u :: u in units && u.entrance == Some(name) ==> u in us
    {
      UnitsWithEntrance(units, name)
    }

    /** `add_entrance`: appends the name unless it is already listed. */
    method AddEntrance(name: string)
      modifies this`entrances
      ensures name in old(entrances) ==> entrances == old(entrances)
      ensures name !in old(entrances) ==> entrances == old(entrances) + [name]
      ensures name in entrances
      ensures NoDuplicates(old(entrances)) ==> NoDuplicates(entrances)
    {
      if name !in entrances {
        entrances := entrances + [name];
      }
    }

    /** `remove_entrance`: removes the name only when it is listed and no unit
        is in that entrance. */
    method RemoveEntrance(name: string) returns (removed: bool)
      modifies this`entrances
      ensures removed <==> name in old(entrances) && UnitsInEntrance(name) == []
      ensures removed ==> entrances == Without(old(entrances), name)
      ensures !removed ==> entrances == old(entrances)
      ensures removed ==> name !in entrances
    {
      var unitsInEntrance := UnitsInEntrance(name);
      if unitsInEntrance == [] && name in entrances {
        entrances := Without(entrances, name);
        return true;
      }
      return false;
    }

    /** `add_bank_account`: appends one account, primary exactly when it is the
        first. */
    method AddBankAccount(iban: string, bankName: string, accountHolder: string)
      modifies this`bankAccounts
      ensures bankAccounts == old(bankAccounts) + [BankAccount(iban, bankName, accountHolder, |old(bankAccounts)| == 0)]
      ensures PrimaryFirst(old(bankAccounts)) ==> PrimaryFirst(bankAccounts)
    {
      var account := BankAccount(iban, bankName, accountHolder, |bankAccounts| == 0);
      bankAccounts := bankAccounts + [account];
    }

    /** `get_total_shares`: every unit counts, active or not; missing shares
        count zero. With non-negative shares the total is non-negative and at
        least each unit's shares. */
    function TotalShares(): (t: real)
      reads this
      ensures SharesNonNegative(units) ==> t >= 0.0
      ensures SharesNonNegative(units) ==>
                forall i :: 0 <= i < |units| ==> OrElse(units[i].shares, 0.0) <= t
    {
      if SharesNonNegative(units) then
        SumSharesNonNegative(units);
        SharesBelowTotalAll(units);
        SumShares(units)
      else SumShares(units)
    }

    /** `floors_count`: collects the floors of the units that have one and
        counts the distinct ones. */
    method FloorsCount() returns (n: nat)
      ensures n == |Floors(units)|
    {
      var floors: set<int> := {};
      for i := 0 to |units|
        invariant floors == Floors(units[..i])
      {
        FloorsAppend(units[..i], units[i]);
        assert units[..i + 1] == units[..i] + [units[i]];
        if units[i].floor.Some? {
          floors := floors + {units[i].floor.value};
        }
      }
      assert units[..|units|] == units;
      return |floors|;
    }
  }

  /** The distinct floors among the units that have a floor. */
  function Floors(us: seq<Unit>): (fs: set<int>)
    ensures forall f :: f in fs <==> exists i :: 0 <= i < |us| && us[i].floor == Some(f)
  {
    set i | 0 <= i < |us| && us[i].floor.Some? :: us[i].floor.value
  }

  lemma FloorsAppend(us: seq<Unit>, u: Unit)
    ensures Floors(us + [u]) == Floors(us) + (if u.floor.Some? then {u.floor.value} else {})
  {
    var l, r := Floors(us + [u]), Floors(us) + (if u.floor.Some? then {u.floor.value} else {});
    forall f | f in l ensures f in r {
      var i :| 0 <= i < |us + [u]| && (us + [u])[i].floor == Some(f);
      if i < |us| {
        assert us[i].floor == Some(f);
      }
    }
    forall f | f in r ensures f in l {
      if f in Floors(us) {
        var i :| 0 <= i < |us| && us[i].floor == Some(f);
        assert (us + [u])[i] == us[i];
      } else {
        assert (us + [u])[|us|] == u;
      }
    }
  }

  /** The units of `us` in the entrance `name`, in order. */
  function UnitsWithEntrance(us: seq<Unit>, name: string): (r: seq<Unit>)
    ensures forall u :: u in r ==> u in us && u.entrance == Some(name)
    ensures forall u :: u in us && u.entrance == Some(name) ==> u in r
  {
    if us == [] then []
    else
      var rest := UnitsWithEntrance(us[..|us| - 1], name);
      var u := us[|us| - 1];
      assert us == us[..|us| - 1] + [u];
      if u.entrance == Some(name) then rest + [u] else rest
  }

  /** `sum(unit.shares or 0 for unit in units)` */
  function SumShares(us: seq<Unit>): real
  {
    if us == [] then 0.0 else SumShares(us[..|us| - 1]) + OrElse(us[|us| - 1].shares, 0.0)
  }

  // ---------------------------------------------------------------------------
  // Units
  // ---------------------------------------------------------------------------

  class Unit {
    const id: int
    const building: Building?
    const entrance: Option<string>
    const floor: Option<int>
    const number: string
    const shares: Option<real>
    const isActive: bool
    const memberships: seq<Membership>
    var occupancyCount: int

    /** A unit created for a building joins that building's unit list (the
        relationship is kept on both sides). */
    constructor (id: int, building: Building?, entrance: Option<string>, floor: Option<int>,
                 number: string, shares: Option<real>, isActive: bool, memberships: seq<Membership>)
      modifies building
      ensures this.id == id && this.building == building && this.entrance == entrance
      ensures this.floor == floor && this.number == number && this.shares == shares
      ensures this.isActive == isActive && this.memberships == memberships
      ensures occupancyCount == 0
      ensures building != null ==> building.units == old(building.units) + [this]
      ensures building != null ==> building.entrances == old(building.entrances)
      ensures building != null ==> building.bankAccounts == old(building.bankAccounts)
      ensures building != null && old(building.UnitsLinked()) ==> building.UnitsLinked()
    {
      this.id := id;
      this.building := building;
      this.entrance := entrance;
      this.floor := floor;
      this.number := number;
      this.shares := shares;
      this.isActive := isActive;
      this.memberships := memberships;
      occupancyCount := 0;
      new;
      if building != null {
        building.units := building.units + [this];
      }
    }

    /** The parts `full_number` collects: the entrance when present, the floor
        whenever it is set (floor 0 included), and always the number. */
    function NumberParts(): (parts: seq<string>)
      ensures |parts| >= 1 && parts[|parts| - 1] == "Ап. " + number
      ensures Present(entrance) ==> parts[0] == "Вх. " + entrance.value
      ensures |parts| == 1 + (if Present(entrance) then 1 else 0) + (if floor.Some? then 1 else 0)
      ensures floor.Some? ==> parts[if Present(entrance) then 1 else 0] == "Ет. " + IntToString(floor.value)
    {
      (if Present(entrance) then ["Вх. " + entrance.value] else [])
      + (if floor.Some? then ["Ет. " + IntToString(floor.value)] else [])
      + ["Ап. " + number]
    }

    /** `full_number`: the parts joined with ", "; it ends with the apartment
        part, and starts with the entrance part when there is an entrance, else
        with the floor part when there is a floor. */
    function FullNumber(): (s: string)
      ensures s == Join(NumberParts(), ", ")
      ensures |s| >= |"Ап. " + number| && s[|s| - |"Ап. " + number|..] == "Ап. " + number
      ensures Present(entrance) ==> |s| >= |"Вх. " + entrance.value| && s[..|"Вх. " + entrance.value|] == "Вх. " + entrance.value
      ensures !Present(entrance) && floor.Some? ==>
                var f := "Ет. " + IntToString(floor.value); |s| >= |f| && s[..|f|] == f
      ensures !Present(entrance) && floor.None? ==> s == "Ап. " + number
    {
      var parts := NumberParts();
      JoinEnds(parts, ", ");
      Join(parts, ", ")
    }

    /** `get_active_memberships` */
    function ActiveMemberships(): (ms: seq<Membership>)
      ensures forall m :: m in ms ==> m in memberships && m.isActive
      ensures forall m :: m in memberships && m.isActive ==> m in ms
      ensures |ms| <= |memberships|
    {
      ActiveOf(memberships)
    }

    /** `get_owners`: the users of the active owner memberships, in order. */
    function Owners(): (ids: seq<int>)
      ensures forall m :: m in memberships && m.isActive && m.role == Owner ==> m.userId in ids
      ensures forall i :: 0 <= i < |ids| ==>
                exists m :: m in memberships && m.isActive && m.role == Owner && m.userId == ids[i]
    {
      var ws := Where(ActiveMemberships(), IsOwner);
      assert forall i :: 0 <= i < |ws| ==> ws[i] in ws;
      UserIds(ws)
    }

    /** `get_tenants`: the users of the active tenant memberships, in order. */
    function Tenants(): (ids: seq<int>)
      ensures forall m :: m in memberships && m.isActive && m.role == Tenant ==> m.userId in ids
      ensures forall i :: 0 <= i < |ids| ==>
                exists m :: m in memberships && m.isActive && m.role == Tenant && m.userId == ids[i]
    {
      var ws := Where(ActiveMemberships(), IsTenant);
      assert forall i :: 0 <= i < |ws| ==> ws[i] in ws;
      UserIds(ws)
    }

    /** `get_all_occupants`: the users of all active memberships, in order. */
    function AllOccupants(): (ids: seq<int>)
      ensures |ids| == |ActiveMemberships()|
      ensures forall m :: m in memberships && m.isActive ==> m.userId in ids
      ensures forall i :: 0 <= i < |ids| ==>
                exists m :: m in memberships && m.isActive && m.userId == ids[i]
    {
      var ws := ActiveMemberships();
      assert forall i :: 0 <= i < |ws| ==> ws[i] in ws;
      UserIds(ws)
    }

    /** `get_primary_contact`: the user of the first active primary
        membership, else of the first active owner, else of the first active
        tenant, else of any active membership, else nobody. */
    function PrimaryContact(): (r: Option<int>)
      ensures r.Some? <==> ActiveMemberships() != []
      ensures r.Some? ==> exists m :: m in memberships && m.isActive && m.userId == r.value
      ensures (exists m :: m in memberships && m.isActive && m.isPrimary) ==>
                exists m :: m in memberships && m.isActive && m.isPrimary && m.userId == r.value
      ensures (forall m :: m in memberships && m.isActive ==> !m.isPrimary) &&
              (exists m :: m in memberships && m.isActive && m.role == Owner) ==>
                exists m :: m in memberships && m.isActive && m.role == Owner && m.userId == r.value
      ensures var primary, owner := FirstUser(memberships, ActivePrimary), FirstUser(memberships, ActiveOwner);
              var tenant, anyone := FirstUser(memberships, ActiveTenant), FirstUser(memberships, IsActive);
              r == if primary.Some? then primary else if owner.Some? then owner
                   else if tenant.Some? then tenant else anyone
    {
      FirstOfActive(memberships, IsPrimary, ActivePrimary);
      FirstOfActive(memberships, IsOwner, ActiveOwner);
      FirstOfActive(memberships, IsTenant, ActiveTenant);
      FirstOfWhere(memberships, IsActive);
      var primaries, owners, tenants, occupants := PrimaryUsers(), Owners(), Tenants(), AllOccupants();
      if primaries != [] then Some(primaries[0])
      else if owners != [] then Some(owners[0])
      else if tenants != [] then Some(tenants[0])
      else if occupants != [] then Some(occupants[0])
      else None
    }

    /** The users of the active primary memberships, in order. */
    function PrimaryUsers(): (ids: seq<int>)
      ensures forall m :: m in memberships && m.isActive && m.isPrimary ==> m.userId in ids
      ensures forall i :: 0 <= i < |ids| ==>
                exists m :: m in memberships && m.isActive && m.isPrimary && m.userId == ids[i]
    {
      var ws := Where(ActiveMemberships(), IsPrimary);
      assert forall i :: 0 <= i < |ws| ==> ws[i] in ws;
      UserIds(ws)
    }

    /** `calculate_share_percentage`: this unit's shares as a percentage of its
        building's total; zero without shares, without a building, or when the
        total is not positive. */
    function SharePercentage(): (p: real)
      reads building
      ensures !Present2(shares) || building == null ==> p == 0.0
      ensures building != null && building.TotalShares() <= 0.0 ==> p == 0.0
      ensures Present2(shares) && building != null && building.TotalShares() > 0.0 ==>
                p == shares.value / building.TotalShares() * 100.0
    {
      if !Present2(shares) || building == null then 0.0
      else
        var total := building.TotalShares();
        if total > 0.0 then shares.value / total * 100.0 else 0.0
    }

    /** `update_occupancy_count` */
    method UpdateOccupancyCount()
      modifies this`occupancyCount
      ensures occupancyCount == |ActiveMemberships()|
      ensures 0 <= occupancyCount <= |memberships|
    {
      occupancyCount := |ActiveMemberships()|;
    }
  }

  /** The floor part of a unit with a non-negative floor reads back as that
      floor: behind "Ет. " stand exactly the floor's decimal digits. */
  lemma FloorPartReadsBack(u: Unit)
    requires u.floor.Some? && u.floor.value >= 0
    ensures var part := u.NumberParts()[if Present(u.entrance) then 1 else 0];
            |part| > 4 && part[..4] == "Ет. " && IsDigits(part[4..]) && DigitsValue(part[4..]) == u.floor.value
  {
    var part := u.NumberParts()[if Present(u.entrance) then 1 else 0];
    assert part[4..] == NatToString(u.floor.value);
    NatToStringValue(u.floor.value);
  }

  /** A unit number whose parts hold no comma is recovered from its text. */
  lemma FullNumberSplits(u: Unit)
    requires AvoidsChar(u.NumberParts(), ',')
    ensures Split(u.FullNumber(), ',') == Spaced(u.NumberParts())
  {
    JoinedPartsSplit(u.NumberParts());
  }

  /** Python truthiness of a nullable Decimal: `None` and zero are falsy. */
  predicate Present2(x: Option<real>)
  {
    x.Some? && x.value != 0.0
  }

  /** `[m.user for m in ms]`, as user ids. */
  function UserIds(ms: seq<Membership>): (ids: seq<int>)
    ensures |ids| == |ms|
    ensures forall i :: 0 <= i < |ms| ==> ids[i] == ms[i].userId
  {
    seq(|ms|, i requires 0 <= i < |ms| => ms[i].userId)
  }

  /** The active memberships, in order. */
  function ActiveOf(ms: seq<Membership>): (r: seq<Membership>)
    ensures forall m :: m in r ==> m in ms && m.isActive
    ensures forall m :: m in ms && m.isActive ==> m in r
    ensures |r| <= |ms|
  {
    Where(ms, IsActive)
  }

  /** The memberships of `ms` that satisfy `p`, in order. */
  function Where(ms: seq<Membership>, p: Membership -> bool): (r: seq<Membership>)
    ensures forall m :: m in r ==> m in ms && p(m)
    ensures forall m :: m in ms && p(m) ==> m in r
    ensures |r| <= |ms|
  {
    if ms == [] then []
    else
      var rest := Where(ms[1..], p);
      assert forall m :: m in ms[1..] ==> m in ms;
      assert forall m :: m in ms ==> m == ms[0] || m in ms[1..];
      if p(ms[0]) then [ms[0]] + rest else rest
  }

  predicate IsActive(m: Membership) { m.isActive }
  predicate IsPrimary(m: Membership) { m.isPrimary }
  predicate IsOwner(m: Membership) { m.role == Owner }
  predicate IsTenant(m: Membership) { m.role == Tenant }
  predicate ActivePrimary(m: Membership) { m.isActive && m.isPrimary }
  predicate ActiveOwner(m: Membership) { m.isActive && m.role == Owner }
  predicate ActiveTenant(m: Membership) { m.isActive && m.role == Tenant }

  /** The user of the first membership of `ms` that satisfies `p`, searched
      from the front; `None` when there is none. */
  function FirstUser(ms: seq<Membership>, p: Membership -> bool): (r: Option<int>)
    ensures r.None? <==> forall i :: 0 <= i < |ms| ==> !p(ms[i])
    ensures r.Some? ==> exists i :: 0 <= i < |ms| && p(ms[i]) && ms[i].userId == r.value &&
                                   forall j :: 0 <= j < i ==> !p(ms[j])
  {
    if ms == [] then None
    else if p(ms[0]) then Some(ms[0].userId)
    else
      var r := FirstUser(ms[1..], p);
      assert forall i :: 1 <= i < |ms| ==> ms[i] == ms[1..][i - 1];
      if r.Some? then
        var i :| 0 <= i < |ms[1..]| && p(ms[1..][i]) && ms[1..][i].userId == r.value &&
                 forall j :: 0 <= j < i ==> !p(ms[1..][j]);
        assert forall j :: 0 <= j < i + 1 ==> !p(ms[j]) by {
          forall j | 0 <= j < i + 1 ensures !p(ms[j]) {
            if j > 0 { assert ms[j] == ms[1..][j - 1]; }
          }
        }
        r
      else r
  }

  /** The first user of the filtered list is the first match in the list. */
  lemma {:induction false} FirstOfWhere(ms: seq<Membership>, p: Membership -> bool)
    ensures FirstUser(ms, p) == if Where(ms, p) == [] then None else Some(Where(ms, p)[0].userId)
  {
    if ms != [] {
      FirstOfWhere(ms[1..], p);
    }
  }

  /** Filtering twice is filtering once by both conditions. */
  lemma {:induction false} WhereWhere(ms: seq<Membership>, p: Membership -> bool, q: Membership -> bool,
                                      pq: Membership -> bool)
    requires forall m :: pq(m) == (p(m) && q(m))
    ensures Where(Where(ms, p), q) == Where(ms, pq)
  {
    if ms != [] {
      WhereWhere(ms[1..], p, q, pq);
      if p(ms[0]) {
        assert Where(ms, p)[1..] == Where(ms[1..], p);
      }
    }
  }

  /** The first user among the active memberships satisfying `q` is the
      first match of "active and `q`" in the whole list. */
  lemma FirstOfActive(ms: seq<Membership>, q: Membership -> bool, aq: Membership -> bool)
    requires forall m :: aq(m) == (m.isActive && q(m))
    ensures var ids := UserIds(Where(ActiveOf(ms), q));
            FirstUser(ms, aq) == if ids == [] then None else Some(ids[0])
  {
    WhereWhere(ms, IsActive, q, aq);
    FirstOfWhere(ms, aq);
  }

  // ---------------------------------------------------------------------------
  // Share percentages
  // ---------------------------------------------------------------------------

  /** Shares are never negative (the column's check constraint). */
  predicate SharesNonNegative(us: seq<Unit>)
  {
    forall i :: 0 <= i < |us| ==> OrElse(us[i].shares, 0.0) >= 0.0
  }

  /** With non-negative shares, each unit's shares are at most the total. */
  lemma {:induction false} SharesBelowTotal(us: seq<Unit>, k: int)
    requires SharesNonNegative(us)
    requires 0 <= k < |us|
    ensures 0.0 <= OrElse(us[k].shares, 0.0) <= SumShares(us)
  {
    var init := us[..|us| - 1];
    assert SharesNonNegative(init) by {
      forall i | 0 <= i < |init| ensures OrElse(init[i].shares, 0.0) >= 0.0 {
        assert init[i] == us[i];
      }
    }
    SumSharesNonNegative(init);
    if k < |us| - 1 {
      assert init[k] == us[k];
      SharesBelowTotal(init, k);
    }
  }

  lemma SharesBelowTotalAll(us: seq<Unit>)
    requires SharesNonNegative(us)
    ensures forall k :: 0 <= k < |us| ==> OrElse(us[k].shares, 0.0) <= SumShares(us)
  {
    forall k | 0 <= k < |us| ensures OrElse(us[k].shares, 0.0) <= SumShares(us) {
      SharesBelowTotal(us, k);
    }
  }

  lemma {:induction false} SumSharesNonNegative(us: seq<Unit>)
    requires SharesNonNegative(us)
    ensures SumShares(us) >= 0.0
  {
    if us != [] {
      var init := us[..|us| - 1];
      assert SharesNonNegative(init) by {
        forall i | 0 <= i < |init| ensures OrElse(init[i].shares, 0.0) >= 0.0 {
          assert init[i] == us[i];
        }
      }
      SumSharesNonNegative(init);
    }
  }

  /** A unit of a building whose shares are non-negative holds between 0 and
      100 percent of it. */
  lemma SharePercentageBounded(u: Unit)
    requires u.building != null && u in u.building.units
    requires SharesNonNegative(u.building.units)
    ensures 0.0 <= u.SharePercentage() <= 100.0
  {
    if Present2(u.shares) {
      var us := u.building.units;
      var k :| 0 <= k < |us| && us[k] == u;
      SharesBelowTotal(us, k);
      var s, t := u.shares.value, u.building.TotalShares();
      if t > 0.0 {
        QuotientAtMostOne(s, t);
      }
    }
  }

  lemma QuotientAtMostOne(s: real, t: real)
    requires 0.0 <= s <= t && t > 0.0
    ensures s / t <= 1.0
  {
    assert s / t * t == s;
  }

  lemma WholeQuotient(t: real)
    requires t > 0.0
    ensures t / t * 100.0 == 100.0
  {
  }

  lemma PercentOfSum(a: real, c: real, t: real)
    requires t > 0.0
    ensures (a + c) / t * 100.0 == a / t * 100.0 + c / t * 100.0
  {
  }

  /** The percentages of a sequence of units, added up. */
  function PercentSum(us: seq<Unit>): real
    reads set i | 0 <= i < |us| :: us[i].building
  {
    if us == [] then 0.0 else PercentSum(us[..|us| - 1]) + us[|us| - 1].SharePercentage()
  }

  lemma {:induction false} PercentSumIsShareFraction(us: seq<Unit>, b: Building)
    requires forall i :: 0 <= i < |us| ==> us[i].building == b
    requires b.TotalShares() > 0.0
    ensures PercentSum(us) == SumShares(us) / b.TotalShares() * 100.0
  {
    if us != [] {
      var init, u := us[..|us| - 1], us[|us| - 1];
      PercentSumIsShareFraction(init, b);
      var t := b.TotalShares();
      assert u.SharePercentage() == OrElse(u.shares, 0.0) / t * 100.0;
      PercentOfSum(SumShares(init), OrElse(u.shares, 0.0), t);
    }
  }

  /** The share percentages of all units of a building add up to 100 whenever
      the building has shares at all; units without shares count zero. */
  lemma PercentagesTotal(b: Building)
    requires b.UnitsLinked()
    requires b.TotalShares() > 0.0
    ensures PercentSum(b.units) == 100.0
  {
    PercentSumIsShareFraction(b.units, b);
    var t := b.TotalShares();
    assert SumShares(b.units) == t;
    WholeQuotient(t);
  }

  /** A building whose only unit has shares: that unit holds all of it. */
  method SoleUnitHoldsAll(shares: real) returns (b: Building, u: Unit)
    requires shares > 0.0
    ensures b.units == [u] && u.building == b && b.UnitsLinked()
    ensures u.SharePercentage() == 100.0
  {
    b := new Building(1, Address(None, None, None), [], []);
    u := new Unit(1, b, None, None, "1", Some(shares), true, []);
    assert SumShares(b.units) == shares by {
      assert b.units[..0] == [];
    }
    WholeQuotient(shares);
  }
}
