/**
 The access policy of the authentication context: which condominiums and which
 buildings a user may select, as a function of the user's role and assigned
 building, over the demo reference data.
 */
module AccessPolicy {
  import opened Wrappers
  import opened Seqs
  import opened AuthModel

  /** JavaScript truthiness of an optional string id: present and non-empty. */
  predicate Truthy(id: Option<string>)
  {
    id.Some? && id.value != ""
  }

  /** The JavaScript expression `a || b` on optional string ids. */
  function OrElse(a: Option<string>, b: Option<string>): (r: Option<string>)
    ensures Truthy(r) <==> Truthy(a) || Truthy(b)
    ensures Truthy(a) ==> r == a
    ensures !Truthy(a) ==> r == b
  {
    if Truthy(a) then a else b
  }

  /** `mockBuildings.find(b => b.id === id)`. */
  function FindBuilding(id: string): (r: Option<Building>)
    ensures r.Some? <==> exists b :: b in MockBuildings && b.id == id
    ensures r.Some? ==> r.value in MockBuildings && r.value.id == id
  {
    Find((b: Building) => b.id == id, MockBuildings)
  }

  /** A board user with a usable building assignment; every other user falls back to the owner rule. */
  predicate AssignedJunta(u: User)
  {
    u.role == Junta && Truthy(u.buildingId)
  }

  /** The condominium that owns building `id` in the reference data. */
  ghost predicate OwnsBuilding(c: Condominium, id: string)
  {
    exists b :: b in MockBuildings && b.id == id && c.id == b.condominiumId
  }

  /** Building ids are unique in the reference data, and so are condominium ids. */
  lemma ReferenceIdsUnique()
    ensures forall b, b' :: b in MockBuildings && b' in MockBuildings && b.id == b'.id ==> b == b'
    ensures forall c, c' :: c in MockCondominiums && c' in MockCondominiums && c.id == c'.id ==> c == c'
    ensures forall c :: c in MockCondominiums ==> c.id != ""
  {
  }

  /** The filter `c => c.id === id`. */
  function CondominiumWithId(id: string): Condominium -> bool
  {
    (c: Condominium) => c.id == id
  }

  /** The filter `b => b.condominiumId === id`. */
  function BuildingIn(id: string): Building -> bool
  {
    (b: Building) => b.condominiumId == id
  }

  /** `getUserCondominiums`: the condominiums a user may select. */
  function UserCondominiums(u: User): (r: seq<Condominium>)
    ensures forall c :: c in r ==> c in MockCondominiums
  {
    if u.role == Admin then MockCondominiums
    else if AssignedJunta(u) then
      match FindBuilding(u.buildingId.value)
      case Some(b) => Filter(CondominiumWithId(b.condominiumId), MockCondominiums)
      case None => []
    else Filter(CondominiumWithId("1"), MockCondominiums)
  }

  /** `getUserBuildings`: the buildings a user may select, optionally narrowed to one condominium. */
  function UserBuildings(u: User, condominiumId: Option<string>): (r: seq<Building>)
    ensures forall b :: b in r ==> b in MockBuildings
  {
    if u.role == Admin then
      if Truthy(condominiumId) then Filter(BuildingIn(condominiumId.value), MockBuildings)
      else MockBuildings
    else if AssignedJunta(u) then
      var userBuilding := FindBuilding(u.buildingId.value);
      if Truthy(condominiumId) && userBuilding.Some? && userBuilding.value.condominiumId == condominiumId.value then
        [userBuilding.value]
      else if userBuilding.Some? then [userBuilding.value]
      else []
    else if Truthy(condominiumId) then Filter(BuildingIn(condominiumId.value), MockBuildings)
    else Filter(BuildingIn("1"), MockBuildings)
  }

  /** An administrator reaches every condominium. */
  lemma AdminReachesAllCondominiums(u: User)
    requires u.role == Admin
    ensures UserCondominiums(u) == MockCondominiums
  {
  }

  /** Looking a condominium up by id in the reference data yields at most the one with that id. */
  lemma CondominiumsWithId(id: string)
    ensures Filter(CondominiumWithId(id), MockCondominiums) ==
      if id == "1" then [LosAlmendros] else if id == "2" then [VistaHermosa] else []
  {
    var p := CondominiumWithId(id);
    var first, second := [LosAlmendros], [VistaHermosa];
    assert MockCondominiums == first + second;
    FilterAppend(p, first, second);
    assert Filter(p, first) == if id == "1" then first else [];
    assert Filter(p, second) == if id == "2" then second else [];
  }

  /** An owner, or a board user without a building assignment, reaches exactly condominium '1'. */
  lemma DefaultUserReachesLosAlmendros(u: User)
    requires u.role != Admin && !AssignedJunta(u)
    ensures UserCondominiums(u) == [LosAlmendros]
  {
    CondominiumsWithId("1");
  }

  /** A board user with a building assignment reaches exactly the condominium owning that building, or none. */
  lemma JuntaReachesOwningCondominium(u: User)
    requires AssignedJunta(u)
    ensures |UserCondominiums(u)| <= 1
    ensures forall c :: c in UserCondominiums(u) <==> c in MockCondominiums && OwnsBuilding(c, u.buildingId.value)
  {
    ReferenceIdsUnique();
    match FindBuilding(u.buildingId.value)
    case Some(b) => CondominiumsWithId(b.condominiumId);
    case None =>
  }

  /** Administrators and owners narrowed to a condominium see exactly that condominium's buildings. */
  lemma NarrowedBuildingsBelongToCondominium(u: User, condominiumId: Option<string>)
    requires !AssignedJunta(u) && Truthy(condominiumId)
    ensures forall b :: b in UserBuildings(u, condominiumId) <==> b in MockBuildings && b.condominiumId == condominiumId.value
  {
  }

  /** Without a condominium argument an administrator sees every building. */
  lemma AdminSeesAllBuildings(u: User, condominiumId: Option<string>)
    requires u.role == Admin && !Truthy(condominiumId)
    ensures UserBuildings(u, condominiumId) == MockBuildings
  {
  }

  /** Without a condominium argument an owner sees the buildings of condominium '1'. */
  lemma DefaultUserSeesLosAlmendrosBuildings(u: User, condominiumId: Option<string>)
    requires u.role != Admin && !AssignedJunta(u) && !Truthy(condominiumId)
    ensures UserBuildings(u, condominiumId) == [TorreNorte, TorreSur]
  {
    var p := BuildingIn("1");
    var north, south, central := [TorreNorte], [TorreSur], [EdificioCentral];
    assert MockBuildings == north + south + central;
    assert Filter(p, north) == north by { assert p(TorreNorte); }
    assert Filter(p, south) == south by { assert p(TorreSur); }
    assert Filter(p, central) == [] by { assert !p(EdificioCentral); }
    FilterAppend(p, north + south, central);
    FilterAppend(p, north, south);
  }

  /** A board user with a building assignment sees that one building (if it exists), whatever the argument. */
  lemma JuntaSeesOwnBuilding(u: User, condominiumId: Option<string>, otherId: Option<string>)
    requires AssignedJunta(u)
    ensures |UserBuildings(u, condominiumId)| <= 1
    ensures forall b :: b in UserBuildings(u, condominiumId) <==> b in MockBuildings && b.id == u.buildingId.value
    ensures UserBuildings(u, condominiumId) == UserBuildings(u, otherId)
  {
  }

  /**
   The two halves of the policy agree: a building offered for a reachable
   condominium belongs to that condominium.
   */
  lemma PolicyCoherent(u: User, c: Condominium, b: Building)
    requires c in UserCondominiums(u) && b in UserBuildings(u, Some(c.id))
    ensures b.condominiumId == c.id
  {
    ReferenceIdsUnique();
    if AssignedJunta(u) {
      JuntaReachesOwningCondominium(u);
    }
  }
}
