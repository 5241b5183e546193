/**
 The entities of the authentication context (`User`, `Building`, `Condominium`,
 the three user roles) and the fixed demo reference data the application ships
 with in place of a backend.
 */
module AuthModel {
  import opened Wrappers

  datatype Role = Admin | Owner | Junta

  /** `apartment` and `isBoardMember` are only set for owners, `buildingId` only for board (junta) users. */
  datatype User = User(
    id: string,
    name: string,
    email: string,
    role: Role,
    apartment: Option<string>,
    isBoardMember: Option<bool>,
    buildingId: Option<string>)

  datatype Building = Building(id: string, name: string, address: string, condominiumId: string)

  datatype Condominium = Condominium(id: string, name: string)

  const LosAlmendros := Condominium("1", "Condominio Los Almendros")
  const VistaHermosa := Condominium("2", "Condominio Vista Hermosa")

  const MockCondominiums: seq<Condominium> := [LosAlmendros, VistaHermosa]

  const TorreNorte := Building("1", "Torre Norte", "Av. Principal 123", "1")
  const TorreSur := Building("2", "Torre Sur", "Av. Secundaria 456", "1")
  const EdificioCentral := Building("3", "Edificio Central", "Calle Central 789", "2")

  const MockBuildings: seq<Building> := [TorreNorte, TorreSur, EdificioCentral]

  const AnaGarcia := User("1", "Ana García", "admin@codomi.com", Admin, None, None, None)
  const CarlosMendoza := User("2", "Carlos Mendoza", "carlos@email.com", Owner, Some("Apt 301"), Some(true), None)
  const MariaLopez := User("3", "María López", "maria@email.com", Owner, Some("Apt 205"), Some(false), None)
  const RobertoSilva := User("4", "Roberto Silva", "roberto@email.com", Junta, None, None, Some("1"))

  const MockUsers: seq<User> := [AnaGarcia, CarlosMendoza, MariaLopez, RobertoSilva]

  /** The one password every demo account accepts. */
  const DemoPassword: string := "123456"

  /**
   The demo accounts have distinct emails; only the board user has a building
   assignment, and it names a reference building; every reference building
   belongs to a reference condominium.
   */
  lemma DemoDataShape()
    ensures |MockUsers| == 4
    ensures forall i, j :: 0 <= i < j < |MockUsers| ==> MockUsers[i].email != MockUsers[j].email
    ensures forall u :: u in MockUsers && u.buildingId.Some? ==>
      u.role == Junta && exists b :: b in MockBuildings && b.id == u.buildingId.value
    ensures forall b :: b in MockBuildings ==> exists c :: c in MockCondominiums && c.id == b.condominiumId
  {
    assert TorreNorte in MockBuildings;
    assert LosAlmendros in MockCondominiums && VistaHermosa in MockCondominiums;
  }
}
