/**
 The authentication and scope-selection state of the application: the signed-in
 user, the selected condominium and building, and their mirror in browser
 storage under the keys `codomi_user`, `codomi_selected_condominium` and
 `codomi_selected_building`.
 */
module AuthContext {
  import opened Wrappers
  import opened AuthModel
  import opened AccessPolicy
  import Seqs

  /** Browser storage, one optional entity per key; serialisation is not modelled. */
  datatype Store = Store(user: Option<User>, condominium: Option<Condominium>, building: Option<Building>)

  const EmptyStore := Store(None, None, None)

  datatype AuthState = AuthState(
    user: Option<User>,
    selectedCondominium: Option<Condominium>,
    selectedBuilding: Option<Building>,
    store: Store)

  /** The provider's state before its start-up effect has run. */
  function Initial(saved: Store): AuthState
  {
    AuthState(None, None, None, saved)
  }

  const LoggedOut := AuthState(None, None, None, EmptyStore)

  /** A selected building belongs to the selected condominium. */
  predicate ScopeConsistent(s: AuthState)
  {
    s.selectedBuilding.Some? ==>
      s.selectedCondominium.Some? && s.selectedBuilding.value.condominiumId == s.selectedCondominium.value.id
  }

  /** Every in-memory value is mirrored under its storage key. */
  predicate Mirrored(s: AuthState)
  {
    s.store == Store(s.user, s.selectedCondominium, s.selectedBuilding)
  }

  /** The auto-selection rule: select the only reachable condominium, and then its only building. */
  ghost predicate AutoSelected(s: AuthState, u: User)
  {
    var cs := UserCondominiums(u);
    if |cs| == 1 then
      var bs := UserBuildings(u, Some(cs[0].id));
      && s.selectedCondominium == Some(cs[0])
      && s.selectedBuilding == (if |bs| == 1 then Some(bs[0]) else None)
    else
      s.selectedCondominium == None && s.selectedBuilding == None
  }

  /** Auto-selection shared by login and start-up: storage follows every selection it makes. */
  function AutoSelect(s: AuthState, u: User): (r: AuthState)
    requires s.selectedCondominium.None? && s.selectedBuilding.None?
    ensures AutoSelected(r, u)
    ensures ScopeConsistent(r)
    ensures r.user == s.user && r.store.user == s.store.user
    ensures r.selectedCondominium.Some? ==> r.store.condominium == r.selectedCondominium
    ensures r.selectedBuilding.Some? ==> r.store.building == r.selectedBuilding
    ensures r.selectedCondominium.None? ==> r.store == s.store
    ensures r.selectedBuilding.None? ==> r.store.building == s.store.building
  {
    var cs := UserCondominiums(u);
    if |cs| == 1 then
      var c := cs[0];
      var withCondominium := s.(selectedCondominium := Some(c), store := s.store.(condominium := Some(c)));
      var bs := UserBuildings(u, Some(c.id));
      if |bs| == 1 then
        PolicyCoherent(u, c, bs[0]);
        withCondominium.(selectedBuilding := Some(bs[0]), store := withCondominium.store.(building := Some(bs[0])))
      else withCondominium
    else s
  }

  datatype LoginResult = LoginResult(ok: bool, state: AuthState)

  /** A demo account with this email exists. */
  predicate KnownEmail(email: string)
  {
    exists u :: u in MockUsers && u.email == email
  }

  /**
   `login` (without the simulated latency): on a known email and the demo
   password, sign in, clear both selections, then auto-select.
   */
  function Login(s: AuthState, email: string, password: string): (r: LoginResult)
    ensures r.ok <==> KnownEmail(email) && password == DemoPassword
    ensures !r.ok ==> r.state == s
    ensures r.ok ==>
      && r.state.user.Some?
      && r.state.user.value in MockUsers
      && r.state.user.value.email == email
      && AutoSelected(r.state, r.state.user.value)
      && ScopeConsistent(r.state)
      && Mirrored(r.state)
  {
    match Seqs.Find((u: User) => u.email == email, MockUsers)
    case Some(u) =>
      if password == DemoPassword then
        var signedIn := s.(user := Some(u), store := s.store.(user := Some(u)));
        var cleared := signedIn.(
          selectedCondominium := None,
          selectedBuilding := None,
          store := signedIn.store.(condominium := None, building := None));
        LoginResult(true, AutoSelect(cleared, u))
      else LoginResult(false, s)
    case None => LoginResult(false, s)
  }

  /** `logout`: forget the user and both selections, in memory and in storage. */
  function Logout(s: AuthState): (r: AuthState)
    ensures r.user.None? && r.selectedCondominium.None? && r.selectedBuilding.None?
    ensures r.store == EmptyStore
  {
    LoggedOut
  }

  /** `selectBuilding`: no membership check; storage follows the selection. */
  function SelectBuilding(s: AuthState, b: Option<Building>): (r: AuthState)
    ensures r.selectedBuilding == b && r.store.building == b
    ensures r.user == s.user && r.selectedCondominium == s.selectedCondominium
    ensures r.store.user == s.store.user && r.store.condominium == s.store.condominium
  {
    s.(selectedBuilding := b, store := s.store.(building := b))
  }

  /** `selectCondominium`: no membership check; always resets the building, in memory and in storage. */
  function SelectCondominium(s: AuthState, c: Option<Condominium>): (r: AuthState)
    ensures r.selectedCondominium == c && r.store.condominium == c
    ensures r.selectedBuilding.None? && r.store.building.None?
    ensures r.user == s.user && r.store.user == s.store.user
  {
    s.(selectedCondominium := c, selectedBuilding := None, store := s.store.(condominium := c, building := None))
  }

  /** The saved selection passes the id checks of the start-up effect. */
  predicate SavedScopeValid(u: User, c: Condominium, b: Building)
  {
    && (exists c' :: c' in UserCondominiums(u) && c'.id == c.id)
    && (exists b' :: b' in UserBuildings(u, Some(c.id)) && b'.id == b.id)
  }

  /**
   The start-up effect: restore the saved user; restore the saved pair only when
   both keys are present and pass the id checks, otherwise remove both keys; when
   the pair is incomplete, auto-select instead.
   */
  function Restore(saved: Store): (r: AuthState)
    ensures r.user == saved.user && r.store.user == saved.user
    ensures saved.user.None? ==> r == Initial(saved)
    ensures saved.user.Some? && saved.condominium.Some? && saved.building.Some? ==>
      if SavedScopeValid(saved.user.value, saved.condominium.value, saved.building.value) then
        r.selectedCondominium == saved.condominium && r.selectedBuilding == saved.building && r.store == saved
      else
        r.selectedCondominium.None? && r.selectedBuilding.None? && r.store == saved.(condominium := None, building := None)
    ensures saved.user.Some? && (saved.condominium.None? || saved.building.None?) ==>
      AutoSelected(r, saved.user.value)
    ensures saved.user.Some? && (saved.condominium.None? || saved.building.None?) ==>
      r.store == saved.(
        condominium := if r.selectedCondominium.Some? then r.selectedCondominium else saved.condominium,
        building := if r.selectedBuilding.Some? then r.selectedBuilding else saved.building)
    ensures r.selectedBuilding.Some? ==> r.selectedCondominium.Some?
  {
    match saved.user
    case None => Initial(saved)
    case Some(u) =>
      if saved.condominium.Some? && saved.building.Some? then
        if SavedScopeValid(u, saved.condominium.value, saved.building.value) then
          AuthState(Some(u), saved.condominium, saved.building, saved)
        else
          AuthState(Some(u), None, None, saved.(condominium := None, building := None))
      else
        AutoSelect(AuthState(Some(u), None, None, saved), u)
  }

  /** The context's `getUserCondominiums`: empty when nobody is signed in. */
  function ContextUserCondominiums(s: AuthState): (r: seq<Condominium>)
    ensures s.user.None? ==> r == []
    ensures s.user.Some? ==> r == UserCondominiums(s.user.value)
  {
    if s.user.Some? then UserCondominiums(s.user.value) else []
  }

  /** The context's `getUserBuildings`: empty when nobody is signed in. */
  function ContextUserBuildings(s: AuthState, condominiumId: Option<string>): (r: seq<Building>)
    ensures s.user.None? ==> r == []
    ensures s.user.Some? ==> r == UserBuildings(s.user.value, condominiumId)
  {
    if s.user.Some? then UserBuildings(s.user.value, condominiumId) else []
  }
}
