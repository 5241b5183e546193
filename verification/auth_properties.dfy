/**
 Properties of the authentication state machine that relate several operations:
 the demo log-in scenarios, idempotent logout, what survives a reload, and the
 places where the code is weaker than a checked scope would be.
 */
module AuthProperties {
  import opened Wrappers
  import opened AuthModel
  import opened AccessPolicy
  import opened AuthContext

  /** The administrator reaches two condominiums, so logging in selects nothing. */
  lemma AdminLoginSelectsNothing(s: AuthState)
    ensures Login(s, "admin@codomi.com", DemoPassword).ok
    ensures Login(s, "admin@codomi.com", DemoPassword).state ==
      AuthState(Some(AnaGarcia), None, None, Store(Some(AnaGarcia), None, None))
  {
    assert AnaGarcia in MockUsers;
  }

  /** An owner reaches only condominium '1', which holds two buildings: only the condominium is selected. */
  lemma OwnerLoginSelectsCondominiumOnly(s: AuthState)
    ensures Login(s, "carlos@email.com", DemoPassword).ok
    ensures Login(s, "carlos@email.com", DemoPassword).state ==
      AuthState(Some(CarlosMendoza), Some(LosAlmendros), None, Store(Some(CarlosMendoza), Some(LosAlmendros), None))
  {
    assert CarlosMendoza in MockUsers;
    DefaultUserReachesLosAlmendros(CarlosMendoza);
    NarrowedBuildingsBelongToCondominium(CarlosMendoza, Some("1"));
    assert TorreNorte in UserBuildings(CarlosMendoza, Some("1"));
    assert TorreSur in UserBuildings(CarlosMendoza, Some("1"));
  }

  /** The board user assigned to building '1' gets both its condominium and the building selected. */
  lemma JuntaLoginSelectsBoth(s: AuthState)
    ensures Login(s, "roberto@email.com", DemoPassword).ok
    ensures Login(s, "roberto@email.com", DemoPassword).state ==
      AuthState(Some(RobertoSilva), Some(LosAlmendros), Some(TorreNorte),
                Store(Some(RobertoSilva), Some(LosAlmendros), Some(TorreNorte)))
  {
    assert RobertoSilva in MockUsers;
    JuntaScopeIsSingleton();
  }

  /** An unknown email or a wrong password is refused and changes nothing. */
  lemma BadCredentialsChangeNothing(s: AuthState, email: string, password: string)
    requires !KnownEmail(email) || password != DemoPassword
    ensures Login(s, email, password) == LoginResult(false, s)
  {
  }

  /** Logging out twice is the same as logging out once. */
  lemma LogoutIdempotent(s: AuthState)
    ensures Logout(Logout(s)) == Logout(s)
  {
  }

  /** A reload after logout stays logged out. */
  lemma RestoreAfterLogout(s: AuthState)
    ensures Restore(Logout(s).store) == Logout(s)
  {
  }

  /** A reload right after a successful login restores exactly the session login produced. */
  lemma RestoreAfterLogin(s: AuthState, email: string, password: string)
    requires Login(s, email, password).ok
    ensures Restore(Login(s, email, password).state.store) == Login(s, email, password).state
  {
    var t := Login(s, email, password).state;
    var u := t.user.value;
    var cs := UserCondominiums(u);
    if t.selectedBuilding.Some? {
      var bs := UserBuildings(u, Some(cs[0].id));
      assert SavedScopeValid(u, cs[0], bs[0]);
    }
  }

  /** A complete, reachable, mirrored selection survives a reload unchanged. */
  lemma RestoreFullScope(s: AuthState)
    requires Mirrored(s)
    requires s.user.Some? && s.selectedCondominium.Some? && s.selectedBuilding.Some?
    requires s.selectedCondominium.value in UserCondominiums(s.user.value)
    requires s.selectedBuilding.value in UserBuildings(s.user.value, Some(s.selectedCondominium.value.id))
    ensures Restore(s.store) == s
  {
    assert SavedScopeValid(s.user.value, s.selectedCondominium.value, s.selectedBuilding.value);
  }

  /**
   A saved pair that passes the id checks names a building of the reference
   data owned by the saved condominium.
   */
  lemma SavedScopeNamesOwnedBuilding(u: User, c: Condominium, b: Building)
    requires SavedScopeValid(u, c, b)
    ensures exists b' :: b' in MockBuildings && b'.id == b.id && b'.condominiumId == c.id
  {
    var c' :| c' in UserCondominiums(u) && c'.id == c.id;
    var b' :| b' in UserBuildings(u, Some(c.id)) && b'.id == b.id;
    PolicyCoherent(u, c', b');
  }

  /** When the saved building is genuine reference data, a restored session keeps its scope consistent. */
  lemma RestoreKeepsScopeConsistent(saved: Store)
    requires saved.building.None? || saved.building.value in MockBuildings
    ensures ScopeConsistent(Restore(saved))
  {
    if saved.user.Some? && saved.condominium.Some? && saved.building.Some?
       && SavedScopeValid(saved.user.value, saved.condominium.value, saved.building.value) {
      SavedScopeNamesOwnedBuilding(saved.user.value, saved.condominium.value, saved.building.value);
      ReferenceIdsUnique();
    }
  }

  /** The restore checks compare ids only: a saved building with a foreign `condominiumId` is accepted as is. */
  lemma RestoreAcceptsForgedBuilding()
    ensures var forged := Building("1", "Torre Norte", "Av. Principal 123", "2");
      var r := Restore(Store(Some(RobertoSilva), Some(LosAlmendros), Some(forged)));
      r.selectedBuilding == Some(forged) && !ScopeConsistent(r)
  {
    var forged := Building("1", "Torre Norte", "Av. Principal 123", "2");
    JuntaScopeIsSingleton();
    assert SavedScopeValid(RobertoSilva, LosAlmendros, forged);
  }

  /**
   Restore needs both keys: an administrator who picked a reachable condominium
   but no building loses that condominium on reload.
   */
  lemma RestoreForgetsLoneCondominium(s: AuthState)
    ensures var t := SelectCondominium(Login(s, "admin@codomi.com", DemoPassword).state, Some(VistaHermosa));
      && VistaHermosa in UserCondominiums(AnaGarcia)
      && t.selectedCondominium == Some(VistaHermosa)
      && Restore(t.store).selectedCondominium.None?
  {
    AdminLoginSelectsNothing(s);
  }

  /**
   Restore's auto-selection path does not clear a saved building it did not
   use: the stored building outlives the in-memory one.
   */
  lemma RestoreKeepsOrphanBuildingKey()
    ensures var r := Restore(Store(Some(CarlosMendoza), None, Some(TorreSur)));
      r.selectedCondominium == Some(LosAlmendros) && r.selectedBuilding.None?
      && r.store.building == Some(TorreSur) && !Mirrored(r)
  {
    DefaultUserReachesLosAlmendros(CarlosMendoza);
    NarrowedBuildingsBelongToCondominium(CarlosMendoza, Some("1"));
    assert TorreNorte in UserBuildings(CarlosMendoza, Some("1"));
    assert TorreSur in UserBuildings(CarlosMendoza, Some("1"));
  }

  /** Every interactive transition keeps storage mirroring memory. */
  lemma TransitionsKeepMirror(s: AuthState, c: Option<Condominium>, b: Option<Building>)
    requires Mirrored(s)
    ensures Mirrored(SelectCondominium(s, c))
    ensures Mirrored(SelectBuilding(s, b))
    ensures Mirrored(Logout(s))
  {
  }

  /** Selecting a condominium always restores scope consistency; selecting a building keeps it only when it matches. */
  lemma SelectionsAndScope(s: AuthState, c: Option<Condominium>, b: Option<Building>)
    ensures ScopeConsistent(SelectCondominium(s, c))
    ensures ScopeConsistent(SelectBuilding(s, b)) <==>
      b.None? || (s.selectedCondominium.Some? && b.value.condominiumId == s.selectedCondominium.value.id)
  {
  }

  /** `selectBuilding` performs no membership check: a building of another condominium is taken as is. */
  lemma SelectBuildingIsUnchecked(s: AuthState)
    ensures var t := SelectBuilding(SelectCondominium(s, Some(LosAlmendros)), Some(EdificioCentral));
      t.selectedBuilding == Some(EdificioCentral) && !ScopeConsistent(t)
  {
  }

  /** A board user's reachable sets are singletons derived from the assigned building. */
  lemma JuntaScopeIsSingleton()
    ensures UserCondominiums(RobertoSilva) == [LosAlmendros]
    ensures UserBuildings(RobertoSilva, None) == [TorreNorte]
    ensures UserBuildings(RobertoSilva, Some(LosAlmendros.id)) == [TorreNorte]
  {
    ReferenceIdsUnique();
    JuntaReachesOwningCondominium(RobertoSilva);
    assert LosAlmendros in UserCondominiums(RobertoSilva);
    JuntaSeesOwnBuilding(RobertoSilva, None, Some(LosAlmendros.id));
    assert TorreNorte in UserBuildings(RobertoSilva, None);
  }
}
