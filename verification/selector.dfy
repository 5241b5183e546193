/**
 The two-step condominium → building selector dialog. It keeps its own state
 (open flag, step, provisional condominium) and commits choices into the
 authentication state through `selectCondominium` and `selectBuilding`.
 */
module CondominiumBuildingSelector {
  import opened Wrappers
  import opened AuthModel
  import opened AccessPolicy
  import opened AuthContext
  import opened AuthProperties

  datatype Step = CondominiumStep | BuildingStep

  datatype Dialog = Dialog(isOpen: bool, step: Step, tempCondominium: Option<Condominium>)

  /** The dialog as first mounted, and as every commit leaves it. */
  const Closed := Dialog(false, CondominiumStep, None)

  /** The building step always knows which condominium it lists buildings for. */
  predicate Valid(d: Dialog)
  {
    d.step == BuildingStep ==> d.tempCondominium.Some?
  }

  /** The dialog together with the authentication state it reads and writes. */
  datatype Screen = Screen(dialog: Dialog, auth: AuthState)

  /** The component renders nothing until a condominium or a building is selected. */
  predicate Renders(auth: AuthState)
  {
    auth.selectedCondominium.Some? || auth.selectedBuilding.Some?
  }

  function IdOf(c: Option<Condominium>): Option<string>
  {
    if c.Some? then Some(c.value.id) else None
  }

  /** `availableBuildings`: listed for the provisional condominium if set, else for the selected one. */
  function AvailableBuildings(s: Screen): (r: seq<Building>)
    ensures s.dialog.tempCondominium.Some? && s.dialog.tempCondominium.value.id != "" ==>
      r == ContextUserBuildings(s.auth, Some(s.dialog.tempCondominium.value.id))
    ensures !Truthy(IdOf(s.dialog.tempCondominium)) ==>
      r == ContextUserBuildings(s.auth, IdOf(s.auth.selectedCondominium))
  {
    ContextUserBuildings(s.auth, OrElse(IdOf(s.dialog.tempCondominium), IdOf(s.auth.selectedCondominium)))
  }

  /**
   `handleCondominiumSelect`: with exactly one building available, commit the
   condominium and then that building and close; otherwise move to the building step.
   */
  function HandleCondominiumSelect(s: Screen, c: Condominium): (r: Screen)
    ensures var bs := ContextUserBuildings(s.auth, Some(c.id));
      if |bs| == 1 then
        && r.dialog == Closed
        && r.auth.selectedCondominium == Some(c) && r.auth.selectedBuilding == Some(bs[0])
        && r.auth.store == s.auth.store.(condominium := Some(c), building := Some(bs[0]))
        && r.auth.user == s.auth.user
      else
        r.auth == s.auth && r.dialog == s.dialog.(step := BuildingStep, tempCondominium := Some(c))
    ensures Valid(r.dialog)
  {
    var bs := ContextUserBuildings(s.auth, Some(c.id));
    if |bs| == 1 then
      Screen(Closed, SelectBuilding(SelectCondominium(s.auth, Some(c)), Some(bs[0])))
    else
      Screen(s.dialog.(tempCondominium := Some(c), step := BuildingStep), s.auth)
  }

  /**
   `handleBuildingSelect`: commit the provisional condominium first (which
   resets the building), then the building, then close.
   */
  function HandleBuildingSelect(s: Screen, b: Building): (r: Screen)
    ensures r.dialog == Closed && Valid(r.dialog)
    ensures r.auth.selectedBuilding == Some(b) && r.auth.store.building == Some(b)
    ensures r.auth.selectedCondominium ==
      if s.dialog.tempCondominium.Some? then s.dialog.tempCondominium else s.auth.selectedCondominium
    ensures r.auth.store.condominium ==
      if s.dialog.tempCondominium.Some? then s.dialog.tempCondominium else s.auth.store.condominium
    ensures r.auth.user == s.auth.user && r.auth.store.user == s.auth.store.user
  {
    var committed := if s.dialog.tempCondominium.Some? then SelectCondominium(s.auth, s.dialog.tempCondominium) else s.auth;
    Screen(Closed, SelectBuilding(committed, Some(b)))
  }

  /** `handleDialogClose` (the dialog's open-change callback). */
  function HandleDialogClose(s: Screen, open: bool): (r: Screen)
    ensures r.auth == s.auth && r.dialog.isOpen == open
    ensures !open ==> r.dialog == Closed
    ensures open ==> r.dialog == s.dialog.(isOpen := true)
    ensures Valid(s.dialog) ==> Valid(r.dialog)
  {
    if open then Screen(s.dialog.(isOpen := open), s.auth)
    else Screen(Dialog(open, CondominiumStep, None), s.auth)
  }

  /** `goBackToCondominium`. */
  function GoBackToCondominium(s: Screen): (r: Screen)
    ensures r.auth == s.auth && r.dialog == s.dialog.(step := CondominiumStep, tempCondominium := None)
    ensures Valid(r.dialog)
  {
    Screen(s.dialog.(step := CondominiumStep, tempCondominium := None), s.auth)
  }

  /** Committing the building before the condominium would lose it: the order in `handleBuildingSelect` matters. */
  lemma CommitOrderMatters(a: AuthState, c: Condominium, b: Building)
    ensures SelectBuilding(SelectCondominium(a, Some(c)), Some(b)).selectedBuilding == Some(b)
    ensures SelectCondominium(SelectBuilding(a, Some(b)), Some(c)).selectedBuilding.None?
  {
  }

  /**
   Picking from the lists the dialog shows keeps the authentication scope
   consistent: a picked condominium is reachable, and the building step lists
   buildings of the provisional condominium.
   */
  lemma PicksKeepScopeConsistent(s: Screen, c: Condominium, b: Building)
    requires Valid(s.dialog) && ScopeConsistent(s.auth)
    requires c in ContextUserCondominiums(s.auth)
    requires s.dialog.step == BuildingStep ==>
      s.dialog.tempCondominium.value in ContextUserCondominiums(s.auth) && b in AvailableBuildings(s)
    ensures ScopeConsistent(HandleCondominiumSelect(s, c).auth)
    ensures s.dialog.step == BuildingStep ==> ScopeConsistent(HandleBuildingSelect(s, b).auth)
  {
    ReferenceIdsUnique();
    var bs := ContextUserBuildings(s.auth, Some(c.id));
    if |bs| == 1 {
      PolicyCoherent(s.auth.user.value, c, bs[0]);
    }
    if s.dialog.step == BuildingStep {
      var t := s.dialog.tempCondominium.value;
      assert t in MockCondominiums;
      PolicyCoherent(s.auth.user.value, t, b);
    }
  }

  /**
   Right after a log-in the selector shows exactly when one condominium was
   auto-selected: for every demo account except the administrator.
   */
  lemma SelectorShownAfterLogin(s: AuthState, email: string)
    requires Login(s, email, DemoPassword).ok
    ensures var t := Login(s, email, DemoPassword).state;
      Renders(t) <==> t.user.value.role != Admin
  {
    var u := Login(s, email, DemoPassword).state.user.value;
    assert u == AnaGarcia || u == CarlosMendoza || u == MariaLopez || u == RobertoSilva;
    if u == RobertoSilva {
      JuntaScopeIsSingleton();
    } else if u != AnaGarcia {
      DefaultUserReachesLosAlmendros(u);
    }
  }
}
