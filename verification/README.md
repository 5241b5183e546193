# Codomi: authentication scope and page logic, modelled in Dafny

Codomi is a condominium-management web front end. Its only component with real
behaviour is the authentication context. That context holds three things: the
signed-in user, the selected condominium and the selected building. It mirrors
all three into browser storage under the keys `codomi_user`,
`codomi_selected_condominium` and `codomi_selected_building`. Which condominiums
and buildings a user may select follows from the user's role (`admin`, `owner`
or `junta`, the building board) and, for board users, from their assigned
building, over fixed demo reference data.

This project models the following as immutable datatypes and pure functions:

- the access policy (`AccessPolicy`);
- the log-in, log-out, select and start-up restore transitions (`AuthContext`);
- the route gate in front of every page (`AppRoutes`);
- the two-step condominium → building picker (`CondominiumBuildingSelector`);
- the small list operations and validators of the pages (`Profile`, `NotificationDropdown`, `Announcements`, `AdminAnnouncements`, `OwnerCommunication`).

Browser storage is a record of three optional slots (`AuthContext.Store`).
A React state update followed by another becomes the composition of two functions.
A toast becomes a result value (`Profile.Toast`).

JavaScript semantics are written out where they matter:

- the truthiness of an optional id: `AccessPolicy.Truthy` and `AccessPolicy.OrElse`;
- `Array.prototype.filter`, `map` and `find`: module `Seqs`;
- `String.prototype.trim` with the full ECMAScript whitespace set, and `length` counted in UTF-16 code units: module `Text`.

The model follows the code, including where it is weaker than a checked scope would be:

- `selectBuilding` and `selectCondominium` check nothing. `AuthProperties.SelectBuildingIsUnchecked` shows a building of another condominium being taken as is.
- The start-up restore compares ids only. `AuthProperties.RestoreAcceptsForgedBuilding` shows a stored building whose `condominiumId` disagrees being accepted.
- The restore needs both stored keys. `AuthProperties.RestoreForgetsLoneCondominium` shows an administrator's lone condominium choice being lost on reload.
- The restore's auto-selection branch never clears an unused stored building. `AuthProperties.RestoreKeepsOrphanBuildingKey` shows storage and memory disagreeing afterwards.

## Model

| member | source | states |
|---|---|---|
| Seqs.Filter | src/pages/Profile.tsx:71 | `filter` keeps exactly the elements of the input that pass the predicate, and never lengthens the list |
| Seqs.Map | src/components/NotificationDropdown.tsx:62-66 | `map` keeps the length, and each position holds the image of the input element at that position |
| Seqs.Find | src/contexts/AuthContext.tsx:98 | `find` returns the first passing element, and returns nothing exactly when no element passes |
| Text.TrimEmptyIffBlank | src/pages/Profile.tsx:51 | `!s.trim()` holds exactly when every character of `s` is ECMAScript whitespace or a line terminator |
| Text.Utf16Length | src/pages/Profile.tsx:97 | a string's JavaScript `length` lies between its character count and twice that, and equals the character count when every character is in the Basic Multilingual Plane |
| Text.Utf16LengthCountsAstral | src/pages/Profile.tsx:97 | a string's JavaScript `length` is exactly its character count plus the number of its characters above U+FFFF |
| AccessPolicy.OrElse | src/components/UserCondominiumBuildingSelector.tsx:16 | JavaScript's logical or on optional ids is truthy when either operand is; it is the left operand when that one is truthy and the right operand otherwise |
| AccessPolicy.FindBuilding | src/contexts/AuthContext.tsx:98 | the building lookup succeeds exactly when a reference building has the id, and then returns that reference building |
| AccessPolicy.ReferenceIdsUnique | src/contexts/AuthContext.tsx:46-56 | building ids and condominium ids of the reference data are unique, and condominium ids are non-empty |
| AuthModel.DemoDataShape | src/contexts/AuthContext.tsx:46-89 | the four demo accounts have distinct emails; only the board user has a building assignment, naming a reference building; every reference building belongs to a reference condominium |
| AccessPolicy.UserCondominiums | src/contexts/AuthContext.tsx:92-104 | a user is only ever offered condominiums of the reference data |
| AccessPolicy.UserBuildings | src/contexts/AuthContext.tsx:107-122 | a user is only ever offered buildings of the reference data |
| AccessPolicy.AdminReachesAllCondominiums | src/contexts/AuthContext.tsx:93-95 | an administrator reaches every condominium |
| AccessPolicy.CondominiumsWithId | src/contexts/AuthContext.tsx:99 | filtering the reference condominiums by an id yields the one with that id, or nothing |
| AccessPolicy.DefaultUserReachesLosAlmendros | src/contexts/AuthContext.tsx:102-103 | an owner, or a board user without a building assignment, reaches exactly condominium '1' |
| AccessPolicy.JuntaReachesOwningCondominium | src/contexts/AuthContext.tsx:97-100 | a board user with a building assignment reaches at most one condominium: the one owning that building, or none when the building is unknown |
| AccessPolicy.NarrowedBuildingsBelongToCondominium | src/contexts/AuthContext.tsx:107-122 | for administrators and owners, a truthy condominium argument yields exactly the reference buildings of that condominium |
| AccessPolicy.AdminSeesAllBuildings | src/contexts/AuthContext.tsx:109 | without a condominium argument an administrator sees every building |
| AccessPolicy.DefaultUserSeesLosAlmendrosBuildings | src/contexts/AuthContext.tsx:121 | without a condominium argument an owner sees the two buildings of condominium '1' |
| AccessPolicy.JuntaSeesOwnBuilding | src/contexts/AuthContext.tsx:112-118 | a board user with an assignment sees exactly the assigned building, whatever the argument |
| AccessPolicy.PolicyCoherent | src/contexts/AuthContext.tsx:92-122 | a building offered for a reachable condominium belongs to that condominium |
| AuthContext.AutoSelect | src/contexts/AuthContext.tsx:196-208 | the only reachable condominium is selected, then its only building; the scope stays consistent and storage follows each selection made |
| AuthContext.Login | src/contexts/AuthContext.tsx:178-216 | log-in succeeds exactly on a demo email with password '123456'. Failure changes nothing. Success signs in that demo user with auto-selected, consistent and mirrored scope |
| AuthContext.Logout | src/contexts/AuthContext.tsx:218-225 | log-out leaves no user and no selection, and all three storage keys empty |
| AuthContext.SelectBuilding | src/contexts/AuthContext.tsx:227-234 | the building is taken unchecked and stored, and nothing else changes |
| AuthContext.SelectCondominium | src/contexts/AuthContext.tsx:236-245 | the condominium is taken unchecked and stored; the building is reset in memory and in storage; the user is untouched |
| AuthContext.Restore | src/contexts/AuthContext.tsx:132-176 | the saved user is always kept. A saved pair is either restored whole, when its ids pass the policy, or both keys are removed. An incomplete pair falls back to auto-selection, which writes the keys it selects and leaves the other stored keys as they were |
| AuthContext.ContextUserCondominiums | src/contexts/AuthContext.tsx:247-249 | nobody signed in reaches nothing; otherwise the signed-in user's condominiums |
| AuthContext.ContextUserBuildings | src/contexts/AuthContext.tsx:251-253 | nobody signed in reaches nothing; otherwise the signed-in user's buildings |
| AuthProperties.AdminLoginSelectsNothing | src/contexts/AuthContext.tsx:197-208 | the demo administrator reaches two condominiums, so log-in selects neither condominium nor building |
| AuthProperties.OwnerLoginSelectsCondominiumOnly | src/contexts/AuthContext.tsx:197-208 | the demo owner gets condominium '1' selected but no building, because it holds two |
| AuthProperties.JuntaLoginSelectsBoth | src/contexts/AuthContext.tsx:197-208 | the demo board user gets condominium '1' and building '1' selected and stored |
| AuthProperties.BadCredentialsChangeNothing | src/contexts/AuthContext.tsx:184-215 | an unknown email or a wrong password is refused with the state unchanged |
| AuthProperties.LogoutIdempotent | src/contexts/AuthContext.tsx:218-225 | logging out twice equals logging out once |
| AuthProperties.RestoreAfterLogout | src/contexts/AuthContext.tsx:138 | a reload after log-out stays logged out |
| AuthProperties.RestoreAfterLogin | src/contexts/AuthContext.tsx:132-176 | a reload right after a successful log-in restores exactly the session the log-in produced |
| AuthProperties.RestoreFullScope | src/contexts/AuthContext.tsx:143-154 | a mirrored session with a reachable condominium and building survives a reload unchanged |
| AuthProperties.SavedScopeNamesOwnedBuilding | src/contexts/AuthContext.tsx:148-152 | a saved pair that passes the id checks names a reference building owned by the saved condominium |
| AuthProperties.RestoreKeepsScopeConsistent | src/contexts/AuthContext.tsx:138-173 | when the stored building is genuine reference data, a restored selected building belongs to the restored condominium |
| AuthProperties.RestoreAcceptsForgedBuilding | src/contexts/AuthContext.tsx:151-154 | a stored building whose `condominiumId` disagrees passes the id-only checks and leaves the scope inconsistent |
| AuthProperties.RestoreForgetsLoneCondominium | src/contexts/AuthContext.tsx:143 | an administrator's condominium chosen without a building is lost on reload |
| AuthProperties.RestoreKeepsOrphanBuildingKey | src/contexts/AuthContext.tsx:160-172 | on the auto-selection branch, an unused stored building outlives the in-memory selection, so storage no longer mirrors memory |
| AuthProperties.TransitionsKeepMirror | src/contexts/AuthContext.tsx:218-245 | log-out and both select operations keep storage mirroring memory |
| AuthProperties.SelectionsAndScope | src/contexts/AuthContext.tsx:227-245 | selecting a condominium always leaves a consistent scope. Selecting a building does so exactly when it is absent or belongs to the selected condominium |
| AuthProperties.SelectBuildingIsUnchecked | src/contexts/AuthContext.tsx:227-234 | a building of another condominium is accepted, leaving the scope inconsistent |
| AuthProperties.JuntaScopeIsSingleton | src/contexts/AuthContext.tsx:97-117 | the demo board user reaches only condominium '1' and only building '1', with or without a condominium argument |
| AppRoutes.ProtectedRoute | src/App.tsx:24-42 | the gate shows the log-in form exactly when nobody is signed in or an administrator has no building selected. Otherwise it renders the page exactly when the role is allowed, and else redirects to the role's home |
| AppRoutes.RoleHome | src/App.tsx:37 | each role's home is an absolute path other than the index '/' |
| AppRoutes.RoleHomeInjective | src/App.tsx:37 | different roles are redirected to different homes |
| AppRoutes.IndexRoute | src/App.tsx:50-61 | the index shows the log-in form or redirects a signed-in user to the home of their role |
| AppRoutes.FindRoute | src/App.tsx:64-117 | a route is found exactly when a declared protected route has a path equal to the requested one, and the found route is such a route |
| AppRoutes.Resolve | src/App.tsx:48-119 | '/' shows the index decision and a declared path shows the gate with that route's allowed roles. With paths compared exactly, the not-found page is shown exactly for a path other than '/' that no protected route declares. A page renders only on a declared route that admits the signed-in user's role |
| AppRoutes.FindRouteByGroup | src/App.tsx:63-117 | the route table is searched group by group: administrator routes first, then owner, then board routes |
| AppRoutes.NotAnAdminPath | src/App.tsx:64-83 | no administrator route has the owner or the board home path |
| AppRoutes.NotAnOwnerPath | src/App.tsx:86-100 | no owner route has the board home path |
| AppRoutes.HomesLeadTheirGroups | src/App.tsx:64-107 | each role's home path is the first route of its group and admits only that role |
| AppRoutes.AdminHomeRoute | src/App.tsx:64-68 | '/admin' resolves to a route admitting administrators only |
| AppRoutes.OwnerHomeRoute | src/App.tsx:86-90 | '/owner' resolves to a route admitting owners only |
| AppRoutes.JuntaHomeRoute | src/App.tsx:103-107 | '/junta' resolves to a route admitting board users only |
| AppRoutes.RoleHomeAdmitsRole | src/App.tsx:37 | every redirect target is a declared route that admits exactly the redirected role |
| AppRoutes.RedirectLandsOnPage | src/App.tsx:36-38 | following any redirect of the gate renders a page: a second gating step never redirects again |
| AppRoutes.IndexIsGateWithNoRoles | src/App.tsx:50-61 | the index decides like a protected route that admits no role, so it sends users to the same home as the gate |
| AppRoutes.OnlyAdminsNeedBuilding | src/App.tsx:32-34 | for non-administrators neither the gate nor the index depends on the building selection |
| CondominiumBuildingSelector.AvailableBuildings | src/components/UserCondominiumBuildingSelector.tsx:16 | buildings are listed for the provisional condominium when it has a non-empty id, else for the selected one |
| CondominiumBuildingSelector.HandleCondominiumSelect | src/components/UserCondominiumBuildingSelector.tsx:18-33 | with exactly one building available, the condominium and then the building are committed and stored, and the dialog is closed and reset. Otherwise only the step moves to 'building', with the condominium held provisionally |
| CondominiumBuildingSelector.HandleBuildingSelect | src/components/UserCondominiumBuildingSelector.tsx:35-43 | the picked building ends up selected and stored, under the provisional condominium if one was held, which is then stored as well; the dialog is closed and reset |
| CondominiumBuildingSelector.HandleDialogClose | src/components/UserCondominiumBuildingSelector.tsx:45-51 | the open flag follows the argument. Closing resets step and provisional choice. The authentication state is untouched and the step invariant is kept |
| CondominiumBuildingSelector.GoBackToCondominium | src/components/UserCondominiumBuildingSelector.tsx:53-56 | going back resets step and provisional choice and leaves the authentication state untouched |
| CondominiumBuildingSelector.CommitOrderMatters | src/components/UserCondominiumBuildingSelector.tsx:36-39 | committing the condominium before the building keeps the building; the reverse order would lose it |
| CondominiumBuildingSelector.PicksKeepScopeConsistent | src/components/UserCondominiumBuildingSelector.tsx:15-43 | picking from the lists the dialog shows keeps the selected building inside the selected condominium |
| CondominiumBuildingSelector.Renders | src/components/UserCondominiumBuildingSelector.tsx:58-60 | the component renders nothing unless a condominium or a building is selected |
| CondominiumBuildingSelector.SelectorShownAfterLogin | src/components/UserCondominiumBuildingSelector.tsx:58-60 | right after a log-in the selector is shown exactly for the demo accounts that are not the administrator |
| Profile.AddEmail | src/pages/Profile.tsx:50-68 | blank input is ignored. An address already listed or equal to the primary one is refused, with the list unchanged. Otherwise the address is appended and the input cleared. The list stays duplicate-free and free of the primary address |
| Profile.RemoveEmail | src/pages/Profile.tsx:70-76 | every occurrence of the address is removed; the other addresses keep their multiplicities and order |
| Profile.RemoveUndoesAdd | src/pages/Profile.tsx:62-71 | removing an address right after adding it restores the previous list |
| Profile.ChangePassword | src/pages/Profile.tsx:78-113 | accepted exactly when all three fields are filled, new equals confirmation and new has at least 6 UTF-16 units. The first failing check names the error, each error stated as an exact condition. Success clears the form and closes the dialog; failure changes nothing |
| Profile.ChangePasswordRetry | src/pages/Profile.tsx:78-113 | submitting again after a success is refused for empty fields; after a refusal the same error repeats |
| Profile.ThreeAstralCharactersAreLongEnough | src/pages/Profile.tsx:97 | three emoji already meet the six-unit minimum |
| Profile.BmpLengthIsCharacterCount | src/pages/Profile.tsx:97 | for passwords in the Basic Multilingual Plane the minimum is six characters |
| Profile.SaveProfile | src/pages/Profile.tsx:32-48 | refused exactly when the trimmed name or trimmed email is empty, keeping the edit mode; otherwise success and edit mode is left |
| NotificationDropdown.UnreadCount | src/components/NotificationDropdown.tsx:58 | the unread count never exceeds the number of notifications |
| NotificationDropdown.UnreadCountCountsPositions | src/components/NotificationDropdown.tsx:58 | the unread count is the number of positions holding a notification with `read == false` |
| NotificationDropdown.MarkAsRead | src/components/NotificationDropdown.tsx:60-68 | items carrying the id become read, every other item is unchanged, and length and order are kept |
| NotificationDropdown.RemoveNotification | src/components/NotificationDropdown.tsx:70-73 | exactly the items carrying the id are dropped; the others keep their multiplicities and order |
| NotificationDropdown.MarkAsReadIdempotent | src/components/NotificationDropdown.tsx:60-68 | marking the same id twice equals marking it once |
| NotificationDropdown.MarkAsReadLowersUnreadCount | src/components/NotificationDropdown.tsx:58-68 | marking lowers the unread count by exactly the number of unread items with that id, so never raises it |
| NotificationDropdown.AbsentIdChangesNothing | src/components/NotificationDropdown.tsx:60-73 | with an id no item carries, both marking and removing leave the list unchanged |
| NotificationDropdown.MarkedItemsAreRead | src/components/NotificationDropdown.tsx:60-68 | after marking, no item carrying the id is unread |
| Announcements.Compare | src/pages/owner/OwnerAnnouncements.tsx:44-48 | the comparator puts `a` first exactly when only `a` is pinned, or both share a pin status and `a` is newer; it ties exactly on equal pin status and date |
| Announcements.CompareAntisymmetric | src/pages/owner/OwnerAnnouncements.tsx:44-48 | swapping the comparator's arguments flips the sign of its result |
| Announcements.PrecedesTotalPreorder | src/pages/owner/OwnerAnnouncements.tsx:44-48 | the comparator orders any two announcements and is transitive, so the sort order is well defined |
| Announcements.Insert | src/pages/owner/OwnerAnnouncements.tsx:44-48 | inserting into a sorted list keeps it sorted and adds exactly the one announcement |
| Announcements.SortAnnouncements | src/pages/owner/OwnerAnnouncements.tsx:44-48 | the sorted list is a permutation of the input, every pinned announcement precedes every unpinned one, and within a pin status dates never increase |
| AdminAnnouncements.Submit | src/pages/admin/AdminAnnouncements.tsx:45-59 | with an empty title or content (untrimmed) nothing changes. Otherwise the new announcement by 'Ana García' is put first, the old list follows unchanged, and the form is reset |
| AdminAnnouncements.SubmitKeepsIdsUnique | src/pages/admin/AdminAnnouncements.tsx:45-59 | publishing under an id not yet in use keeps announcement ids unique |
| AdminAnnouncements.TogglePin | src/pages/admin/AdminAnnouncements.tsx:61-65 | the pin flag flips on items carrying the id only; length and order are kept |
| AdminAnnouncements.TogglePinInvolution | src/pages/admin/AdminAnnouncements.tsx:61-65 | toggling the same id twice restores the original list |
| AdminAnnouncements.TogglePinKeepsContent | src/pages/admin/AdminAnnouncements.tsx:61-65 | toggling changes nothing but the pin flag |
| AdminAnnouncements.TogglePinKeepsIdsUnique | src/pages/admin/AdminAnnouncements.tsx:61-65 | toggling a pin keeps announcement ids unique |
| OwnerCommunication.SendMessage | src/pages/owner/OwnerCommunication.tsx:56-76 | blank input changes nothing. Otherwise the untrimmed input is appended as a non-administrator message from 'Carlos Mendoza', 'Apt 301', with earlier messages unchanged and the input cleared |
| OwnerCommunication.SendGrowsExactlyOnContent | src/pages/owner/OwnerCommunication.tsx:58-74 | the conversation grows exactly when the trimmed input is non-empty, and then ends with the untrimmed input as a non-administrator message |

## Left out

- Browser storage and JSON serialisation: storage is three optional typed slots. The crash of the unguarded `JSON.parse` on a corrupt stored value (src/contexts/AuthContext.tsx:139, 144-145) cannot be expressed and is not modelled.
- The simulated one-second latency and the `isLoading` flag of log-in and start-up: log-in is a synchronous transition.
- Clock-derived values: announcement and message ids, the announcement date and the message timestamp are parameters.
- Date parsing in the announcement sort: dates are integer keys. The `NaN` of an unparsable date is not modelled.
- Announcements.SortAnnouncements: stability is not stated. `Array.prototype.sort` is stable since ECMAScript 2019, so announcements that compare equal keep their input order; the contract fixes the result only up to that order.
- AuthProperties.RestoreKeepsScopeConsistent: requires the stored building to be reference data, because the code compares ids only (see AuthProperties.RestoreAcceptsForgedBuilding).
- NotificationDropdown.UnreadCount: the function's own contract is only the length bound; its meaning is stated by NotificationDropdown.UnreadCountCountsPositions.
- AccessPolicy.UserCondominiums and AccessPolicy.UserBuildings: the functions' own contracts only say their results are reference data; the per-role results are stated by the AccessPolicy lemmas.
- Text.Utf16Length: a Dafny string holds Unicode scalar values, so a JavaScript string with a lone surrogate (one code unit) cannot be represented.
- Profile.RemoveEmail: the confirmation toast that removal always shows is not returned.
- AppRoutes.Resolve and AppRoutes.FindRoute: paths are matched by exact string equality. The router matches case-insensitively and accepts trailing slashes, so `/ADMIN` or `/admin/` reach the administrator gate in the application but the not-found page in the model.
- Toasts, dialogs, JSX rendering, scrolling and `react-router` mechanics: a toast is a result value, and navigation is a `View` value.
- The avatar and photo upload (`FileReader`) and `handleAvatarChange` in the profile page: they depend on file input.
- src/utils/api.ts: a network call not used by the modelled logic.
- The dashboards, the buildings page, the layout, header, footer and sidebars: presentational, with constant data and no behaviour.
- The building selector, the condominium selector, the user building selector and the log-in form: thin forwarders to operations already modelled.
