# AdoptMe in Dafny

AdoptMe is a pet-adoption web application. Users register, sign in with a
JWT session cookie, and put pets up for adoption with a photo. Anyone signed in
browses every listed pet. Admins see the user community and can delete a user
together with all of that user's pets.

This project models the core of the application:

- **The Express back end** (`backend/index.js` with its two Mongoose schemas).
  - The class `Api.Server` holds the user and pet collections, the upload
    directory as a set of file names, the next fresh id, and the two secrets
    read from the environment.
  - Each route handler is a method. It states its status code, its cookie,
    and its whole effect on the store.
  - Every mutating handler keeps `Valid()`. That is the referential invariant
    between `users[u].pets` and `pets[p].owner`, plus uniqueness of email and
    contact, plus the schema constraints, plus fresh ids.
- **The store** (`Store`). The database is a value `Db`. Its effects are
  `InsertUser`, `AddPet`, `RemovePet`, `RemoveUser` and `UpdateUser`, and
  lemmas prove that each preserves `Consistent`.
- **The schemas** (`Schema`). Casting applies `trim` and `lowercase`, and
  the predicates hold the validators: enums, the 10-digit contact,
  `min`/`maxLength`, and required fields.
- **The libraries the handlers rely on.**
  - bcrypt (`Bcrypt`) is modelled as a keyed digest over the first 72
    characters.
  - `jsonwebtoken` (`Jwt`) is modelled as a MAC on the claims.
  - The two middlewares (`Guards`) are `verifyToken` and `verifyAdmin`.
- **The React front end's logic.**
  - The pet filter of BrowsePets.
  - The register, put-for-adoption and update-profile forms.
  - The pet list provider (PetContext), including its duplicate check
    against a stale list.
  - The dashboard's confirmed removals.
  - The landing-page carousel.
  - The two route wrappers.
  - Stateful components are classes whose methods are the event handlers.
    Pure decisions are functions.

Integers are unbounded. Ids are `nat` and stand for ObjectIds; how an id is
spelled in a URL matters in one place only, described under Findings below.
Strings are `seq<char>`. JavaScript numbers that reach the pet schema are `real`, or
`NaN`, or blank.

Where the code and the design description disagree, the model follows the
code:

- Login answers 404 for an unknown email and 400 for a wrong password. It does
  not answer a uniform 401.
- A registration whose document fails the schema gets no response at all. The
  exception is thrown inside the bcrypt callback, so the handler never answers
  and never returns 400.
- `uploadpet` answers 500 when the document fails validation or casting.
- `deleteuser` with a malformed id answers 500.
- `uploadpet` and `deletepet` take no session.
- `update-profile` edits the document named by the body's `_id` for any signed-in
  caller.
- `update-profile` ignores `photoAction`. Without a new file it writes an
  empty picture name and deletes the old file.

## Model

| member | source | states |
|---|---|---|
| Text.TrimStart | backend/models/users.models.js:4-8 | the result is a suffix of the input, only whitespace was dropped, and it does not start with whitespace; whitespace is JavaScript's set: tab, vertical tab, form feed, the byte order mark, every Zs space separator and the four line terminators |
| Text.TrimEnd | backend/models/users.models.js:4-8 | the result is a prefix of the input, only whitespace was dropped, and it does not end with whitespace, in the same whitespace set |
| Text.TrimShape | backend/models/users.models.js:4-8 | `trim` yields a string with no leading or trailing whitespace |
| Text.TrimAlwaysTrimmed | backend/models/users.models.js:28-47 | every trimmed field is trimmed, for all inputs |
| Text.TrimmedFixed | backend/models/users.models.js:28-47 | an already trimmed string is unchanged by the setter |
| Text.TrimIdempotent | backend/models/users.models.js:28-47 | trimming twice equals trimming once |
| Text.Lower | backend/models/users.models.js:14 | `lowercase` maps every character and keeps the length |
| Text.NormalizeEmail | backend/models/users.models.js:9-16 | a stored email is lower-case and trimmed |
| Text.LowerShape | backend/models/users.models.js:9-16 | lower-casing a trimmed string leaves no upper-case letter and keeps it trimmed |
| Text.NormalizeEmailIdempotent | backend/models/users.models.js:9-16 | casting a stored email again leaves it unchanged |
| Text.Split | backend/models/users.models.js:15 | splitting at a separator gives at least one piece and no piece contains the separator |
| Text.JoinSplit | backend/models/users.models.js:15 | joining the pieces with the separator gives the string back |
| Text.SplitJoin | backend/models/users.models.js:15 | splitting the join of separator-free pieces gives the pieces back, so a split is determined by its pieces |
| Bcrypt.KeyOf | backend/index.js:209 | bcrypt reads at most the first 72 characters of the password, and the whole password when it is shorter |
| Bcrypt.Hash | backend/index.js:134-135 | a digest is made with cost 10 |
| Bcrypt.CompareOwnHash | backend/index.js:209 | a password matches its own hash |
| Bcrypt.CompareOtherHash | backend/index.js:209 | a candidate matches a hash exactly when the two agree on the first 72 characters, and for short passwords exactly when they are equal |
| Jwt.Sign | backend/index.js:150 | a signed token carries the given claims |
| Jwt.Verify | backend/index.js:40 | verification succeeds only on a token signed with this key over exactly these claims |
| Jwt.VerifySigned | backend/index.js:35-47 | a token the server signed verifies to its claims |
| Jwt.TamperedClaimsRejected | backend/index.js:35-47 | claims swapped under a valid signature fail verification |
| Jwt.OtherKeyRejected | backend/index.js:35-47 | a token signed with another key fails verification |
| Schema.SingleAt | backend/models/users.models.js:15 | with a single `@`, the address matches the anchored pattern exactly when the text before it is a local part (dot-separated atoms or a quoted string) and the text after it a domain (labels ending in two or more letters, or a bracketed IPv4 literal) |
| Schema.AcceptsPlainAddress | backend/models/users.models.js:15 | `jo@mail.com` matches the pattern |
| Schema.RefusesEmptyLabel | backend/models/users.models.js:15 | `a@b..com` does not match: a domain label is empty |
| Schema.RefusesShortTopLevel | backend/models/users.models.js:15 | `a@b.cd.e` does not match: the top-level label has one letter |
| Schema.RefusesDigitTopLevel | backend/models/users.models.js:15 | `a@b.c1` does not match: the top-level label holds a digit |
| Schema.RefusesBracket | backend/models/users.models.js:15 | `a<b@x.com` does not match: `<` is excluded from an unquoted local part |
| Schema.CastUser | backend/models/users.models.js:3-63 | a cast user is normalized; fullname and the five address fields are the trimmed inputs, email the trimmed and lower-cased input, contact, password and picture the inputs as given; role defaults to 'user'; pets start empty |
| Schema.CastUserFixed | backend/models/users.models.js:3-63 | casting a stored (normalized) document's own fields again gives that document back: the setters are idempotent |
| Schema.CastPet | backend/models/pets.models.js:3-53 | a cast fails exactly on a NaN weight; otherwise the pet is normalized, name, breed, color, nature, gender and description are the trimmed inputs, species, photo and owner the inputs as given, and a numeric weight is stored as that number while a blank one is absent |
| Schema.CastPetFixed | backend/models/pets.models.js:3-53 | casting a stored (normalized) pet's own fields again, its weight sent as its number or left blank, gives that pet back |
| Schema.ZeroWeightAccepted | backend/models/pets.models.js:24-27 | weight 0 passes the `min: 0` validator and every negative weight fails it |
| Seqs.Filter | frontend/src/Component/BrowsePets.jsx:105-107 | `filter` keeps exactly the elements satisfying the predicate and never grows |
| Seqs.Without | backend/index.js:333 | removing an id keeps every other element and nothing else, in order |
| Seqs.FilterIsSubsequence | frontend/src/Component/Dashboard.jsx:263 | a filtered list is an order-preserving subsequence of the original |
| Seqs.FilterIdempotent | frontend/src/Component/BrowsePets.jsx:105-107 | filtering twice by one predicate equals filtering once |
| Seqs.FilterAll | frontend/src/Component/Dashboard.jsx:263 | a filter that every element passes returns the list unchanged |
| Seqs.FilterDistinct | backend/index.js:333 | filtering a list without repeats yields a list without repeats |
| Seqs.CountWithout | backend/index.js:333 | after removing an id it occurs zero times; other counts are unchanged |
| Store.PhotoMap | backend/index.js:360-363 | the photos of a user's pets: keys are exactly the pets owned by the user, values exactly their photos |
| Store.OwnersExist | backend/models/pets.models.js:48-52 | in a consistent store every pet's owner is a stored user |
| Store.OwnedIffListed | backend/models/pets.models.js:48-52 | in a consistent store, the pets whose `owner` is a user are exactly those in that user's `pets` list |
| Store.AddPetEffect | backend/index.js:239-259 | the new pet is stored under its id and appended to its owner's list; every other user and pet is unchanged |
| Store.CanonicalDeleteIsRemovePet | backend/index.js:329-339 | with the id spelled as MongoDB prints it, `deletepet` as written has the effect `RemovePet` |
| Store.NonCanonicalDeleteDangles | backend/index.js:329-339 | with an upper-case hex digit in the id, `deletepet` as written deletes the pet while its owner still lists it, so a consistent store becomes inconsistent |
| Store.RemovePetEffect | backend/index.js:329-339 | the pet leaves the collection and its owner's list, which keeps the order of the rest; the owner's other fields and every other user and pet are unchanged |
| Store.RemoveUserEffect | backend/index.js:368-379 | the user and exactly the pets it owns are gone; every other user and pet is unchanged |
| Store.InsertUserPreserves | backend/index.js:136-148 | inserting a well-formed user with a fresh id, unused email and unused contact keeps the store consistent |
| Store.AddPetPreserves | backend/index.js:239-259 | adding a well-formed pet of an existing owner under a fresh id keeps the store consistent |
| Store.RemovePetPreserves | backend/index.js:329-339 | removing a pet keeps the store consistent |
| Store.RemoveUserPreserves | backend/index.js:368-379 | removing a user with its pets keeps the store consistent |
| Store.UpdateUserPreserves | backend/index.js:286-311 | replacing a user's profile without changing its pets, and without taking another user's email or contact, keeps the store consistent |
| Store.AddPetOwnersListPets | backend/index.js:254-259 | after adding a pet, every pet is listed exactly once by its owner |
| Store.RemovePetOwnersListPets | backend/index.js:332-334 | after removing a pet, every remaining pet is listed exactly once by its owner |
| Store.UpdateUserUnique | backend/index.js:278-288 | the duplicate check before an update keeps emails and contacts unique |
| Store.InsertUserUnique | backend/index.js:125-132 | the duplicate check before registration keeps emails and contacts unique |
| Guards.VerifyToken | backend/index.js:35-47 | the request passes exactly when a cookie is present and verifies; it then carries the signed claims; otherwise the status is 401 |
| Guards.VerifyAdmin | backend/index.js:49-60 | the request passes exactly when the lookup succeeds and the user exists with role 'admin'; otherwise 500 on a failed lookup, else 403 |
| Guards.AdminChain | backend/index.js:356 | the two guards in sequence pass exactly for a token the server signed whose user is an admin; without a valid token the answer is 401 |
| Api.NewUser | backend/index.js:128-148 | the registered document is normalized, has no pets, its password digest matches the submitted password, its fullname and address fields are the trimmed form values, its email is the normalized email, its role defaults to 'user' and its picture is the upload or '' |
| Api.NewAdmin | backend/index.js:171-186 | as for users, with the fullname the trimmed form value and the five address fields empty; the role is whatever the body says, defaulting to 'user' |
| Api.Patched | backend/index.js:291-311 | a profile update never touches password, role or pets; it sets the trimmed name, the normalized email, the contact and the picture; for role 'user' the five address fields become the trimmed form values, for any other role they are kept |
| Api.ProfileDropsOnlyPassword | backend/index.js:302 | two users have the same public profile exactly when they differ at most in the password |
| Api.SessionAuthenticates | backend/index.js:150-151 | the cookie set at registration or login passes `verifyToken` with the user's id and email |
| Api.UnsetAdminCodeAdmitsAnyone | backend/index.js:162-197 | with `ADMIN_SECRET_CODE` unset, a body without a code and with `role: 'admin'` passes the gate, and when its email and contact are free and its fields valid, the admin route's outcome is 201 with a session cookie and a stored account whose role is 'admin' |
| Api.Server.constructor | backend/index.js:1-33 | the store starts empty and valid, with the two secrets |
| Api.Server.FindByEmail | backend/index.js:205 | the lookup finds a user exactly when the normalized email is taken, and the one found has that email |
| Api.Server.Receive | backend/index.js:123 | multer's `upload.single` adds the chosen file, if any, to the upload directory and nothing else |
| Api.Server.Insert | backend/index.js:136-148 | a user is stored under the next fresh id and the store stays valid |
| Api.Server.Enroll | backend/index.js:123-158 | the upload is kept; a taken email or contact gives 400 and changes nothing; a schema failure gives no response and changes nothing; otherwise 201, a session cookie for the next id, the created document, and the store is `InsertUser` of the old one (the `Registered` outcome); the store stays valid |
| Api.Server.Adopt | backend/index.js:239-259 | the pet is stored under the next fresh id, its owner's list gains that id (`AddPet`), and the store stays valid |
| Api.Server.Drop | backend/index.js:329-339 | the pet leaves its owner's list and the collection (`RemovePet`), its owner existed, and the store stays valid |
| Api.Server.Replace | backend/index.js:291-311 | the user's document is replaced (`UpdateUser`) and the store stays valid |
| Api.Server.RegisterUser | backend/index.js:123-159 | the `Registered` outcome for the document `NewUser` builds: the upload is kept; a taken email or contact gives 400 and changes nothing; a schema failure gives no response; otherwise 201, a session cookie for the new id, and the store is `InsertUser` of the old one |
| Api.Server.RegisterAdmin | backend/index.js:162-197 | the upload is kept in every case; a code different from `ADMIN_SECRET_CODE` gives 403 and changes no user or pet; otherwise the `Registered` outcome for the document `NewAdmin` builds |
| Api.Server.Login | backend/index.js:200-219 | missing fields give 400; an unknown email gives 404; a password matching the digest gives 200 with a session cookie and the user, otherwise 400 |
| Api.Server.Logout | backend/index.js:222-225 | 200, and the cookie set no longer authenticates |
| Api.Server.CurrentUser | backend/index.js:63-74 | 401 without a valid session; otherwise the caller's profile without its password, or 404 when the user is gone |
| Api.Server.PetIdsOf | backend/index.js:77-86 | 401 without a session; the user's pet-id list with 200, else 400; every id listed is a pet owned by that user |
| Api.Server.PetDetails | backend/index.js:89-98 | 401 without a session; a malformed id gives 500; otherwise 200 with the pet or null |
| Api.Server.AllPets | backend/index.js:101-109 | 401 without a session; otherwise every pet with its owner's public fields joined in, and the owner is always present |
| Api.Server.Community | backend/index.js:112-120 | 401 without a session; otherwise exactly the users whose role is 'user', as stored |
| Api.Server.UploadPet | backend/index.js:228-265 | no photo or a malformed owner gives 500; an unknown owner gives 400; a document the schema refuses gives 500; otherwise 200 and the store is `AddPet` of the old one under the next id |
| Api.Server.UpdateProfile | backend/index.js:268-322 | 401 without a session; a malformed or unknown `_id`, a taken email or contact, or a schema failure gives 400; otherwise 200 with the new profile, the store is `UpdateUser` with `Patched`, and the old picture is deleted |
| Api.Server.DeletePet | backend/index.js:325-353 | a malformed or unknown id gives 400 and changes nothing; otherwise 200, the store is `RemovePet` of the old one whatever the spelling of the id (the intended behaviour, see Findings), the store stays valid, the photo is deleted, and the body carries the pet as it was, the owner's document as read before the update and the updated pet list, which is the owner's stored list afterwards |
| Api.Server.UnlinkAll | backend/index.js:370-377 | every photo in the map is deleted from the upload directory and nothing else is |
| Api.Server.DeleteUser | backend/index.js:356-394 | the guards' status when they stop; a malformed id gives 500; an unknown user gives 404; otherwise 200, the store is `RemoveUser`, and the user's pet photos and picture are deleted |
| BrowsePets.WithKey | frontend/src/Component/BrowsePets.jsx:113-115 | changing one filter sets that key and leaves the other two |
| BrowsePets.FilterPets | frontend/src/Component/BrowsePets.jsx:103-111 | a pet is shown exactly when it is loaded and matches every filter not set to 'all'; the initial filters show everything |
| BrowsePets.FilterPetsIsMatches | frontend/src/Component/BrowsePets.jsx:103-111 | the three successive filters equal one filter by the conjunction of the three tests |
| BrowsePets.FilterPetsIsSubsequence | frontend/src/Component/BrowsePets.jsx:103-111 | the shown pets keep the loaded order |
| BrowsePets.FilterPetsIdempotent | frontend/src/Component/BrowsePets.jsx:103-111 | refiltering the shown pets changes nothing |
| BrowsePets.BrowsePage.constructor | frontend/src/Component/BrowsePets.jsx:72 | the page starts unloaded with every filter 'all' |
| BrowsePets.BrowsePage.Refilter | frontend/src/Component/BrowsePets.jsx:103-111 | once loaded, the shown pets are the filtered loaded pets; before that they are unchanged |
| BrowsePets.BrowsePage.Loaded | frontend/src/Component/BrowsePets.jsx:103-111 | loading the pets shows them filtered by the current filters |
| BrowsePets.BrowsePage.HandleFilterChange | frontend/src/Component/BrowsePets.jsx:113-115 | one key of the filters changes and the view is refiltered |
| Register.PasswordMessage | frontend/src/Component/Register.jsx:47-57 | the message under the password field: mismatch when a confirmation was typed and differs, else too short below 6 characters, else none |
| Register.ConfirmMessage | frontend/src/Component/Register.jsx:59-69 | the message under the confirmation field: too short first, then mismatch, else none |
| Register.MessagesAgreeOnSuccess | frontend/src/Component/Register.jsx:47-69 | once a confirmation is typed, both handlers clear the message on the same inputs |
| Register.MessagePrecedenceDiffers | frontend/src/Component/Register.jsx:47-69 | on a short, mismatching password the two handlers report different messages |
| Register.HandleSubmit | frontend/src/Component/Register.jsx:79-131 | mismatch, then length, then the 10-character contact are checked in that order; a sent form carries the selected role and goes to the user or admin endpoint by role |
| Register.ContactCheckWeakerThanSchema | frontend/src/Component/Register.jsx:89-92 | every contact the schema accepts passes the client check, and "-123456789" passes it although the schema refuses it |
| Register.RoleSelector.constructor | frontend/src/Component/Register.jsx:12 | the role starts as 'user' |
| Register.RoleSelector.ChooseUser | frontend/src/Component/Register.jsx:173 | the user button selects 'user' |
| Register.RoleSelector.ChooseAdmin | frontend/src/Component/Register.jsx:181 | the admin button selects 'admin' |
| PutForAdoption.Body | frontend/src/Component/PutForAdoption.jsx:23-47 | the request names the signed-in user as owner and carries the typed weight |
| PutForAdoption.WeightChecksDisagree | frontend/src/Component/PutForAdoption.jsx:28-31 | the client refuses weight 0, which the schema accepts, and lets a non-number through, which the server's cast refuses |
| PutForAdoption.AdoptionForm.constructor | frontend/src/Component/PutForAdoption.jsx:9-11 | no photo, no preview, no error, and the file input empty |
| PutForAdoption.AdoptionForm.HandlePhotoChange | frontend/src/Component/PutForAdoption.jsx:15-21 | the file input holds what was picked; a chosen file becomes the photo and its object URL the preview; a cancelled pick leaves photo and preview as they were |
| PutForAdoption.AdoptionForm.HandleSubmit | frontend/src/Component/PutForAdoption.jsx:23-47 | weight checked first, then the photo state; a request is sent and the error cleared exactly when both pass; the request carries the file input's current file, not the photo state; the dashboard opens once the request settles, and not when the fetch rejects |
| PutForAdoption.CancelledPickPostsNoFile | frontend/src/Component/PutForAdoption.jsx:15-46 | picking a photo and then cancelling the picker passes the photo check but posts no file, which the upload route answers with 500 |
| UpdateProfile.Prefill | frontend/src/Component/UpdateProfile.jsx:28-43 | the form has exactly the eight profile fields, each the user's value or '' |
| UpdateProfile.NoFileClearsPicture | backend/index.js:271 | a profile update sent without a new file leaves the stored picture name empty, whatever the photo action |
| UpdateProfile.ProfileEditor.constructor | frontend/src/Component/UpdateProfile.jsx:24-43 | prefilled form, no file, action 'keep', preview of the stored picture if any |
| UpdateProfile.ProfileEditor.HandleInputChange | frontend/src/Component/UpdateProfile.jsx:46-48 | one field takes the typed value and nothing else changes |
| UpdateProfile.ProfileEditor.HandleProfilePicChange | frontend/src/Component/UpdateProfile.jsx:50-57 | a chosen file becomes the file and preview, and the action 'change' |
| UpdateProfile.ProfileEditor.HandleRemoveProfilePic | frontend/src/Component/UpdateProfile.jsx:59-63 | no file, no preview, action 'remove' |
| UpdateProfile.ProfileEditor.HandleUndoRemove | frontend/src/Component/UpdateProfile.jsx:65-71 | action back to 'keep' and the stored picture previewed again |
| UpdateProfile.ProfileEditor.BuildSubmission | frontend/src/Component/UpdateProfile.jsx:73-87 | the submission carries the user's id, the eight fields in order with their form values, the action name, and the file exactly when the action is 'change' and a file is held |
| PetContext.IsDuplicate | frontend/src/Context/PetContext.jsx:13-15 | false on an empty list; throws on null details against a non-empty list; on a list without nulls, true exactly when some listed pet has the same id |
| PetContext.Arrive | frontend/src/Context/PetContext.jsx:47-49 | a detail the check calls new is appended at the end; otherwise the list is unchanged |
| PetContext.FreshSnapshotKeepsIdsDistinct | frontend/src/Context/PetContext.jsx:13-15 | checked against the current list, appending keeps the list free of nulls and repeated ids |
| PetContext.EmptySnapshotAppendsAll | frontend/src/Context/PetContext.jsx:18-56 | after the lists are cleared, the stale empty snapshot lets every arriving detail be appended |
| PetContext.EmptySnapshotAdmitsDuplicates | frontend/src/Context/PetContext.jsx:18-56 | the same pet delivered twice after a user change is listed twice |
| PetContext.PetProvider.constructor | frontend/src/Context/PetContext.jsx:8-9 | both lists start empty |
| PetContext.PetProvider.UserChanged | frontend/src/Context/PetContext.jsx:18-22 | a signed-in user clears both lists; otherwise nothing changes |
| PetContext.PetProvider.PetsFetched | frontend/src/Context/PetContext.jsx:31 | the id list is replaced and the details kept |
| PetContext.PetProvider.DetailRequests | frontend/src/Context/PetContext.jsx:51-55 | one details request per id, in list order |
| PetContext.PetProvider.DetailArrived | frontend/src/Context/PetContext.jsx:47-49 | one arriving detail updates the list as `Arrive` says |
| Dashboard.ViewFor | frontend/src/Component/Dashboard.jsx:355 | the user view exactly for role 'user' |
| Dashboard.AdminViewWithoutMembers | frontend/src/Component/Dashboard.jsx:214-240 | an admin gets the admin view and the member fetch; any other non-user role gets the admin view with no members fetched |
| Dashboard.RemovePetById | frontend/src/Component/Dashboard.jsx:263 | exactly the pets with another id remain, in order |
| Dashboard.RemoveMemberById | frontend/src/Component/Dashboard.jsx:280 | exactly the members with another id remain, in order |
| Dashboard.RemoveAbsentPet | frontend/src/Component/Dashboard.jsx:263 | removing an id that is not listed leaves the list unchanged |
| Dashboard.DashboardState.constructor | frontend/src/Component/Dashboard.jsx:255-285 | nothing pending, no error, no members |
| Dashboard.DashboardState.AskRemovePet | frontend/src/Component/Dashboard.jsx:255-257 | the pet awaits confirmation; nothing else changes |
| Dashboard.DashboardState.ConfirmRemovePet | frontend/src/Component/Dashboard.jsx:259-268 | nothing pending does nothing; a thrown request sets the error only; otherwise, whatever the response status, the pet's id leaves the list and nothing is pending |
| Dashboard.DashboardState.AskRemoveUser | frontend/src/Component/Dashboard.jsx:271-273 | the member awaits confirmation; nothing else changes |
| Dashboard.DashboardState.ConfirmRemoveUser | frontend/src/Component/Dashboard.jsx:275-285 | the same pattern on the member list |
| Body.Next | frontend/src/Component/Body.jsx:19-21 | from a valid index the next one is in range and equals index + 1 modulo 4 |
| Body.StepsIsModular | frontend/src/Component/Body.jsx:4-21 | n ticks from a valid index land on (index + n) modulo 4 |
| Body.FullCycle | frontend/src/Component/Body.jsx:4-21 | four ticks return to the starting image |
| Body.Carousel.constructor | frontend/src/Component/Body.jsx:13 | the first image is shown |
| Body.Carousel.Tick | frontend/src/Component/Body.jsx:19-21 | one tick advances the index modulo 4 and keeps it in range |
| RouteGuards.Provided | frontend/src/Context/UserContext.jsx:26 | the provided value has no `loading` key |
| RouteGuards.ProtectFromAdmin | frontend/src/Context/ProtectFromAdmin.jsx:5-20 | the placeholder exactly while loading; otherwise an admin is redirected to the dashboard and anyone else sees the page |
| RouteGuards.AdminGuardNeverLoads | frontend/src/Context/ProtectFromAdmin.jsx:7-12 | under the real provider the placeholder never shows, and the page shows exactly for non-admins |
| RouteGuards.AfterProbe | frontend/src/Context/ProtectFromAuthenticatedUsers.jsx:8-27 | authenticated exactly when the probe answered ok; a failed or thrown probe means anonymous |
| RouteGuards.AuthDecision | frontend/src/Context/ProtectFromAuthenticatedUsers.jsx:29-37 | placeholder while unknown, redirect home when authenticated, the page when anonymous |
| RouteGuards.AuthGuard.constructor | frontend/src/Context/ProtectFromAuthenticatedUsers.jsx:6 | the state starts unknown |
| RouteGuards.AuthGuard.Mounted | frontend/src/Context/ProtectFromAuthenticatedUsers.jsx:8-27 | the first probe decides the state; later calls change nothing |

## Left out

- The Express app setup is not modelled: CORS, cookie parsing, static serving, `listen`, and the database connection (backend/config/db.js is not part of this model). None of it changes a handler's decision.
- Multer is not modelled. An upload is the stored file name, or none. The upload directory is a set of names.
- File deletion (`fs.unlink`) is modelled as removal from that set. Its asynchronous completion and ignored errors are not modelled.
- Concurrency is not modelled. Each handler runs atomically, so the race between the duplicate checks and `create` is absent. The unique indexes that would catch that race are never exercised.
- Database failures are not modelled, except the failed lookup in `verifyAdmin`. This leaves out the 500 and 400 answers of the catch blocks in `GET /api/users`, `/api/pets` and `/api/community`.
- Response bodies are modelled only for the documents a handler returns. Message texts and `success` flags are left out.
- Timestamps (`createdAt`, `updatedAt`) are not modelled.
- A missing form field is modelled as the empty string. Where Mongoose or bcrypt tell the two apart, the model does not capture the difference:
- Api.Patched: a field absent from the update body is `undefined`, which Mongoose drops from the update so the stored value stays; the model writes the trimmed empty string instead. So an absent `fullname` or `email` gives 400 in the model, where the source answers 200, and an absent address field is cleared.
- Api.NewUser: an absent password makes `bcrypt.hash` fail, so the digest is `undefined`, `required` fails and no response is sent; the model hashes the empty string and can answer 201.
- Api.Server.UpdateProfile and Api.Server.RegisterUser: a duplicate lookup with an absent email or contact (`findOne({email: undefined})`) is modelled as a lookup of the empty string; how MongoDB matches an undefined filter value is not modelled.
- The browser's form-validation attributes (`required`, `min`) are not modelled. The model sends what the handlers receive.
- Register.PasswordMessage, Register.ConfirmMessage and Register.HandleSubmit: a password's length counts Unicode characters, while JavaScript's `length` counts UTF-16 code units, so a password of three characters outside the Basic Multilingual Plane is too short in the model and long enough in the browser.
- Schema.PetValid: the description's `maxLength: 500` is checked on Unicode characters, not UTF-16 code units, so a description with characters outside the Basic Multilingual Plane may pass here and fail the schema.
- Jwt.Sign: the signature is a symbolic HMAC term that holds the key. No property here depends on the key being hidden, and unforgeability is not modelled: verification only recomputes the term.
- Text.Lower: is ASCII-only, because no Unicode case mapping is modelled.
- Bcrypt.Hash and Bcrypt.Digest: the digest is a symbolic term that holds the password's first 72 characters, so "the raw password is never stored" holds only in that a `Digest` is a different type from a `string`; a digest that hides the password would need an uninterpreted function. Bcrypt.Hash is also deterministic, because the random salt is not modelled. Two hashes of one password are equal in the model and different in reality. Only `Compare` is used on digests, so no handler decision depends on this.
- Bcrypt.KeyOf: counts characters, not UTF-8 bytes, toward the 72-byte limit.
- The password schema's `minLength: 6` is checked against the 60-character digest, so it can never fail. The model therefore leaves it out of `UserValid`.
- Jwt.Verify: token expiry is not modelled (the server sets none).
- JavaScript numbers are modelled as unbounded reals. A weight that cannot be cast is `NaN`. Floating-point rounding is not modelled.
- The dashboard's pet list is modelled without the null entries that `PetContext` can hold.
- `PetContext`'s interleavings of asynchronous responses are modelled only through the snapshot the duplicate check reads.
- Rendering, alerts, pop-ups, navigation delays and the `setUser` calls after a response are not modelled.
- The response handling of `UpdateProfile`'s submit and the fetch errors of `BrowsePets` are not modelled.
- Community.jsx, Navbar.jsx, Login.jsx, App.jsx and the other page components are not part of this model.

## Findings

| source | as written | input that shows it | evidently intended | confidence | as-written member | corrected member |
|---|---|---|---|---|---|---|
| backend/index.js:329-339 | `findById` and `findByIdAndDelete` cast the route parameter to an ObjectId, which accepts upper-case hex digits, but the owner's list is filtered with `pet != id`, which compares each stored id's lower-case text with the parameter as typed | `DELETE /api/deletepet/507F1F77BCF86CD799439011` for a stored pet `507f1f77bcf86cd799439011`: the pet is deleted and its id stays in the owner's `pets` | whenever the pet is deleted, its id also leaves its owner's list | medium (not executed; relies on ObjectId's hex cast ignoring case and on `!=` comparing through `toString`) | Store.NonCanonicalDeleteDangles | Api.Server.DeletePet |
