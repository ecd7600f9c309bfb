# BookItApp account screens — a Dafny model

BookItApp's account screens sit on an identity provider (sign-in, sign-up,
sessions, passwords, profile images) and a document database (one profile
document per user, with live listeners). The logic the application owns is
small. This project lifts it out of the React hooks and models it as pure
functions:

- **`useCurrentUser`** (module `CurrentUser`). A reducer drives the view
  `{user, isLoading, error, needsProfileSetup}` from four events: the identity
  resolved to nobody, a snapshot of an existing document, a snapshot of a
  missing document, and a listener error. A hook-level `Step` adds identity
  changes and the open listener's key. `Published` is what the hook returns.
  The write operations `createProfile`, `updateProfile` and `setProfileImage`
  return the call they would make, or the "No authenticated user" error.
  The role predicates are `useIsProvider` and `useIsBooker`.
- **Dashboard** (module `Dashboard`, with the string layer in `Text`). It
  models the avatar initials, the card title and the welcome greeting.
  `String.prototype.split(' ')` is modelled with its empty pieces, and
  `Split` is proved to invert `Join`.
- **Sign-up** (module `SignUp`). It models the password checklist and the
  submit handler's ordered validation and routing.
- **Edit profile** (module `EditProfile`). It models form initialisation,
  single-field edits, the 5 MiB image bound, the password-change guard and
  reset, the profile-save payload, and the double-confirmation delete
  sequence.

The clock (`now`), the identity and every external call's outcome are
parameters. Handlers return the sequence of effects they perform: calls,
dialogs, notices and navigation. `scenarios.dfy` proves what the hook
publishes after concrete sign-in, creation, error and identity-switch
sequences.

These properties are worth knowing about the code as written:

- A listener error keeps the last known profile.
- Losing the identity clears the profile but not the error.
- The hook's own loading flag never becomes true again once it is false.
  So a direct switch from one identity to another keeps the previous
  profile on show, not loading, right after the switch
  (`SwitchKeepsPreviousProfileUntilSnapshot`), and it stays on show until
  the new identity's first snapshot (`PreviousProfileShownUntilOwnSnapshot`).
- A name made only of spaces is truthy, so it gives empty initials rather
  than the email fallback (`InitialsEmptyIffBlankName`).
- Because the defaults use `||`, an explicit zero duration becomes the
  default.

## Model

| member | source | states |
|---|---|---|
| CurrentUser.Reduce | src/hooks/useCurrentUser.ts:33-65 | Every event settles loading. An existing-document snapshot publishes its data and a missing one asks for setup; both clear the error. A listener error records itself and keeps the user and the setup flag. Losing the identity clears the user and setup flag but keeps the error |
| CurrentUser.ReducePreservesWellFormed | src/hooks/useCurrentUser.ts:26-65 | The view never shows a profile while asking for setup, and it is loading only in its initial, empty, error-free state |
| CurrentUser.ReduceIdempotent | src/hooks/useCurrentUser.ts:50-65 | Delivering the same event twice gives the same view as delivering it once |
| CurrentUser.SnapshotForgetsHistory | src/hooks/useCurrentUser.ts:50-59 | After a snapshot the view does not depend on the view before it |
| CurrentUser.SettledAfterSnapshot | src/hooks/useCurrentUser.ts:50-59 | After a snapshot from the open listener, loading is off and exactly one of "profile present" and "needs setup" holds, matching the document's existence |
| CurrentUser.SnapshotEvent | src/hooks/useCurrentUser.ts:50-57 | A snapshot becomes the existing-document event, carrying its data, exactly when the document exists, and the missing-document event otherwise |
| CurrentUser.ListenerKey | src/hooks/useCurrentUser.ts:33-47 | A listener is opened exactly for a loaded, present identity, and on that identity's own document |
| CurrentUser.Step | src/hooks/useCurrentUser.ts:32-69 | An identity change closes the old listener and opens one only for a loaded identity. An unloaded identity leaves the view alone, a loaded absent one resets it, and a present one does not touch it. A delivery from the open listener applies the snapshot's event, or the error, to the view through the reducer and keeps the listener. A delivery from a listener other than the open one changes nothing |
| CurrentUser.StepPreservesInvariant | src/hooks/useCurrentUser.ts:32-69 | One step keeps the open listener on the current loaded identity's document and keeps the view well formed |
| CurrentUser.RunPreservesInvariant | src/hooks/useCurrentUser.ts:26-69 | Any sequence of events keeps that invariant |
| CurrentUser.ReachableHooksSatisfyInvariant | src/hooks/useCurrentUser.ts:26-69 | Every state reachable from the initial state satisfies the invariant |
| CurrentUser.LoadingNeverResumes | src/hooks/useCurrentUser.ts:27-65 | Once the hook's own loading flag is off, no sequence of events turns it back on |
| CurrentUser.StepIdempotent | src/hooks/useCurrentUser.ts:32-69 | Any event delivered twice in a row gives the same hook state as delivering it once |
| CurrentUser.StaleDeliveryDiscarded | src/hooks/useCurrentUser.ts:43-68 | After a switch to an identity, a delivery for any other document leaves the hook unchanged |
| CurrentUser.SwitchKeepsPreviousProfileUntilSnapshot | src/hooks/useCurrentUser.ts:33-47 | Right after a direct switch to another identity, the previous profile is still published, with loading off |
| CurrentUser.PreviousProfileShownUntilOwnSnapshot | src/hooks/useCurrentUser.ts:43-65 | While the listener is open on a user's document and a profile is shown, any run of events without an identity change and without a snapshot of that document keeps the same profile and the same listener |
| CurrentUser.IdentityImageUrl | src/hooks/useCurrentUser.ts:146 | The image URL is present exactly when the identity has a non-empty one, and then it is that URL |
| CurrentUser.Published | src/hooks/useCurrentUser.ts:144-153 | Published loading is on exactly when the identity is not yet loaded or the hook's own view is still loading. User, error and setup flag are passed through, and the image URL comes from the identity |
| CurrentUser.ImageUrlIgnoresProfile | src/hooks/useCurrentUser.ts:146 | Two hook states with the same identity publish the same image URL, whatever their profile state |
| CurrentUser.OrDefault | src/hooks/useCurrentUser.ts:88-89 | A given non-zero number is kept; a missing number or zero takes the fallback |
| CurrentUser.BuildNewUser | src/hooks/useCurrentUser.ts:78-93 | The record's id is the identity's, its email is the primary email or empty, and the input fields are copied. The durations are defaulted, and created and updated times both equal `now` |
| CurrentUser.BuiltDurationsAreDefaultedOrGiven | src/hooks/useCurrentUser.ts:88-89 | Built durations are never zero. The session length is 60 exactly when it was omitted, zero or 60. The buffer is 15 exactly when it was omitted, zero or 15 |
| CurrentUser.CreateProfile | src/hooks/useCurrentUser.ts:72-96 | Fails with "No authenticated user" exactly when there is no identity. Otherwise it writes the built record at the identity's key |
| CurrentUser.MergeUpdate | src/hooks/useCurrentUser.ts:115-118 | The payload has the caller's keys plus the update time. The update time is `now`, and every other key keeps the caller's value |
| CurrentUser.MergeIgnoresCallerTimestamp | src/hooks/useCurrentUser.ts:115-118 | A caller-supplied update time, or its absence, makes no difference to the payload |
| CurrentUser.UpdateProfile | src/hooks/useCurrentUser.ts:106-118 | Fails with "No authenticated user" exactly when there is no identity. Otherwise it updates the identity's document with the merged payload |
| CurrentUser.SetProfileImage | src/hooks/useCurrentUser.ts:128-135 | Fails with "No authenticated user" exactly when there is no identity. Otherwise it hands the file, unchecked, to the identity's image upload |
| CurrentUser.NoIdentityNoWrite | src/hooks/useCurrentUser.ts:72-142 | Without an identity, none of the three operations produces a call |
| CurrentUser.WritesTargetOwnUser | src/hooks/useCurrentUser.ts:72-142 | Each of the three write operations produces a call exactly when someone is signed in, and that call always targets the signed-in user's own id |
| CurrentUser.IsProvider | src/hooks/useCurrentUser.ts:157-160 | No profile is never a provider. A profile is a provider exactly when its role is not `booker` |
| CurrentUser.IsBooker | src/hooks/useCurrentUser.ts:162-166 | No profile is never a booker. A profile is a booker exactly when its role is not `provider` |
| CurrentUser.RolesPartitionProfiles | src/hooks/useCurrentUser.ts:157-166 | Provider or booker holds exactly when there is a profile. Both hold exactly for role `both`, and each alone holds exactly for its own role |
| ProfileScenarios.SignInWithoutProfileNeedsSetup | src/hooks/useCurrentUser.ts:43-59 | Signing in and then receiving a missing-document snapshot publishes no user, no loading, no error and "needs setup" |
| ProfileScenarios.CreateThenSnapshotSyncs | src/hooks/useCurrentUser.ts:78-96 | Creating Ann's profile writes her id, email, name, role and the 60/15 defaults. The snapshot of that record then ends setup and shows it |
| ProfileScenarios.ErrorKeepsSyncedProfile | src/hooks/useCurrentUser.ts:50-65 | An error after a synced snapshot publishes the same profile together with the error |
| ProfileScenarios.LateSnapshotForPreviousIdentityIgnored | src/hooks/useCurrentUser.ts:32-69 | After signing out and in as another user, a late snapshot for the first user is discarded. Only the second user's profile and image are shown |
| Text.Split | src/pages/Dashboard.tsx:21 | Splitting on a space gives at least one piece, no piece contains a space, and joining the pieces with spaces gives back the string |
| Text.SplitJoin | src/pages/Dashboard.tsx:21 | Splitting inverts joining: any non-empty list of space-free pieces is recovered from its join |
| Text.FirstPieceIsLongestSpaceFreePrefix | src/pages/Dashboard.tsx:158 | The first piece is a prefix that ends at the end of the string or just before a space |
| Text.FirstChars | src/pages/Dashboard.tsx:22-23 | One character per non-empty piece, each of them the first character of some non-empty piece, and every such first character occurs. When no piece is empty, position `j` holds the first character of piece `j` |
| Text.FirstCharsAppend | src/pages/Dashboard.tsx:22-23 | The first characters of two concatenated piece lists are those of the first list followed by those of the second, so the pieces' order is kept |
| Text.FirstCharsOfSplitAreWordStarts | src/pages/Dashboard.tsx:20-23 | The first characters of the split pieces are exactly the characters at word starts. A word start is a non-space after a space or at the start. Empty pieces contribute nothing |
| Text.UpperChar | src/pages/Dashboard.tsx:24 | An upper-cased character is never a lower-case ASCII letter. A lower-case letter maps to its capital, and anything else is kept |
| Text.Upper | src/pages/Dashboard.tsx:24 | Upper-casing keeps the length, upper-cases every position, and leaves no lower-case ASCII letter |
| Text.Take | src/pages/Dashboard.tsx:25 | Slicing to `n` gives a prefix of length `min(n, length)` |
| Dashboard.Initials | src/pages/Dashboard.tsx:18-28 | At most two characters, none lower-case. With a name: the first two word-start letters, upper-cased. Otherwise: the upper-cased first character of a non-empty email, else "?" |
| Dashboard.InitialsEmptyIffBlankName | src/pages/Dashboard.tsx:19-27 | The initials are empty exactly when the name is present and consists only of spaces |
| Dashboard.Title | src/pages/Dashboard.tsx:73 | The title is never empty: it is the name when there is one, else "Welcome" |
| Dashboard.TitleAndGreetingAgree | src/pages/Dashboard.tsx:73 | A named user is greeted, at line 158, by the first word of the title. The email never changes the title. The title is "Welcome" exactly when there is no name or the name is "Welcome" |
| Dashboard.FirstWord | src/pages/Dashboard.tsx:158 | The greeted word is the longest space-free prefix of the name |
| Dashboard.Greeting | src/pages/Dashboard.tsx:158 | With a name the greeting is "Welcome back, <first word>!", otherwise "Welcome back!" |
| Dashboard.GreetingUsesFirstWordOnly | src/pages/Dashboard.tsx:158 | Two names that share their first word and then a space give the same greeting, whatever follows |
| SignUp.PasswordRequirements | src/pages/SignUp.tsx:24-27 | Two requirements. "At least 6 characters" is met iff the length is at least 6. "Passwords match" is met iff the passwords are equal and non-empty |
| SignUp.ValidationError | src/pages/SignUp.tsx:33-41 | A mismatch is reported first. The length error is reported only for matching passwords. No error iff the passwords match and have at least 6 characters |
| SignUp.RequirementsMetIffValid | src/pages/SignUp.tsx:24-41 | The checklist is all met exactly when submit validation passes |
| SignUp.HandleSubmit | src/pages/SignUp.tsx:29-57 | `signUp` is called exactly when validation passes, and it is the first effect. A validation failure makes no call and shows its message. After a successful call the error stays cleared and the next route is chosen by `needsVerification`. A failure shows the thrown message or "Failed to sign up" |
| Wrappers.MessageOr | src/pages/SignUp.tsx:53 | A thrown message is shown as it is, and a throw without a message shows the fallback |
| SignUp.RouteAfterSignUp | src/pages/SignUp.tsx:46-51 | After a successful sign-up the route is "/verify-email" iff verification is needed, else "/dashboard" |
| EditProfile.BioOrEmpty | src/pages/EditProfile.tsx:35 | A present bio is kept, and a missing one becomes "" |
| EditProfile.InitForm | src/pages/EditProfile.tsx:31-38 | Without a profile the form is unchanged. With one, the form copies the display name, and the bio or "" when it is missing |
| EditProfile.InitFormOverwritesEdits | src/pages/EditProfile.tsx:31-38 | Filling from a profile gives the same form whatever was typed before |
| EditProfile.HandleChange | src/pages/EditProfile.tsx:40-46 | The named field takes the value and the other field is unchanged |
| EditProfile.ChangesComposeFieldwise | src/pages/EditProfile.tsx:40-46 | The last edit to a field wins, and edits to different fields commute |
| EditProfile.HandleImageUpload | src/pages/EditProfile.tsx:48-66 | No file: nothing happens. A file over 5·1024·1024 bytes gets only the size notice. A file is uploaded iff it is present and within the bound, and the upload's outcome is then announced |
| EditProfile.ImageSizeBoundary | src/pages/EditProfile.tsx:52-55 | A file of exactly 5 MiB is uploaded; one byte more is refused |
| EditProfile.ImageUploadMonotone | src/pages/EditProfile.tsx:52-55 | A smaller file is uploaded whenever a larger one is, and a larger file is refused whenever a smaller one is |
| EditProfile.HandlePasswordChange | src/pages/EditProfile.tsx:69-83 | The change is requested iff both inputs are non-empty, and otherwise nothing happens. On success both inputs become "". On failure they are kept and the thrown message or fallback is shown |
| EditProfile.PasswordChangeSettles | src/pages/EditProfile.tsx:69-83 | After a successful change, pressing again does nothing. After a failed one the inputs are kept, so pressing again repeats the same request |
| EditProfile.FormPatch | src/pages/EditProfile.tsx:91-94 | The save payload has exactly the display-name and bio keys, with the form's values |
| EditProfile.HandleSubmit | src/pages/EditProfile.tsx:85-103 | Without a profile nothing happens. Otherwise the form's fields are saved, then the screen goes to the dashboard, or shows a notice on failure |
| EditProfile.SubmittedWriteTouchesOnlyFormFields | src/pages/EditProfile.tsx:87-94 | A save by a signed-in user writes exactly the display name, the bio and the update time, at the user's document |
| EditProfile.HandleDeleteAccount | src/pages/EditProfile.tsx:105-134 | Without a profile nothing happens. A "no" to the first or second question stops after that question. Two yeses delete the owner's document, then sign out, then go to sign-in. Any failure ends with a notice |
| EditProfile.DeletionNeedsDoubleConfirmation | src/pages/EditProfile.tsx:108-127 | The document is deleted iff there is a profile and both answers are yes. Every sign-out comes after the deletion. Sign-in is reached iff every step succeeds |

## Left out

- src/pages/SignIn.tsx: it only forwards credentials and starts an OAuth redirect. The sign-up screen's Google button (`handleGoogleSignUp`) and the dashboard's `handleSignOut` are left out for the same reason.
- The SDK calls themselves (`onSnapshot`, `setDoc`, `updateDoc`, `deleteDoc`, `setProfileImage`, `changePassword`, `signUp`, `signOut`) are outside the model. Their outcomes are parameters, and the write operations return the call rather than performing it. How the database merges a partial update, and its failure on a missing document, are the database's behaviour.
- CurrentUser.Step: after `unsubscribe()` the database delivers nothing from the closed listener. The model represents that guarantee by accepting deliveries only for the open listener's document key. A late delivery from an earlier listener on the same key is therefore not distinguished.
- The clock is the parameter `now`. So the update time is not claimed to be later than the previous one.
- React effect scheduling, re-render batching and the interleaving of writes with snapshots are left out. The busy flags `isSaving`, `isUploading` and `isDeleting` (and the sign-up screen's `isLoading` and `isGoogleLoading`), the loading screen, `console.error` and all rendering are left out too. This includes the avatar letter fallback at src/pages/EditProfile.tsx:190.
- Error kinds: the code throws one plain error, so there is a single `Error` shape. A thrown non-`Error` value is an outcome without a message.
- Text.UpperChar: upper-cases ASCII letters only. JavaScript's full Unicode case mapping is left out, including mappings that change length. Characters are Dafny `char`s, not UTF-16 code units.
- SignUp.ValidationError: lengths count Dafny `char`s. JavaScript's `password.length` counts UTF-16 code units, so a password with characters outside the Basic Multilingual Plane is measured differently.
- SignUp.PasswordRequirements: the "at least 6 characters" line counts Dafny `char`s, not the UTF-16 code units of `password.length`, for the same reason.
- CurrentUser.OrDefault: durations are integers. JavaScript's `NaN`, which `||` would also replace, and fractional numbers are left out.
- EditProfile.InitForm: a stored profile's display name is always a string here. A document that lacks the field, which `|| ''` would also show as empty, is not modelled; only the bio is optional.
- Snapshot data is taken to be a well-formed profile. Checking the shape of stored documents is not modelled.
- src/types and src/contexts/AuthContext are not part of this model. The profile fields follow the record that `createProfile` builds. The dashboard's account has the two fields the page reads: name and email.
