/** The edit-profile screen's form state and the guards of its handlers.

Every handler is a function from the screen's state and the outcomes of the
external calls it awaits (upload, password change, profile update, document
deletion, sign-out, the two confirmation dialogs) to its new state and the
calls, dialogs and navigation it performs, in order.
 */
module EditProfile {
  import opened Wrappers
  import opened CurrentUser
  import opened Routes

  /** The editable profile fields. */
  datatype ProfileForm = ProfileForm(displayName: string, bio: string)

  const EmptyForm: ProfileForm := ProfileForm("", "")

  /** The `name` attribute of the input that fired a change. */
  datatype FormInput = DisplayNameInput | BioInput

  /** The two password inputs: the current password and the new one. */
  datatype PasswordFields = PasswordFields(current: string, replacement: string)

  const ClearedPasswords: PasswordFields := PasswordFields("", "")

  /** 5 MiB, the largest accepted profile image. */
  const MaxImageBytes: nat := 5 * 1024 * 1024

  const FileTooLarge: string := "File size must be less than 5MB"
  const PictureUpdated: string := "Profile picture updated successfully"
  const PictureFailed: string := "Failed to upload profile picture"
  const PasswordUpdated: string := "Password updated successfully"
  const PasswordFailed: string := "Failed to update password"
  const ProfileFailed: string := "Failed to update profile. Please try again."
  const DeleteQuestion: string :=
    "Are you sure you want to delete your account? This action cannot be undone and will remove all your data."
  const DeleteQuestionAgain: string := "Please confirm again: Do you really want to delete your account?"
  const DeleteFailed: string := "Failed to delete account. Please try again."

  /** Something a handler does outside its own state. */
  datatype Effect =
    | Alert(message: string)
    | Confirm(question: string)
    | UploadImage(file: ImageFile)
    | ChangePassword(current: string, replacement: string)
    | SaveProfile(fields: Patch)
    | DeleteProfileDocument(key: string)
    | SignOut
    | Navigate(route: string)

  // ---------------------------------------------------------------------------
  // Form state

  /** `bio || ''`. */
  function BioOrEmpty(bio: Option<string>): (s: string)
    ensures bio.Some? ==> s == bio.value
    ensures bio.None? ==> s == ""
  {
    if bio.Some? then bio.value else ""
  }

  /** The effect that fills the form whenever the profile changes: with a
      profile, its display name and bio (a missing bio shown empty); without
      one, the form is left as it is. */
  function InitForm(form: ProfileForm, user: Option<Profile>): (r: ProfileForm)
    ensures user.None? ==> r == form
    ensures user.Some? ==> r.displayName == user.value.displayName
    ensures user.Some? && user.value.bio.Some? ==> r.bio == user.value.bio.value
    ensures user.Some? && user.value.bio.None? ==> r.bio == ""
  {
    match user
    case None => form
    case Some(u) => ProfileForm(u.displayName, BioOrEmpty(u.bio))
  }

  /** Filling the form from a profile forgets whatever was typed before. */
  lemma InitFormOverwritesEdits(f1: ProfileForm, f2: ProfileForm, user: Profile)
    ensures InitForm(f1, Some(user)) == InitForm(f2, Some(user))
  {
  }

  /** `handleChange`: the named field takes the typed value. */
  function HandleChange(form: ProfileForm, input: FormInput, value: string): (r: ProfileForm)
    ensures input.DisplayNameInput? ==> r.displayName == value && r.bio == form.bio
    ensures input.BioInput? ==> r.bio == value && r.displayName == form.displayName
  {
    match input
    case DisplayNameInput => form.(displayName := value)
    case BioInput => form.(bio := value)
  }

  /** The last value typed into a field wins, and edits to the two fields
      commute. */
  lemma ChangesComposeFieldwise(form: ProfileForm, a: FormInput, b: FormInput, x: string, y: string)
    ensures a == b ==> HandleChange(HandleChange(form, a, x), b, y) == HandleChange(form, b, y)
    ensures a != b ==>
      HandleChange(HandleChange(form, a, x), b, y) == HandleChange(HandleChange(form, b, y), a, x)
  {
  }

  // ---------------------------------------------------------------------------
  // Handlers

  /** Some effect is an upload to the identity provider. */
  predicate Uploads(effects: seq<Effect>) {
    exists i :: 0 <= i < |effects| && effects[i].UploadImage?
  }

  /** `handleImageUpload`: nothing without a file; a file over 5 MiB is
      refused with a notice and not uploaded; any other file is uploaded and
      the upload's outcome announced. */
  function HandleImageUpload(file: Option<ImageFile>, upload: Outcome): (effects: seq<Effect>)
    ensures file.None? ==> effects == []
    ensures Uploads(effects) <==> file.Some? && file.value.size <= MaxImageBytes
    ensures file.Some? && file.value.size > MaxImageBytes ==> effects == [Alert(FileTooLarge)]
    ensures file.Some? && file.value.size <= MaxImageBytes ==>
      effects == [UploadImage(file.value), Alert(if upload.Succeeded? then PictureUpdated else PictureFailed)]
  {
    match file
    case None => []
    case Some(f) =>
      if f.size > MaxImageBytes then [Alert(FileTooLarge)]
      else
        var effects := [UploadImage(f), Alert(if upload.Succeeded? then PictureUpdated else PictureFailed)];
        assert effects[0].UploadImage?;
        effects
  }

  /** The size bound is inclusive: a file of exactly 5 MiB is uploaded, one
      byte more is not. */
  lemma ImageSizeBoundary(upload: Outcome)
    ensures Uploads(HandleImageUpload(Some(ImageFile(5242880)), upload))
    ensures HandleImageUpload(Some(ImageFile(5242881)), upload) == [Alert(FileTooLarge)]
  {
  }

  /** The size check is monotone: a smaller file is uploaded whenever a larger
      one is, and a larger file is refused whenever a smaller one is. */
  lemma ImageUploadMonotone(smaller: nat, larger: nat, upload: Outcome)
    requires smaller <= larger
    ensures Uploads(HandleImageUpload(Some(ImageFile(larger)), upload)) ==>
              Uploads(HandleImageUpload(Some(ImageFile(smaller)), upload))
    ensures HandleImageUpload(Some(ImageFile(smaller)), upload) == [Alert(FileTooLarge)] ==>
              HandleImageUpload(Some(ImageFile(larger)), upload) == [Alert(FileTooLarge)]
  {
  }

  /** The password inputs after a change attempt, and its effects. */
  datatype PasswordChangeResult = PasswordChangeResult(fields: PasswordFields, effects: seq<Effect>)

  /** `handlePasswordChange`: nothing unless both passwords are filled in;
      otherwise the change is requested, and on success both inputs are
      cleared, while on failure they are kept and the thrown message shown. */
  function HandlePasswordChange(pw: PasswordFields, change: Outcome): (r: PasswordChangeResult)
    ensures (pw.current == "" || pw.replacement == "") ==> r.fields == pw && r.effects == []
    ensures ChangePassword(pw.current, pw.replacement) in r.effects <==>
      pw.current != "" && pw.replacement != ""
    ensures pw.current != "" && pw.replacement != "" && change.Succeeded? ==>
      r.fields == ClearedPasswords
      && r.effects == [ChangePassword(pw.current, pw.replacement), Alert(PasswordUpdated)]
    ensures pw.current != "" && pw.replacement != "" && change.Threw? ==>
      r.fields == pw
      && r.effects == [ChangePassword(pw.current, pw.replacement), Alert(MessageOr(change, PasswordFailed))]
  {
    if pw.current == "" || pw.replacement == "" then PasswordChangeResult(pw, [])
    else
      var call := ChangePassword(pw.current, pw.replacement);
      match change
      case Succeeded => PasswordChangeResult(ClearedPasswords, [call, Alert(PasswordUpdated)])
      case Threw(_) => PasswordChangeResult(pw, [call, Alert(MessageOr(change, PasswordFailed))])
  }

  /** A successful change settles the inputs: pressing the button again does
      nothing. A failed change keeps them, so pressing again retries the very
      same request. */
  lemma PasswordChangeSettles(pw: PasswordFields, first: Outcome, second: Outcome)
    ensures first.Succeeded? ==>
              var settled := HandlePasswordChange(pw, first).fields;
              HandlePasswordChange(settled, second) == PasswordChangeResult(settled, [])
    ensures first.Threw? ==>
              HandlePasswordChange(HandlePasswordChange(pw, first).fields, second) == HandlePasswordChange(pw, second)
  {
  }

  /** The fields `handleSubmit` sends: the form's display name and bio and
      nothing else. */
  function FormPatch(form: ProfileForm): (p: Patch)
    ensures p.Keys == {DisplayNameKey, BioKey}
    ensures p[DisplayNameKey] == TextValue(form.displayName) && p[BioKey] == TextValue(form.bio)
  {
    map[DisplayNameKey := TextValue(form.displayName), BioKey := TextValue(form.bio)]
  }

  /** `handleSubmit`: nothing without a profile; otherwise the form's fields
      are saved and the screen returns to the dashboard, or a notice is shown
      when saving fails. */
  function HandleSubmit(user: Option<Profile>, form: ProfileForm, update: Outcome): (effects: seq<Effect>)
    ensures user.None? ==> effects == []
    ensures user.Some? ==> |effects| == 2 && effects[0] == SaveProfile(FormPatch(form))
    ensures user.Some? && update.Succeeded? ==> effects[1] == Navigate(DashboardRoute)
    ensures user.Some? && update.Threw? ==> effects[1] == Alert(ProfileFailed)
  {
    if user.None? then []
    else [SaveProfile(FormPatch(form)), if update.Succeeded? then Navigate(DashboardRoute) else Alert(ProfileFailed)]
  }

  /** What reaches the database when a signed-in user saves the form: exactly
      the display name, the bio and the update time. */
  lemma SubmittedWriteTouchesOnlyFormFields(
    who: Identity, user: Profile, form: ProfileForm, update: Outcome, now: Timestamp)
    ensures var effects := HandleSubmit(Some(user), form, update);
            var w := UpdateProfile(Some(who), effects[0].fields, now);
            && w.Ok? && w.value.key == who.id
            && w.value.fields.Keys == {DisplayNameKey, BioKey, UpdatedAtKey}
            && w.value.fields[DisplayNameKey] == TextValue(form.displayName)
            && w.value.fields[BioKey] == TextValue(form.bio)
            && w.value.fields[UpdatedAtKey] == Time(now)
  {
  }

  /** `handleDeleteAccount`: with a profile, asks twice; only when both
      answers are yes does it delete the profile document, then sign out,
      then go to the sign-in page. A failing step stops the sequence with a
      notice. */
  function HandleDeleteAccount(
    user: Option<Profile>, firstAnswer: bool, secondAnswer: bool, deletion: Outcome, signOut: Outcome)
    : (effects: seq<Effect>)
    ensures user.None? ==> effects == []
    // the first question is always asked, the second only after a yes
    ensures user.Some? && !firstAnswer ==> effects == [Confirm(DeleteQuestion)]
    ensures user.Some? && firstAnswer && !secondAnswer ==>
      effects == [Confirm(DeleteQuestion), Confirm(DeleteQuestionAgain)]
    // after two yeses the owner's document goes first
    ensures user.Some? && firstAnswer && secondAnswer ==>
      |effects| >= 4
      && effects[..3] == [Confirm(DeleteQuestion), Confirm(DeleteQuestionAgain), DeleteProfileDocument(user.value.id)]
    ensures user.Some? && firstAnswer && secondAnswer && deletion.Threw? ==> effects[3..] == [Alert(DeleteFailed)]
    ensures user.Some? && firstAnswer && secondAnswer && deletion.Succeeded? ==>
      effects[3..] == [SignOut, if signOut.Succeeded? then Navigate(SignInRoute) else Alert(DeleteFailed)]
  {
    if user.None? then []
    else if !firstAnswer then [Confirm(DeleteQuestion)]
    else if !secondAnswer then [Confirm(DeleteQuestion), Confirm(DeleteQuestionAgain)]
    else
      var asked := [Confirm(DeleteQuestion), Confirm(DeleteQuestionAgain), DeleteProfileDocument(user.value.id)];
      if deletion.Threw? then asked + [Alert(DeleteFailed)]
      else asked + [SignOut, if signOut.Succeeded? then Navigate(SignInRoute) else Alert(DeleteFailed)]
  }

  /** The document is deleted exactly when there is a profile and both
      questions are answered yes; signing out always comes after the
      deletion, and leaving for the sign-in page after both. */
  lemma DeletionNeedsDoubleConfirmation(
    user: Option<Profile>, firstAnswer: bool, secondAnswer: bool, deletion: Outcome, signOut: Outcome)
    ensures var effects := HandleDeleteAccount(user, firstAnswer, secondAnswer, deletion, signOut);
            (exists i :: 0 <= i < |effects| && effects[i].DeleteProfileDocument?) <==>
              user.Some? && firstAnswer && secondAnswer
    ensures var effects := HandleDeleteAccount(user, firstAnswer, secondAnswer, deletion, signOut);
            forall j :: 0 <= j < |effects| && effects[j].SignOut? ==>
              exists i :: 0 <= i < j && effects[i].DeleteProfileDocument?
    ensures var effects := HandleDeleteAccount(user, firstAnswer, secondAnswer, deletion, signOut);
            Navigate(SignInRoute) in effects <==>
              user.Some? && firstAnswer && secondAnswer && deletion.Succeeded? && signOut.Succeeded?
  {
    var effects := HandleDeleteAccount(user, firstAnswer, secondAnswer, deletion, signOut);
    if user.Some? && firstAnswer && secondAnswer {
      assert effects[2].DeleteProfileDocument?;
    }
  }
}
