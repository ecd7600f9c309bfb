/** The profile synchronisation hook `useCurrentUser`.

It bridges the identity provider's signed-in user (the identity) to a live
profile document in the document database. The hook keeps a view
`{user, isLoading, error, needsProfileSetup}` that a pure reducer drives from
listener events, publishes it with the identity's loading flag and image URL,
and offers three write operations that fail when nobody is signed in.

The clock, the identity provider and the document database are parameters:
a write operation returns the call it would make instead of making it.
 */
module CurrentUser {
  import opened Wrappers

  /** A reading of the clock (`Timestamp.now()`); only compared for equality. */
  type Timestamp = int

  /** The identity provider's signed-in user, read-only to the hook. */
  datatype Identity = Identity(id: string, primaryEmail: Option<string>, imageUrl: Option<string>)

  datatype Role = Provider | Booker | Both

  /** The profile document stored at the key of its owner's identity. */
  datatype Profile = Profile(
    id: string,
    email: string,
    displayName: string,
    role: Role,
    timezone: string,
    defaultSessionMinutes: int,
    bufferMinutes: int,
    bio: Option<string>,
    createdAt: Timestamp,
    updatedAt: Timestamp
  )

  /** What `createProfile` takes: a profile without its email, identifiers or
      timestamps, with the two durations optional. */
  datatype ProfileInput = ProfileInput(
    displayName: string,
    role: Role,
    timezone: string,
    defaultSessionMinutes: Option<int>,
    bufferMinutes: Option<int>,
    bio: Option<string>
  )

  /** The keys of a profile document, for partial updates. */
  datatype Field =
    | IdKey | EmailKey | DisplayNameKey | RoleKey | TimezoneKey
    | DefaultSessionMinutesKey | BufferMinutesKey | BioKey | CreatedAtKey | UpdatedAtKey

  datatype Value = TextValue(text: string) | Number(number: int) | RoleValue(role: Role) | Time(time: Timestamp)

  /** `Partial<User>`: some of the fields of a profile, with their new values. */
  type Patch = map<Field, Value>

  /** An image file chosen by the user; only its size in bytes matters here. */
  datatype ImageFile = ImageFile(size: nat)

  /** A call into one of the two external services. */
  datatype Write =
    | SetDocument(key: string, record: Profile)
    | UpdateDocument(key: string, fields: Patch)
    | UploadProfileImage(userId: string, file: ImageFile)

  const DefaultSessionMinutes: int := 60
  const DefaultBufferMinutes: int := 15
  const NoAuthenticatedUser: Error := Error("No authenticated user")

  // ---------------------------------------------------------------------------
  // The view-state reducer

  /** The hook's own state. */
  datatype ProfileView = ProfileView(
    user: Option<Profile>,
    isLoading: bool,
    error: Option<Error>,
    needsProfileSetup: bool
  )

  /** `useState` initial values: no user, loading, no error, no setup needed. */
  const InitialView: ProfileView := ProfileView(None, true, None, false)

  /** What can happen to the view: the identity resolved to nobody, or the
      profile listener delivered a snapshot or an error. */
  datatype ViewEvent =
    | NoIdentity
    | SnapshotExists(data: Profile)
    | SnapshotMissing
    | SnapshotError(err: Error)

  /** How one event changes the view. */
  function Reduce(v: ProfileView, e: ViewEvent): (r: ProfileView)
    // every event settles loading
    ensures !r.isLoading
    // a snapshot publishes the document, or its absence, and clears the error
    ensures e.SnapshotExists? ==> r.user == Some(e.data) && !r.needsProfileSetup && r.error.None?
    ensures e.SnapshotMissing? ==> r.user.None? && r.needsProfileSetup && r.error.None?
    // an error is recorded while the last known profile is kept
    ensures e.SnapshotError? ==>
      r.error == Some(e.err) && r.user == v.user && r.needsProfileSetup == v.needsProfileSetup
    // losing the identity clears the profile but not the error
    ensures e.NoIdentity? ==> r.user.None? && !r.needsProfileSetup && r.error == v.error
  {
    match e
    case NoIdentity => v.(user := None, isLoading := false, needsProfileSetup := false)
    case SnapshotExists(d) => ProfileView(Some(d), false, None, false)
    case SnapshotMissing => ProfileView(None, false, None, true)
    case SnapshotError(err) => v.(error := Some(err), isLoading := false)
  }

  /** The view never shows a profile while asking for setup, and it only
      loads before anything has happened. */
  predicate WellFormed(v: ProfileView) {
    && !(v.user.Some? && v.needsProfileSetup)
    && (v.isLoading ==> v.user.None? && !v.needsProfileSetup && v.error.None?)
  }

  lemma ReducePreservesWellFormed(v: ProfileView, e: ViewEvent)
    requires WellFormed(v)
    ensures WellFormed(Reduce(v, e))
  {
  }

  /** Delivering the same event twice leaves the view as delivering it once. */
  lemma ReduceIdempotent(v: ProfileView, e: ViewEvent)
    ensures Reduce(Reduce(v, e), e) == Reduce(v, e)
  {
  }

  /** A snapshot replaces all history: the view after it does not depend on
      the view before it. */
  lemma SnapshotForgetsHistory(v1: ProfileView, v2: ProfileView, e: ViewEvent)
    requires e.SnapshotExists? || e.SnapshotMissing?
    ensures Reduce(v1, e) == Reduce(v2, e)
  {
  }

  // ---------------------------------------------------------------------------
  // The hook: identity, listener and view

  /** The identity as last rendered, the key of the open listener (if any),
      and the view. */
  datatype Hook = Hook(
    identityLoaded: bool,
    identity: Option<Identity>,
    listeningTo: Option<string>,
    view: ProfileView
  )

  const InitialHook: Hook := Hook(false, None, None, InitialView)

  /** An input to the hook: the identity provider re-rendered with a new
      `(isLoaded, user)` pair, or the listener on document `key` delivered a
      snapshot (`doc` is the document's data, `None` when it does not exist) or
      an error. */
  datatype HookEvent =
    | IdentityChanged(loaded: bool, who: Option<Identity>)
    | DocumentSnapshot(key: string, doc: Option<Profile>)
    | ListenerError(key: string, err: Error)

  /** The listener's view event for a snapshot. */
  function SnapshotEvent(doc: Option<Profile>): (e: ViewEvent)
    ensures e.SnapshotExists? <==> doc.Some?
    ensures doc.Some? ==> e.data == doc.value
    ensures doc.None? ==> e == SnapshotMissing
  {
    match doc
    case Some(d) => SnapshotExists(d)
    case None => SnapshotMissing
  }

  /** The key of the listener the effect opens for a `(loaded, identity)` pair. */
  function ListenerKey(loaded: bool, who: Option<Identity>): (key: Option<string>)
    ensures key.Some? <==> loaded && who.Some?
    ensures key.Some? ==> key.value == who.value.id
  {
    if loaded && who.Some? then Some(who.value.id) else None
  }

  /** One step of the hook. A change of identity re-runs the effect: the old
      listener is closed, then an unloaded identity changes nothing, a loaded
      absent identity resets the view, and a present one opens a listener on
      its own document. A delivery counts only when it comes from the open
      listener; the database delivers nothing from a closed one. */
  function Step(h: Hook, e: HookEvent): (r: Hook)
    ensures r.identityLoaded == (if e.IdentityChanged? then e.loaded else h.identityLoaded)
    ensures r.identity == (if e.IdentityChanged? then e.who else h.identity)
    ensures e.IdentityChanged? ==> r.listeningTo == ListenerKey(e.loaded, e.who)
    ensures !e.IdentityChanged? ==> r.listeningTo == h.listeningTo
    // a delivery from any listener but the open one is discarded
    ensures !e.IdentityChanged? && h.listeningTo != Some(e.key) ==> r == h
    ensures e.IdentityChanged? && !e.loaded ==> r.view == h.view
    ensures e.IdentityChanged? && e.loaded && e.who.None? ==> r.view == Reduce(h.view, NoIdentity)
    ensures e.IdentityChanged? && e.who.Some? ==> r.view == h.view
    // a delivery from the open listener is applied to the view
    ensures e.DocumentSnapshot? && h.listeningTo == Some(e.key) ==>
              r.view == Reduce(h.view, SnapshotEvent(e.doc))
    ensures e.ListenerError? && h.listeningTo == Some(e.key) ==>
              r.view == Reduce(h.view, SnapshotError(e.err))
  {
    match e
    case IdentityChanged(loaded, who) =>
      var view := if loaded && who.None? then Reduce(h.view, NoIdentity) else h.view;
      Hook(loaded, who, ListenerKey(loaded, who), view)
    case DocumentSnapshot(key, doc) =>
      if h.listeningTo == Some(key) then h.(view := Reduce(h.view, SnapshotEvent(doc))) else h
    case ListenerError(key, err) =>
      if h.listeningTo == Some(key) then h.(view := Reduce(h.view, SnapshotError(err))) else h
  }

  /** The hook after a sequence of events, oldest first. */
  function Run(h: Hook, events: seq<HookEvent>): Hook
    decreases |events|
  {
    if |events| == 0 then h else Run(Step(h, events[0]), events[1..])
  }

  /** Running a non-empty sequence takes its first event, then the rest. */
  lemma RunFirst(h: Hook, e: HookEvent, rest: seq<HookEvent>)
    ensures Run(h, [e] + rest) == Run(Step(h, e), rest)
  {
  }

  /** A listener is open only for a loaded identity, and only on that
      identity's own document; and the view is well formed. */
  predicate HookInvariant(h: Hook) {
    && (h.listeningTo.Some? ==>
          h.identityLoaded && h.identity.Some? && h.listeningTo.value == h.identity.value.id)
    && WellFormed(h.view)
  }

  lemma StepPreservesInvariant(h: Hook, e: HookEvent)
    requires HookInvariant(h)
    ensures HookInvariant(Step(h, e))
  {
  }

  /** Every state the hook reaches from its initial state keeps the listener
      on the current identity's document and the view well formed. */
  lemma {:induction false} RunPreservesInvariant(h: Hook, events: seq<HookEvent>)
    requires HookInvariant(h)
    ensures HookInvariant(Run(h, events))
    decreases |events|
  {
    if |events| > 0 {
      StepPreservesInvariant(h, events[0]);
      RunPreservesInvariant(Step(h, events[0]), events[1..]);
    }
  }

  lemma ReachableHooksSatisfyInvariant(events: seq<HookEvent>)
    ensures HookInvariant(Run(InitialHook, events))
  {
    RunPreservesInvariant(InitialHook, events);
  }

  /** Once the hook has stopped loading it never loads again. */
  lemma {:induction false} LoadingNeverResumes(h: Hook, events: seq<HookEvent>)
    requires !h.view.isLoading
    ensures !Run(h, events).view.isLoading
    decreases |events|
  {
    if |events| > 0 {
      LoadingNeverResumes(Step(h, events[0]), events[1..]);
    }
  }

  /** Delivering any event twice in a row gives the state delivering it once
      gives: snapshots do not accumulate. */
  lemma StepIdempotent(h: Hook, e: HookEvent)
    ensures Step(Step(h, e), e) == Step(h, e)
  {
  }

  /** After the identity switches to `who`, nothing delivered on another
      document's listener changes the hook. */
  lemma StaleDeliveryDiscarded(h: Hook, who: Identity, late: HookEvent)
    requires !late.IdentityChanged? && late.key != who.id
    ensures var switched := Step(h, IdentityChanged(true, Some(who)));
            Step(switched, late) == switched
  {
  }

  /** A direct switch from one identity to another keeps the previous
      profile on show, with loading already settled, until the new
      identity's first snapshot arrives: the effect opens the new listener
      without resetting the view. */
  lemma SwitchKeepsPreviousProfileUntilSnapshot(h: Hook, who: Identity)
    requires h.view.user.Some? && !h.view.isLoading && h.identityLoaded
    ensures var switched := Step(h, IdentityChanged(true, Some(who)));
            && Published(switched).user == h.view.user
            && !Published(switched).isLoading
  {
  }

  /** After a direct switch the previous profile stays on show for as long as
      no identity change and no snapshot of the new identity's document
      arrives: deliveries for other documents are discarded, and a listener
      error on the open one keeps the user. */
  lemma {:induction false} PreviousProfileShownUntilOwnSnapshot(h: Hook, who: Identity, events: seq<HookEvent>)
    requires h.listeningTo == Some(who.id) && h.view.user.Some?
    requires forall i :: 0 <= i < |events| ==>
               !events[i].IdentityChanged? && !(events[i].DocumentSnapshot? && events[i].key == who.id)
    ensures Run(h, events).view.user == h.view.user
    ensures Run(h, events).listeningTo == h.listeningTo
    decreases |events|
  {
    if |events| > 0 {
      var h1 := Step(h, events[0]);
      assert h1.view.user == h.view.user && h1.listeningTo == h.listeningTo;
      PreviousProfileShownUntilOwnSnapshot(h1, who, events[1..]);
    }
  }

  // ---------------------------------------------------------------------------
  // What the hook returns

  datatype PublishedView = PublishedView(
    user: Option<Profile>,
    imageUrl: Option<string>,
    isLoading: bool,
    error: Option<Error>,
    needsProfileSetup: bool
  )

  /** `clerkUser?.imageUrl || null`: the identity's image URL when it has a
      non-empty one. */
  function IdentityImageUrl(who: Option<Identity>): (url: Option<string>)
    ensures url.Some? <==> who.Some? && who.value.imageUrl.Some? && who.value.imageUrl.value != ""
    ensures url.Some? ==> url == who.value.imageUrl
  {
    if who.Some? && who.value.imageUrl.Some? && who.value.imageUrl.value != "" then who.value.imageUrl
    else None
  }

  /** The object the hook returns to the screens. */
  function Published(h: Hook): (p: PublishedView)
    // loading while the identity is unresolved or the view is still loading
    ensures p.isLoading <==> !h.identityLoaded || h.view.isLoading
    ensures p.user == h.view.user && p.error == h.view.error
    ensures p.needsProfileSetup == h.view.needsProfileSetup
    ensures p.imageUrl == IdentityImageUrl(h.identity)
  {
    PublishedView(
      h.view.user,
      IdentityImageUrl(h.identity),
      !h.identityLoaded || h.view.isLoading,
      h.view.error,
      h.view.needsProfileSetup)
  }

  /** The image URL depends on the identity alone, never on the profile. */
  lemma ImageUrlIgnoresProfile(h1: Hook, h2: Hook)
    requires h1.identity == h2.identity
    ensures Published(h1).imageUrl == Published(h2).imageUrl
  {
  }

  /** Once a snapshot from the open listener has been applied, exactly one of
      "profile present", "needs setup" and "loading" is published. */
  lemma SettledAfterSnapshot(h: Hook, doc: Option<Profile>)
    requires HookInvariant(h) && h.listeningTo.Some?
    ensures var p := Published(Step(h, DocumentSnapshot(h.listeningTo.value, doc)));
            && !p.isLoading
            && (p.user.Some? <==> !p.needsProfileSetup)
            && (p.user.Some? <==> doc.Some?)
  {
  }

  // ---------------------------------------------------------------------------
  // Writes

  /** `n || fallback` on an optional number: a missing value or zero (both
      falsy) takes the fallback. */
  function OrDefault(n: Option<int>, fallback: int): (r: int)
    ensures n.Some? && n.value != 0 ==> r == n.value
    ensures n.None? || n.value == 0 ==> r == fallback
  {
    if n.Some? && n.value != 0 then n.value else fallback
  }

  /** The record `createProfile` writes for `who` at time `now`. */
  function BuildNewUser(who: Identity, input: ProfileInput, now: Timestamp): (r: Profile)
    ensures r.id == who.id
    ensures r.email == (if who.primaryEmail.Some? then who.primaryEmail.value else "")
    ensures r.displayName == input.displayName && r.role == input.role
    ensures r.timezone == input.timezone && r.bio == input.bio
    ensures r.defaultSessionMinutes == OrDefault(input.defaultSessionMinutes, DefaultSessionMinutes)
    ensures r.bufferMinutes == OrDefault(input.bufferMinutes, DefaultBufferMinutes)
    ensures r.createdAt == now && r.updatedAt == now
  {
    Profile(
      who.id,
      if who.primaryEmail.Some? then who.primaryEmail.value else "",
      input.displayName,
      input.role,
      input.timezone,
      OrDefault(input.defaultSessionMinutes, DefaultSessionMinutes),
      OrDefault(input.bufferMinutes, DefaultBufferMinutes),
      input.bio,
      now,
      now)
  }

  /** The built record never carries a zero duration: an omitted duration, or
      an explicit zero, becomes the default of 60 or 15 minutes, and any other
      given duration is kept. */
  lemma BuiltDurationsAreDefaultedOrGiven(who: Identity, input: ProfileInput, now: Timestamp)
    ensures var r := BuildNewUser(who, input, now);
            && r.defaultSessionMinutes != 0 && r.bufferMinutes != 0
            && (r.defaultSessionMinutes == 60 <==>
                  input.defaultSessionMinutes.None? || input.defaultSessionMinutes.value in {0, 60})
            && (r.bufferMinutes == 15 <==> input.bufferMinutes.None? || input.bufferMinutes.value in {0, 15})
  {
  }

  /** `createProfile`: fails without an identity, otherwise replaces the
      document at the identity's key with a freshly built record. */
  function CreateProfile(who: Option<Identity>, input: ProfileInput, now: Timestamp): (r: Result<Write>)
    ensures r.Err? <==> who.None?
    ensures r.Err? ==> r.error == NoAuthenticatedUser
    ensures r.Ok? ==> r.value.SetDocument? && r.value.key == who.value.id
    ensures r.Ok? ==> r.value.record == BuildNewUser(who.value, input, now)
  {
    match who
    case None => Err(NoAuthenticatedUser)
    case Some(u) => Ok(SetDocument(u.id, BuildNewUser(u, input, now)))
  }

  /** `{...data, updatedAt: now}`: the caller's fields, with the update time
      always the call's own. */
  function MergeUpdate(partial: Patch, now: Timestamp): (r: Patch)
    ensures r.Keys == partial.Keys + {UpdatedAtKey}
    ensures r[UpdatedAtKey] == Time(now)
    ensures forall k :: k in partial && k != UpdatedAtKey ==> r[k] == partial[k]
  {
    partial[UpdatedAtKey := Time(now)]
  }

  /** A caller-supplied update time is ignored: the payload is the same
      whether or not the partial carried one, and whatever it was. */
  lemma MergeIgnoresCallerTimestamp(partial: Patch, t: Value, now: Timestamp)
    ensures MergeUpdate(partial[UpdatedAtKey := t], now) == MergeUpdate(partial, now)
    ensures MergeUpdate(partial - {UpdatedAtKey}, now) == MergeUpdate(partial, now)
  {
  }

  /** `updateProfile`: fails without an identity, otherwise merges the
      caller's fields into the document at the identity's key. */
  function UpdateProfile(who: Option<Identity>, partial: Patch, now: Timestamp): (r: Result<Write>)
    ensures r.Err? <==> who.None?
    ensures r.Err? ==> r.error == NoAuthenticatedUser
    ensures r.Ok? ==> r.value.UpdateDocument? && r.value.key == who.value.id
    ensures r.Ok? ==> r.value.fields == MergeUpdate(partial, now)
  {
    match who
    case None => Err(NoAuthenticatedUser)
    case Some(u) => Ok(UpdateDocument(u.id, MergeUpdate(partial, now)))
  }

  /** `setProfileImage`: fails without an identity, otherwise hands the file
      to the identity provider unchecked; the profile document is not touched. */
  function SetProfileImage(who: Option<Identity>, file: ImageFile): (r: Result<Write>)
    ensures r.Err? <==> who.None?
    ensures r.Err? ==> r.error == NoAuthenticatedUser
    ensures r.Ok? ==> r.value == UploadProfileImage(who.value.id, file)
  {
    match who
    case None => Err(NoAuthenticatedUser)
    case Some(u) => Ok(UploadProfileImage(u.id, file))
  }

  /** Without an identity none of the three operations produces a call. */
  lemma NoIdentityNoWrite(input: ProfileInput, partial: Patch, file: ImageFile, now: Timestamp)
    ensures CreateProfile(None, input, now) == Err(NoAuthenticatedUser)
    ensures UpdateProfile(None, partial, now) == Err(NoAuthenticatedUser)
    ensures SetProfileImage(None, file) == Err(NoAuthenticatedUser)
  {
  }

  /** The user whose document or image a write touches. */
  function Target(w: Write): string {
    match w
    case SetDocument(key, _) => key
    case UpdateDocument(key, _) => key
    case UploadProfileImage(userId, _) => userId
  }

  /** A signed-in user can only ever write their own data: every write any of
      the three operations produces targets the signed-in identity's id, and a
      write is produced exactly when someone is signed in. */
  lemma WritesTargetOwnUser(who: Option<Identity>, input: ProfileInput, partial: Patch, file: ImageFile, now: Timestamp)
    ensures forall r :: r in {CreateProfile(who, input, now), UpdateProfile(who, partial, now), SetProfileImage(who, file)} ==>
              (r.Ok? <==> who.Some?) && (r.Ok? ==> Target(r.value) == who.value.id)
  {
  }

  // ---------------------------------------------------------------------------
  // Roles

  /** `useIsProvider`: the user offers sessions. */
  function IsProvider(user: Option<Profile>): (b: bool)
    ensures b ==> user.Some?
    ensures user.Some? && user.value.role == Booker ==> !b
    ensures user.Some? && user.value.role != Booker ==> b
  {
    user.Some? && (user.value.role == Provider || user.value.role == Both)
  }

  /** `useIsBooker`: the user books sessions. */
  function IsBooker(user: Option<Profile>): (b: bool)
    ensures b ==> user.Some?
    ensures user.Some? && user.value.role == Provider ==> !b
    ensures user.Some? && user.value.role != Provider ==> b
  {
    user.Some? && (user.value.role == Booker || user.value.role == Both)
  }

  /** Every profile is a provider, a booker or both; both holds exactly for
      the role `Both`; without a profile neither holds. */
  lemma RolesPartitionProfiles(user: Option<Profile>)
    ensures IsProvider(user) || IsBooker(user) <==> user.Some?
    ensures IsProvider(user) && IsBooker(user) <==> user.Some? && user.value.role == Both
    ensures IsProvider(user) && !IsBooker(user) <==> user.Some? && user.value.role == Provider
    ensures !IsProvider(user) && IsBooker(user) <==> user.Some? && user.value.role == Booker
  {
  }
}
