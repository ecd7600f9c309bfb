/** Concrete runs of the profile hook: sign-in without a profile, profile
creation, a listener error over a synced profile, and a late snapshot for a
previous identity.
 */
module ProfileScenarios {
  import opened Wrappers
  import opened CurrentUser

  const Ann: Identity := Identity("u1", Some("ann@example.com"), None)
  const Bob: Identity := Identity("u2", None, Some("https://img.example/bob.png"))

  const AnnInput: ProfileInput := ProfileInput("Ann", Booker, "UTC", None, None, None)

  /** A signed-in identity without a document ends up asking for setup. */
  lemma SignInWithoutProfileNeedsSetup()
    ensures var h := Run(InitialHook, [IdentityChanged(true, Some(Ann)), DocumentSnapshot("u1", None)]);
            Published(h) == PublishedView(None, None, false, None, true)
  {
    var e1, e2 := IdentityChanged(true, Some(Ann)), DocumentSnapshot("u1", None);
    RunFirst(InitialHook, e1, [e2]);
    RunFirst(Step(InitialHook, e1), e2, []);
  }

  /** Creating the profile writes Ann's record with the default durations;
      the next snapshot of that record ends the setup. */
  lemma CreateThenSnapshotSyncs(now: Timestamp)
    ensures var w := CreateProfile(Some(Ann), AnnInput, now);
            && w.Ok? && w.value.key == "u1"
            && w.value.record.id == "u1" && w.value.record.email == "ann@example.com"
            && w.value.record.displayName == "Ann" && w.value.record.role == Booker
            && w.value.record.defaultSessionMinutes == 60 && w.value.record.bufferMinutes == 15
            && var h := Run(InitialHook, [
                 IdentityChanged(true, Some(Ann)),
                 DocumentSnapshot("u1", None),
                 DocumentSnapshot("u1", Some(w.value.record))]);
               !Published(h).needsProfileSetup && Published(h).user == Some(w.value.record)
  {
    var record := BuildNewUser(Ann, AnnInput, now);
    var e1, e2, e3 := IdentityChanged(true, Some(Ann)), DocumentSnapshot("u1", None), DocumentSnapshot("u1", Some(record));
    var h1 := Step(InitialHook, e1);
    var h2 := Step(h1, e2);
    RunFirst(InitialHook, e1, [e2, e3]);
    RunFirst(h1, e2, [e3]);
    RunFirst(h2, e3, []);
  }

  /** A listener error over a synced profile keeps the profile and records
      the error. */
  lemma ErrorKeepsSyncedProfile(d: Profile, err: Error)
    ensures var h := Run(InitialHook, [
              IdentityChanged(true, Some(Ann)),
              DocumentSnapshot("u1", Some(d)),
              ListenerError("u1", err)]);
            Published(h) == PublishedView(Some(d), None, false, Some(err), false)
  {
    var e1, e2, e3 := IdentityChanged(true, Some(Ann)), DocumentSnapshot("u1", Some(d)), ListenerError("u1", err);
    var h1 := Step(InitialHook, e1);
    var h2 := Step(h1, e2);
    RunFirst(InitialHook, e1, [e2, e3]);
    RunFirst(h1, e2, [e3]);
    RunFirst(h2, e3, []);
  }

  /** Signing out and in as Bob discards a late snapshot for Ann; only Bob's
      own snapshot is shown. */
  lemma LateSnapshotForPreviousIdentityIgnored(annDoc: Profile, bobDoc: Profile)
    ensures var h := Run(InitialHook, [
              IdentityChanged(true, Some(Ann)),
              IdentityChanged(true, None),
              IdentityChanged(true, Some(Bob)),
              DocumentSnapshot("u1", Some(annDoc)),
              DocumentSnapshot("u2", Some(bobDoc))]);
            && Published(h).user == Some(bobDoc)
            && Published(h).imageUrl == Some("https://img.example/bob.png")
  {
    var e1, e2, e3 := IdentityChanged(true, Some(Ann)), IdentityChanged(true, None), IdentityChanged(true, Some(Bob));
    var e4, e5 := DocumentSnapshot("u1", Some(annDoc)), DocumentSnapshot("u2", Some(bobDoc));
    var h1 := Step(InitialHook, e1);
    var h2 := Step(h1, e2);
    var h3 := Step(h2, e3);
    var h4 := Step(h3, e4);
    RunFirst(InitialHook, e1, [e2, e3, e4, e5]);
    RunFirst(h1, e2, [e3, e4, e5]);
    RunFirst(h2, e3, [e4, e5]);
    RunFirst(h3, e4, [e5]);
    RunFirst(h4, e5, []);
    assert h4 == h3;
  }
}
