/** The state of the profile page component and the handlers that change it.
    Each network reply is an abstract outcome passed in by the caller; each
    handler runs as one atomic step, its `finally` block included. */
module ProfileSession {
  import opened Wrappers
  import opened ProfileModel

  /** The outcome of one request: a 2xx reply with its parsed body, a 404, or
      any other failure (another status, a network error, a body that does
      not parse). */
  datatype Reply<T> = Ok(body: T) | NotFound | Failed

  /** A `PUT /api/profile/{userId}` request with its full-document body. */
  datatype Put = Put(userId: string, body: Profile)

  /** What the initial fetch leaves in `profile`: the stored document, or the
      created one after a 404; any failure keeps the prior value. */
  function AfterFetch(prior: Profile, getReply: Reply<Profile>, createReply: Reply<Profile>): (p: Profile)
    ensures getReply.Failed? ==> p == prior
    ensures getReply.NotFound? && !createReply.Ok? ==> p == prior
    ensures getReply.Ok? ==> p == getReply.body
    ensures getReply.NotFound? && createReply.Ok? ==> p == createReply.body
  {
    match getReply
    case Ok(doc) => doc
    case NotFound => if createReply.Ok? then createReply.body else prior
    case Failed => prior
  }

  /** The state of the profile page. */
  class ProfileEditor {
    var profile: Profile
    var isEditing: bool
    var isLoading: bool
    var isUploading: bool

    /** No handler is in progress. */
    predicate Idle()
      reads this
    {
      !isLoading && !isUploading
    }

    constructor ()
      ensures profile == DefaultProfile
      ensures !isEditing && Idle()
    {
      profile := DefaultProfile;
      isEditing := false;
      isLoading := false;
      isUploading := false;
    }

    /** The initial fetch-or-create. Without a signed-in user nothing happens.
        A 404 sends the seeded profile in a PUT and takes the stored document
        from its reply; returns the PUT sent, if any. */
    method FetchProfile(user: Option<User>, getReply: Reply<Profile>, createReply: Reply<Profile>)
      returns (created: Option<Put>)
      modifies this
      ensures user.None? ==> profile == old(profile) && created == None
      ensures user.Some? ==> profile == AfterFetch(old(profile), getReply, createReply)
      ensures user.Some? && getReply.NotFound? <==> created.Some?
      ensures created.Some? ==> created.value == Put(user.value.id, Seed(user.value))
      ensures isEditing == old(isEditing) && isLoading == old(isLoading) && isUploading == old(isUploading)
    {
      created := None;
      if user.None? {
        return;
      }
      var u := user.value;
      match getReply {
        case NotFound =>
          var seed := Seed(u);
          created := Some(Put(u.id, seed));
          if createReply.Ok? {
            profile := createReply.body;
          }
        case Ok(doc) =>
          profile := doc;
        case Failed =>
      }
    }

    /** The "Edit Profile" button. */
    method StartEditing()
      modifies this`isEditing
      ensures isEditing
    {
      isEditing := true;
    }

    /** The "Discard" button: leaves edit mode but keeps every edit made so
        far, since there is no saved copy to go back to. */
    method Discard()
      modifies this`isEditing
      ensures !isEditing
    {
      isEditing := false;
    }

    /** One change made through the edit form. */
    method HandleEdit(e: Edit)
      modifies this`profile
      ensures profile == Apply(old(profile), e)
      ensures SameExcept(old(profile), profile, FieldOf(e))
    {
      EditTouchesOnlyItsField(profile, e);
      profile := Apply(profile, e);
    }

    /** "Save Changes": sends the whole current profile in a PUT. On success
        edit mode ends; on failure it stays as it was. The profile itself is
        never changed, and the loading flag is clear afterwards. Without a
        signed-in user nothing happens. */
    method Submit(user: Option<User>, reply: Reply<Profile>) returns (sent: Option<Put>)
      modifies this`isEditing, this`isLoading
      ensures user.None? ==> sent == None && isEditing == old(isEditing) && isLoading == old(isLoading)
      ensures user.Some? ==> sent == Some(Put(user.value.id, profile)) && !isLoading
      ensures user.Some? ==> isEditing == (old(isEditing) && !reply.Ok?)
    {
      sent := None;
      if user.None? {
        return;
      }
      isLoading := true;
      sent := Some(Put(user.value.id, profile));
      if reply.Ok? {
        isEditing := false;
      }
      isLoading := false;
    }

    /** Choosing an avatar file. With no file nothing happens. A successful
        upload sets only the profile image to the returned url; a failed one
        leaves the profile as it was. The upload flag is clear afterwards. */
    method UploadImage(hasFile: bool, reply: Reply<string>)
      modifies this`profile, this`isUploading
      ensures !hasFile ==> profile == old(profile) && isUploading == old(isUploading)
      ensures hasFile ==> !isUploading
      ensures hasFile && reply.Ok? ==> profile == old(profile).(profileImage := reply.body)
      ensures !reply.Ok? ==> profile == old(profile)
    {
      if !hasFile {
        return;
      }
      isUploading := true;
      if reply.Ok? {
        profile := profile.(profileImage := reply.body);
      }
      isUploading := false;
    }
  }

  // ---------------------------------------------------------------------
  // Scenarios

  /** A profile seen for the first time: the 404 makes the page send the
      seeded document, and the stored reply becomes the page's profile. */
  method FirstVisitScenario(u: User) returns (e: ProfileEditor)
    ensures e.profile == Seed(u) && !e.isEditing && e.Idle()
  {
    e := new ProfileEditor();
    var created := e.FetchProfile(Some(u), NotFound, Ok(Seed(u)));
    assert created == Some(Put(u.id, Seed(u)));
  }

  /** Editing then discarding keeps the edit: Discard restores nothing. */
  method DiscardScenario(name: string) returns (e: ProfileEditor)
    ensures e.profile.name == name && !e.isEditing
  {
    e := new ProfileEditor();
    e.StartEditing();
    e.HandleEdit(SetName(name));
    e.Discard();
  }

  /** A failed upload while editing leaves the profile and edit mode as they
      were and clears the upload flag. */
  method FailedUploadScenario() returns (e: ProfileEditor)
    ensures e.profile == DefaultProfile && e.isEditing && e.Idle()
  {
    e := new ProfileEditor();
    e.StartEditing();
    e.UploadImage(true, Failed);
  }

  /** Removing the third of four links keeps the other three, in order. */
  method RemoveThirdLinkScenario(extra1: Link, extra2: Link) returns (e: ProfileEditor)
    ensures e.profile.links == DefaultLinks + [extra2]
  {
    e := new ProfileEditor();
    e.StartEditing();
    e.HandleEdit(AppendLink);
    e.HandleEdit(RenameLink(2, extra1.name));
    e.HandleEdit(ChangeLinkUrl(2, extra1.url));
    e.HandleEdit(AppendLink);
    e.HandleEdit(RenameLink(3, extra2.name));
    e.HandleEdit(ChangeLinkUrl(3, extra2.url));
    assert e.profile.links == DefaultLinks + [extra1, extra2];
    RemoveAtSpec(e.profile.links, 2);
    e.HandleEdit(DeleteLink(2));
  }
}
