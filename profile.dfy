/** The profile page: the avatar, which is saved at once, and the edit form
    for name and bio, whose copy of the account is taken when the page
    mounts. */
module ProfilePage {
  import opened Types

  /** The state of the profile page. `user` is the account the shell passes
      in, which changes on every update; `formData` is the form's own copy. */
  class ProfileState {
    var isEditing: bool
    var formData: User
    var user: User
    /** The account as it was when the page mounted. */
    ghost const mounted: User

    /** The form can only have changed the name and the bio of the account it
        copied at mount. */
    ghost predicate Valid()
      reads this
    {
      formData == mounted.(name := formData.name, bio := formData.bio)
    }

    constructor (u: User)
      ensures Valid() && mounted == u && user == u && formData == u && !isEditing
    {
      mounted := u;
      user := u;
      formData := u;
      isEditing := false;
    }

    /** A new account from the shell; the form keeps its copy. */
    method Rerender(u: User)
      requires Valid()
      modifies this
      ensures Valid() && user == u
      ensures formData == old(formData) && isEditing == old(isEditing)
    {
      user := u;
    }

    /** "Edit Profile" / "Cancel Edit". */
    method ToggleEditing()
      requires Valid()
      modifies this
      ensures Valid() && isEditing == !old(isEditing)
      ensures formData == old(formData) && user == old(user)
    {
      isEditing := !isEditing;
    }

    method EditName(name: string)
      requires Valid()
      modifies this
      ensures Valid() && formData == old(formData).(name := name)
      ensures user == old(user) && isEditing == old(isEditing)
    {
      formData := formData.(name := name);
    }

    method EditBio(bio: string)
      requires Valid()
      modifies this
      ensures Valid() && formData == old(formData).(bio := Some(bio))
      ensures user == old(user) && isEditing == old(isEditing)
    {
      formData := formData.(bio := Some(bio));
    }

    /** `handleImageChange`, once the picture has been read: the current
        account with the new picture, handed to `onUpdate`. */
    method HandleImageChange(data: string) returns (updated: User)
      requires Valid()
      ensures updated == user.(profilePic := Some(data))
    {
      updated := user.(profilePic := Some(data));
    }

    /** `handleSubmit`: the form's copy goes to `onUpdate` and editing ends.
        Every field but name and bio is as it was at mount. */
    method HandleSubmit() returns (updated: User)
      requires Valid()
      modifies this
      ensures Valid() && !isEditing
      ensures updated == old(formData)
      ensures updated == mounted.(name := updated.name, bio := updated.bio)
      ensures formData == old(formData) && user == old(user)
    {
      updated := formData;
      isEditing := false;
    }

    /** `handleSubmit` as evidently intended: the form's name and bio applied
        to the current account, so changes the shell made since mount (a new
        avatar, points earned) are kept. */
    method HandleSubmitMerged() returns (updated: User)
      requires Valid()
      modifies this
      ensures Valid() && !isEditing
      ensures updated == user.(name := formData.name, bio := formData.bio)
      ensures formData == old(formData) && user == old(user)
    {
      updated := user.(name := formData.name, bio := formData.bio);
      isEditing := false;
    }
  }

  /** A new avatar followed by a saved name change: the avatar goes to the
      shell, but the saved form then carries the picture the account had at
      mount, so the avatar is undone. */
  method AvatarThenSave(u: User, picture: string, name: string) returns (first: User, second: User)
    ensures first == u.(profilePic := Some(picture))
    ensures second == u.(name := name)
    ensures second.profilePic == u.profilePic
  {
    var page := new ProfileState(u);
    first := page.HandleImageChange(picture);
    page.Rerender(first);
    page.ToggleEditing();
    page.EditName(name);
    second := page.HandleSubmit();
  }

  /** The same steps with the intended submit: the saved name change keeps
      the new avatar. */
  method AvatarThenSaveIntended(u: User, picture: string, name: string) returns (first: User, second: User)
    ensures first == u.(profilePic := Some(picture))
    ensures second == first.(name := name)
    ensures second.profilePic == Some(picture)
  {
    var page := new ProfileState(u);
    first := page.HandleImageChange(picture);
    page.Rerender(first);
    page.ToggleEditing();
    page.EditName(name);
    second := page.HandleSubmitMerged();
  }
}
