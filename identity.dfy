/** The signed-in user as the identity provider (Clerk) hands it to the screens. */
module Identity {
  import opened Js

  /**
    `id` is always present; `username`, `fullName`, the primary email address
    and the avatar may be missing.
   */
  datatype User = User(
    id: string,
    username: Option<string>,
    fullName: Option<string>,
    primaryEmail: Option<string>,
    imageUrl: Option<string>)
}
