/**
 * Shapes shared by the authentication code: the application's `User` and the
 * identity provider's user record with its free-form `user_metadata`.
 */
module AuthTypes {
  import opened Base

  /** Role names as stored in `user_metadata.role`; any string may occur there. */
  type Role = string

  const SUPERADMIN: Role := "superadmin"
  const WORKSPACE_ADMIN: Role := "workspace_admin"
  const CUSTOMER: Role := "customer"

  /** The application's principal: `User` in the shared auth types. */
  datatype User = User(
    id: string,
    email: string,
    name: Option<string>,
    role: Role,
    workspaceId: Option<int>)

  /** A JSON value read from provider metadata, as far as `typeof` distinguishes it. */
  datatype MetaValue = Missing | JsonNull | JsonNumber(n: int) | JsonString(s: string) | JsonOther

  /** The fields of `user_metadata` the mapping reads (absent or `null` string fields are `None`). */
  datatype Metadata = Metadata(
    role: Option<Role>,
    workspaceId: MetaValue,
    fullName: Option<string>,
    name: Option<string>)

  /** The identity provider's user record. */
  datatype ProviderUser = ProviderUser(id: string, email: Option<string>, metadata: Option<Metadata>)

  /** What `auth.getUser()` resolves to: an error flag and the user, if any. */
  datatype ProviderResult = ProviderResult(errored: bool, user: Option<ProviderUser>)
}
