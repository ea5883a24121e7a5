/** Mapping a provider user and its metadata onto the application's `User`. */
module AuthClient {
  import opened Base
  import opened AuthTypes

  /** The role given to a user whose metadata carries none. */
  const DEFAULT_ROLE: Role := CUSTOMER

  /** `s.split("@")[0]`: the text before the first `@`, or all of `s`. */
  function BeforeFirstAt(s: string): (r: string)
    ensures StartsWithPrefix(s, r) && '@' !in r
    ensures |r| < |s| ==> s[|r|] == '@'
  {
    if s == [] || s[0] == '@' then [] else [s[0]] + BeforeFirstAt(s[1..])
  }

  predicate StartsWithPrefix(s: string, p: string) {
    |p| <= |s| && s[..|p|] == p
  }

  function MetaOf(u: ProviderUser): Metadata {
    u.metadata.GetOr(Metadata(None, Missing, None, None))
  }

  /** The display-name fallback chain: `full_name ?? name ?? email-local-part ?? null`. */
  function NameOf(u: ProviderUser): Option<string> {
    var meta := MetaOf(u);
    if meta.fullName.Some? then meta.fullName
    else if meta.name.Some? then meta.name
    else if u.email.Some? then Some(BeforeFirstAt(u.email.value))
    else None
  }

  /** `mapSupabaseUserToUser`. */
  function MapProviderUser(u: Option<ProviderUser>): (r: Option<User>)
    ensures r.None? <==> u.None?
    ensures r.Some? ==> r.value.id == u.value.id
    ensures r.Some? ==> r.value.email == u.value.email.GetOr("")
  {
    match u
    case None => None
    case Some(pu) =>
      var meta := MetaOf(pu);
      Some(User(
        pu.id,
        pu.email.GetOr(""),
        NameOf(pu),
        meta.role.GetOr(DEFAULT_ROLE),
        if meta.workspaceId.JsonNumber? then Some(meta.workspaceId.n) else None))
  }

  /** The role is the metadata role, unvalidated, or `customer` when there is none. */
  lemma MappedRole(pu: ProviderUser)
    ensures var r := MapProviderUser(Some(pu)).value.role;
      (MetaOf(pu).role.Some? ==> r == MetaOf(pu).role.value)
      && (MetaOf(pu).role.None? ==> r == "customer")
  {
  }

  /** `workspace_id` survives only when the metadata value is a number. */
  lemma MappedWorkspaceId(pu: ProviderUser)
    ensures var w := MapProviderUser(Some(pu)).value.workspaceId;
      (w.Some? <==> MetaOf(pu).workspaceId.JsonNumber?)
      && (w.Some? ==> w.value == MetaOf(pu).workspaceId.n)
  {
  }

  /** A string workspace id such as `"5"` is dropped. */
  lemma StringWorkspaceIdDropped(id: string, s: string)
    ensures MapProviderUser(Some(ProviderUser(id, None,
      Some(Metadata(None, JsonString(s), None, None))))).value.workspaceId == None
  {
  }

  /**
   * The name is `full_name` when present, else `name`, else the e-mail text
   * before the first `@`, else null.
   */
  lemma MappedName(pu: ProviderUser)
    ensures var n := MapProviderUser(Some(pu)).value.name;
      var meta := MetaOf(pu);
      (meta.fullName.Some? ==> n == meta.fullName)
      && (meta.fullName.None? && meta.name.Some? ==> n == meta.name)
      && (meta.fullName.None? && meta.name.None? && pu.email.Some? ==>
            n.Some? && '@' !in n.value && StartsWithPrefix(pu.email.value, n.value)
            && (|n.value| == |pu.email.value| || pu.email.value[|n.value|] == '@'))
      && (meta.fullName.None? && meta.name.None? && pu.email.None? ==> n.None?)
  {
  }
}
