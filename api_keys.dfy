/**
 * The workspace API-key server actions: key generation, origin
 * normalisation, the workspace the caller acts for, and the key table
 * operations.
 */
module ApiKeys {
  import opened Base
  import opened Text
  import opened AuthTypes
  import Selection

  const API_KEY_PREFIX: string := "gst_"
  const API_KEY_RAW_LENGTH: nat := 32
  const KEY_PREFIX_LENGTH: nat := 8
  const NO_ORIGINS: string := "At least one allowed website is required."

  newtype byte = x: int | 0 <= x < 256

  const HEX_DIGITS: string := "0123456789abcdef"

  function HexDigit(d: int): (c: char)
    requires 0 <= d < 16
    ensures IsHexChar(c) && HexValue(c) == d
  {
    HEX_DIGITS[d]
  }

  predicate IsHexChar(c: char) {
    '0' <= c <= '9' || 'a' <= c <= 'f'
  }

  function HexValue(c: char): (d: int)
    requires IsHexChar(c)
    ensures 0 <= d < 16
  {
    if '0' <= c <= '9' then c as int - '0' as int else c as int - 'a' as int + 10
  }

  /** `Buffer.toString("hex")`: two lowercase hex digits per byte, high nibble first. */
  function Hex(bs: seq<byte>): (s: string)
    ensures |s| == 2 * |bs|
    ensures forall i :: 0 <= i < |s| ==> IsHexChar(s[i])
  {
    if bs == [] then [] else [HexDigit(bs[0] as int / 16), HexDigit(bs[0] as int % 16)] + Hex(bs[1..])
  }

  /** Reading a hex string back, two digits per byte. */
  function Unhex(s: string): seq<byte>
    requires |s| % 2 == 0 && forall i :: 0 <= i < |s| ==> IsHexChar(s[i])
  {
    if s == [] then [] else [(16 * HexValue(s[0]) + HexValue(s[1])) as byte] + Unhex(s[2..])
  }

  /** The hex form loses nothing: the bytes can be read back from it. */
  lemma {:induction false} HexRoundTrip(bs: seq<byte>)
    ensures Unhex(Hex(bs)) == bs
  {
    if bs != [] {
      var s := Hex(bs);
      assert s[2..] == Hex(bs[1..]);
      HexRoundTrip(bs[1..]);
      var b := bs[0] as int;
      assert 16 * (b / 16) + b % 16 == b;
    }
  }

  /** `generateApiKey()` over the bytes `randomBytes(32)` produced. */
  function GenerateApiKey(bytes: seq<byte>): (key: string)
    ensures |key| == 4 + 2 * |bytes|
    ensures StartsWith(key, "gst_")
    ensures forall i :: 4 <= i < |key| ==> IsHexChar(key[i])
  {
    API_KEY_PREFIX + Hex(bytes)
  }

  /** Distinct random bytes give distinct keys: the key determines the bytes. */
  lemma KeyDeterminesBytes(a: seq<byte>, b: seq<byte>)
    requires GenerateApiKey(a) == GenerateApiKey(b)
    ensures a == b
  {
    assert GenerateApiKey(a)[4..] == Hex(a);
    assert GenerateApiKey(b)[4..] == Hex(b);
    HexRoundTrip(a);
    HexRoundTrip(b);
  }

  /** `rawKey.slice(0, 8)`. */
  function KeyPrefix(raw: string): (p: string)
    ensures StartsWith(raw, p) && |p| == if |raw| < 8 then |raw| else 8
  {
    if |raw| < KEY_PREFIX_LENGTH then raw else raw[..KEY_PREFIX_LENGTH]
  }

  /** A 32-byte key is 68 characters long and its stored prefix is `gst_` and its first four hex digits. */
  lemma FullLengthKey(bytes: seq<byte>)
    requires |bytes| == API_KEY_RAW_LENGTH
    ensures |GenerateApiKey(bytes)| == 68
    ensures KeyPrefix(GenerateApiKey(bytes)) == "gst_" + Hex(bytes)[..4]
    ensures KeyPrefix(GenerateApiKey(bytes)) != GenerateApiKey(bytes)
  {
  }

  /** `normalizeOrigin(url)`: trim, lower-case, then drop one trailing `/`. */
  function NormalizeOrigin(url: string): (r: string)
    ensures var u := ToLower(Trim(url)); r == u || r + "/" == u
  {
    DropSlash(ToLower(Trim(url)))
  }

  /** `.replace(/\/$/, "")`: one trailing slash removed. */
  function DropSlash(u: string): (r: string)
    ensures r == u || r + "/" == u
    ensures EndsWith(u, "/") <==> r + "/" == u
  {
    if EndsWith(u, "/") then u[..|u| - 1] else u
  }

  /** Normalising is not idempotent: only one slash goes each time. */
  lemma NormalizeNotIdempotent()
    ensures NormalizeOrigin("a//") == "a/"
    ensures NormalizeOrigin("a/") == "a"
  {
    var s, t := "a//", "a/";
    assert TrimStart(s) == s && TrimEnd(s) == s;
    assert TrimStart(t) == t && TrimEnd(t) == t;
    assert ToLower(s) == s;
    assert ToLower(t) == t;
  }

  /** A normalised origin that ends in neither `/` nor whitespace is a fixed point. */
  lemma NormalizeStable(url: string)
    requires var r := NormalizeOrigin(url); r != [] && r[|r| - 1] != '/' && !IsWhitespace(r[|r| - 1])
    ensures NormalizeOrigin(NormalizeOrigin(url)) == NormalizeOrigin(url)
  {
    var r := NormalizeOrigin(url);
    NormalizedIsTrimmedLower(url);
    SlashFreeFixed(r);
    assert NormalizeOrigin(r) == DropSlash(ToLower(Trim(r)));
  }

  lemma NormalizedIsTrimmedLower(url: string)
    requires var r := NormalizeOrigin(url); r != [] && !IsWhitespace(r[|r| - 1])
    ensures var r := NormalizeOrigin(url); Trim(r) == r && ToLower(r) == r
  {
    var t := Trim(url);
    var u := ToLower(t);
    var r := NormalizeOrigin(url);
    assert r == u[..|r|];
    TrimEnds(url);
    LowerKeepsNonWhitespace(t[0]);
    assert r[0] == u[0];
    TrimOfTrimmed(r);
    LoweredPrefixFixed(t, |r|);
  }

  lemma SlashFreeFixed(r: string)
    requires r != [] && r[|r| - 1] != '/'
    ensures DropSlash(r) == r
  {
    assert r[|r| - 1..] == [r[|r| - 1]];
  }

  lemma LowerKeepsNonWhitespace(c: char)
    requires !IsWhitespace(c)
    ensures !IsWhitespace(LowerChar(c))
  {
  }

  /** A prefix of a lower-cased string is its own lower case. */
  lemma LoweredPrefixFixed(t: string, k: nat)
    requires k <= |t|
    ensures ToLower(ToLower(t)[..k]) == ToLower(t)[..k]
  {
    var u := ToLower(t);
    ToLowerIdempotent(t);
    LowerOfPrefix(u, k);
  }

  /** Lower-casing commutes with taking a prefix. */
  lemma LowerOfPrefix(s: string, k: nat)
    requires k <= |s|
    ensures ToLower(s[..k]) == ToLower(s)[..k]
  {
    var a, b := ToLower(s[..k]), ToLower(s)[..k];
    forall i | 0 <= i < k ensures a[i] == b[i] {
      assert s[..k][i] == s[i];
    }
  }

  /** `.map(normalizeOrigin).filter(Boolean)`. */
  function NormalizeOrigins(xs: seq<string>): (r: seq<string>)
    ensures forall o :: o in r ==> o != "" && exists x :: x in xs && NormalizeOrigin(x) == o
    ensures forall x :: x in xs && NormalizeOrigin(x) != "" ==> NormalizeOrigin(x) in r
    ensures |r| <= |xs|
  {
    if xs == [] then []
    else
      var rest := NormalizeOrigins(xs[1..]);
      var o := NormalizeOrigin(xs[0]);
      if o == "" then rest else [o] + rest
  }

  /** Blank entries, and entries that are a lone `/`, disappear. */
  lemma BlankOriginsDropped(x: string)
    requires Trim(x) == "" || Trim(x) == "/"
    ensures NormalizeOrigins([x]) == []
  {
  }

  /** `requireWorkspaceId()`: a superadmin acts for the selected workspace, everyone else for their own. */
  function RequireWorkspaceId(user: Option<User>, selectionCookie: Option<string>): (r: Result<int>)
    ensures user.None? ==> r == Failure("Unauthorized")
    ensures user.Some? && user.value.role == SUPERADMIN ==>
      (r.Success? <==> Selection.ParseSelection(selectionCookie).Some?)
      && (r.Success? ==> Some(r.value) == Selection.ParseSelection(selectionCookie))
    ensures user.Some? && user.value.role != SUPERADMIN ==>
      (r.Success? <==> user.value.workspaceId.Some?)
      && (r.Success? ==> Some(r.value) == user.value.workspaceId)
    ensures user.Some? && r.Failure? ==> r.error == "Workspace not found"
  {
    if user.None? then Failure("Unauthorized")
    else if user.value.role == SUPERADMIN then
      var n := Selection.ParseSelection(selectionCookie);
      if n.None? then Failure("Workspace not found") else Success(n.value)
    else if user.value.workspaceId.None? then Failure("Workspace not found")
    else Success(user.value.workspaceId.value)
  }

  /** A non-superadmin's own `workspace_id` is used as stored, with no lower bound, and the cookie is ignored. */
  lemma MemberIdUnchecked(u: User, cookie: Option<string>)
    requires u.role != SUPERADMIN && u.workspaceId == Some(0)
    ensures RequireWorkspaceId(Some(u), cookie) == Success(0)
  {
  }

  /** `name?.trim() || null`. */
  function StoredName(name: Option<string>): (r: Option<string>)
    ensures r.Some? <==> name.Some? && Trim(name.value) != ""
    ensures r.Some? ==> r.value == Trim(name.value)
  {
    if name.Some? && Trim(name.value) != "" then Some(Trim(name.value)) else None
  }

  /** A row of `workspace_api_keys`. */
  datatype ApiKeyRow = ApiKeyRow(
    workspaceId: int,
    name: Option<string>,
    keyHash: string,
    keyPrefix: string,
    allowedOrigins: seq<string>)

  /** The key table, by row id. */
  class ApiKeyStore {
    var rows: map<string, ApiKeyRow>

    constructor (rows: map<string, ApiKeyRow>)
      ensures this.rows == rows
    {
      this.rows := rows;
    }

    /** The rows of workspace `wid`, by id. */
    function RowsOf(wid: int): (m: map<string, ApiKeyRow>)
      reads this
      ensures forall id :: id in m <==> id in rows && rows[id].workspaceId == wid
      ensures forall id :: id in m ==> m[id] == rows[id]
    {
      map id | id in rows && rows[id].workspaceId == wid :: rows[id]
    }

    /** `listWorkspaceApiKeys()`: every column of the workspace's rows, the hash included. */
    method List(user: Option<User>, selectionCookie: Option<string>, selectError: Option<string>)
      returns (r: Result<map<string, ApiKeyRow>>)
      ensures RequireWorkspaceId(user, selectionCookie).Failure? ==>
        r == Failure(RequireWorkspaceId(user, selectionCookie).error)
      ensures RequireWorkspaceId(user, selectionCookie).Success? && selectError.Some? ==> r == Failure(selectError.value)
      ensures r.Success? ==> RequireWorkspaceId(user, selectionCookie).Success?
      ensures r.Success? ==>
        forall id :: id in r.value <==> id in rows && rows[id].workspaceId == RequireWorkspaceId(user, selectionCookie).value
      ensures r.Success? ==> forall id :: id in r.value ==> r.value[id] == rows[id]
    {
      var wid := RequireWorkspaceId(user, selectionCookie);
      if wid.Failure? {
        return Failure(wid.error);
      }
      if selectError.Some? {
        return Failure(selectError.value);
      }
      return Success(RowsOf(wid.value));
    }

    /**
     * `createWorkspaceApiKey(input)`. `bytes` are what `randomBytes(32)`
     * produced, `hash` is `hashApiKey` (SHA-256 in hex), `newId` the id the
     * table assigns. The raw key is returned once and never stored.
     */
    method Create(user: Option<User>, selectionCookie: Option<string>, name: Option<string>, origins: seq<string>,
                  bytes: seq<byte>, hash: string -> string, newId: string, insertError: Option<string>)
      returns (r: Result<string>)
      modifies this
      requires newId !in rows
      ensures RequireWorkspaceId(user, selectionCookie).Failure? ==>
        r == Failure(RequireWorkspaceId(user, selectionCookie).error) && rows == old(rows)
      ensures RequireWorkspaceId(user, selectionCookie).Success? && NormalizeOrigins(origins) == [] ==>
        r == Failure("At least one allowed website is required.") && rows == old(rows)
      ensures RequireWorkspaceId(user, selectionCookie).Success? && NormalizeOrigins(origins) != []
              && insertError.Some? ==>
        r == Failure(insertError.value) && rows == old(rows)
      ensures r.Success? <==>
        RequireWorkspaceId(user, selectionCookie).Success? && NormalizeOrigins(origins) != [] && insertError.None?
      ensures r.Success? ==>
        r.value == GenerateApiKey(bytes)
        && rows == old(rows)[newId := ApiKeyRow(RequireWorkspaceId(user, selectionCookie).value, StoredName(name),
                                                hash(r.value), KeyPrefix(r.value), NormalizeOrigins(origins))]
    {
      var wid := RequireWorkspaceId(user, selectionCookie);
      if wid.Failure? {
        return Failure(wid.error);
      }
      var normalized := NormalizeOrigins(origins);
      if |normalized| == 0 {
        return Failure(NO_ORIGINS);
      }
      var rawKey := GenerateApiKey(bytes);
      var keyHash := hash(rawKey);
      var keyPrefix := KeyPrefix(rawKey);
      if insertError.Some? {
        return Failure(insertError.value);
      }
      rows := rows[newId := ApiKeyRow(wid.value, StoredName(name), keyHash, keyPrefix, normalized)];
      return Success(rawKey);
    }

    /** `revokeWorkspaceApiKey(id)`: the delete is by id alone, whichever workspace the row belongs to. */
    method Revoke(user: Option<User>, selectionCookie: Option<string>, id: string, deleteError: Option<string>)
      returns (r: Result<()>)
      modifies this
      ensures RequireWorkspaceId(user, selectionCookie).Failure? ==>
        r == Failure(RequireWorkspaceId(user, selectionCookie).error) && rows == old(rows)
      ensures RequireWorkspaceId(user, selectionCookie).Success? && deleteError.Some? ==>
        r == Failure(deleteError.value) && rows == old(rows)
      ensures RequireWorkspaceId(user, selectionCookie).Success? && deleteError.None? ==>
        r == Success(()) && rows == old(rows) - {id}
    {
      var wid := RequireWorkspaceId(user, selectionCookie);
      if wid.Failure? {
        return Failure(wid.error);
      }
      if deleteError.Some? {
        return Failure(deleteError.value);
      }
      rows := rows - {id};
      return Success(());
    }

    /**
     * `updateWorkspaceApiKeyOrigins(id, allowed_origins)`: by id alone, and
     * with no check that any origin survives normalisation.
     */
    method UpdateOrigins(user: Option<User>, selectionCookie: Option<string>, id: string, origins: seq<string>,
                         updateError: Option<string>) returns (r: Result<()>)
      modifies this
      ensures RequireWorkspaceId(user, selectionCookie).Failure? ==>
        r == Failure(RequireWorkspaceId(user, selectionCookie).error) && rows == old(rows)
      ensures RequireWorkspaceId(user, selectionCookie).Success? && updateError.Some? ==>
        r == Failure(updateError.value) && rows == old(rows)
      ensures RequireWorkspaceId(user, selectionCookie).Success? && updateError.None? ==>
        r == Success(())
        && rows == (if id in old(rows) then old(rows)[id := old(rows)[id].(allowedOrigins := NormalizeOrigins(origins))]
                    else old(rows))
    {
      var wid := RequireWorkspaceId(user, selectionCookie);
      if wid.Failure? {
        return Failure(wid.error);
      }
      if updateError.Some? {
        return Failure(updateError.value);
      }
      if id in rows {
        rows := rows[id := rows[id].(allowedOrigins := NormalizeOrigins(origins))];
      }
      return Success(());
    }
  }
}
