/**
 * Logging out: the provider's sign-out followed by a purge of every
 * browser-storage entry whose key begins with the provider's `sb-` prefix.
 */
module Logout {
  import opened Text

  const AUTH_KEY_PREFIX: string := "sb-"

  /** `AUTH_STORAGE_KEYS.some(prefix => key.startsWith(prefix))`, the list holding the one prefix `sb-`. */
  predicate IsAuthKey(key: string) {
    StartsWith(key, AUTH_KEY_PREFIX)
  }

  /** The keys of `ks` that hold auth data, in order. */
  function AuthKeys(ks: seq<string>): (r: seq<string>)
    ensures forall k :: k in r <==> k in ks && IsAuthKey(k)
  {
    if ks == [] then [] else (if IsAuthKey(ks[0]) then [ks[0]] else []) + AuthKeys(ks[1..])
  }

  /** The keys of `ks` that survive a purge, in order. */
  function KeptKeys(ks: seq<string>): (r: seq<string>)
    ensures forall k :: k in r <==> k in ks && !IsAuthKey(k)
  {
    if ks == [] then [] else (if IsAuthKey(ks[0]) then [] else [ks[0]]) + KeptKeys(ks[1..])
  }

  /** `ks` without the keys in `gone`. */
  function Without(ks: seq<string>, gone: set<string>): (r: seq<string>)
    ensures forall k :: k in r <==> k in ks && k !in gone
  {
    if ks == [] then [] else (if ks[0] in gone then [] else [ks[0]]) + Without(ks[1..], gone)
  }

  lemma {:induction false} WithoutOneMore(ks: seq<string>, gone: set<string>, k: string)
    ensures Without(Without(ks, gone), {k}) == Without(ks, gone + {k})
  {
    if ks != [] {
      WithoutOneMore(ks[1..], gone, k);
      var once := Without(ks, gone);
      if ks[0] in gone {
        assert once == Without(ks[1..], gone);
        assert Without(ks, gone + {k}) == Without(ks[1..], gone + {k});
      } else {
        assert once == [ks[0]] + Without(ks[1..], gone);
        assert once[0] == ks[0] && once[1..] == Without(ks[1..], gone);
        if ks[0] == k {
          assert Without(once, {k}) == Without(once[1..], {k});
          assert Without(ks, gone + {k}) == Without(ks[1..], gone + {k});
        } else {
          assert Without(once, {k}) == [ks[0]] + Without(once[1..], {k});
          assert Without(ks, gone + {k}) == [ks[0]] + Without(ks[1..], gone + {k});
        }
      }
    }
  }

  lemma {:induction false} WithoutAuthKeys(ks: seq<string>, gone: set<string>)
    requires forall k :: k in ks ==> (k in gone <==> IsAuthKey(k))
    ensures Without(ks, gone) == KeptKeys(ks)
  {
    if ks != [] {
      WithoutAuthKeys(ks[1..], gone);
    }
  }

  /** Purging a purged key list changes nothing. */
  lemma {:induction false} KeptKeysIdempotent(ks: seq<string>)
    ensures KeptKeys(KeptKeys(ks)) == KeptKeys(ks)
  {
    if ks != [] {
      KeptKeysIdempotent(ks[1..]);
      if IsAuthKey(ks[0]) {
        assert KeptKeys(ks) == KeptKeys(ks[1..]);
      } else {
        assert KeptKeys(ks) == [ks[0]] + KeptKeys(ks[1..]);
        assert KeptKeys(ks)[1..] == KeptKeys(ks[1..]);
      }
    }
  }

  /** The entries of `items` a purge keeps. */
  function KeptItems(items: map<string, string>): (r: map<string, string>)
    ensures forall k :: k in r <==> k in items && !IsAuthKey(k)
    ensures forall k :: k in r ==> r[k] == items[k]
  {
    map k | k in items && !IsAuthKey(k) :: items[k]
  }

  /** Clearing twice leaves a storage exactly as clearing once does. */
  lemma PurgeIdempotent(ks: seq<string>, items: map<string, string>)
    ensures KeptKeys(KeptKeys(ks)) == KeptKeys(ks)
    ensures KeptItems(KeptItems(items)) == KeptItems(items)
  {
    KeptKeysIdempotent(ks);
  }

  /** A `Storage` (`localStorage` or `sessionStorage`): keys in index order, and their values. */
  class WebStorage {
    var keys: seq<string>
    var items: map<string, string>

    ghost predicate Valid()
      reads this
    {
      NoDuplicates(keys) && (forall k :: k in items <==> k in keys)
    }

    constructor (ks: seq<string>, items0: map<string, string>)
      requires NoDuplicates(ks)
      requires forall k :: k in items0 <==> k in ks
      ensures keys == ks && items == items0 && Valid()
    {
      keys := ks;
      items := items0;
    }

    /** `storage.length`. */
    function Length(): nat
      reads this
    {
      |keys|
    }

    /** `storage.key(i)`. */
    function Key(i: nat): string
      reads this
      requires i < |keys|
    {
      keys[i]
    }

    /** `storage.removeItem(k)`. */
    method RemoveItem(k: string)
      modifies this
      ensures keys == Without(old(keys), {k})
      ensures items == old(items) - {k}
    {
      keys := Without(keys, {k});
      items := items - {k};
    }
  }

  predicate NoDuplicates(ks: seq<string>) {
    forall i, j :: 0 <= i < j < |ks| ==> ks[i] != ks[j]
  }

  /** Removing keys from a duplicate-free list keeps it duplicate-free. */
  lemma {:induction false} WithoutNoDuplicates(ks: seq<string>, gone: set<string>)
    requires NoDuplicates(ks)
    ensures NoDuplicates(Without(ks, gone))
  {
    if ks != [] {
      WithoutNoDuplicates(ks[1..], gone);
      var rest := Without(ks[1..], gone);
      var r := Without(ks, gone);
      if ks[0] !in gone {
        assert r == [ks[0]] + rest;
        forall i, j | 0 <= i < j < |r| ensures r[i] != r[j] {
          if i == 0 {
            assert r[j] == rest[j - 1];
            assert r[j] in ks[1..];
            var m :| 0 <= m < |ks| - 1 && ks[1..][m] == r[j];
            assert ks[m + 1] == r[j];
          } else {
            assert r[i] == rest[i - 1] && r[j] == rest[j - 1];
          }
        }
      }
    }
  }

  lemma {:induction false} WithoutNothing(ks: seq<string>)
    ensures Without(ks, {}) == ks
  {
    if ks != [] {
      WithoutNothing(ks[1..]);
      assert ks == [ks[0]] + ks[1..];
    }
  }

  /** The first pass: collect, in index order, the keys to remove. */
  method CollectAuthKeys(s: WebStorage) returns (toRemove: seq<string>)
    ensures toRemove == AuthKeys(s.keys)
  {
    toRemove := [];
    var i := 0;
    while i < s.Length()
      invariant 0 <= i <= |s.keys|
      invariant toRemove == AuthKeys(s.keys[..i])
    {
      var key := s.Key(i);
      AuthKeysSnoc(s.keys[..i], key);
      assert s.keys[..i + 1] == s.keys[..i] + [key];
      if key != "" && IsAuthKey(key) {
        toRemove := toRemove + [key];
      }
      i := i + 1;
    }
    assert s.keys[..i] == s.keys;
  }

  lemma {:induction false} AuthKeysSnoc(ks: seq<string>, k: string)
    ensures AuthKeys(ks + [k]) == AuthKeys(ks) + (if IsAuthKey(k) then [k] else [])
  {
    if ks == [] {
      assert [] + [k] == [k];
    } else {
      assert (ks + [k])[1..] == ks[1..] + [k];
      AuthKeysSnoc(ks[1..], k);
    }
  }

  /** Storage keys after `removeItem` of each of `rs`, in order. */
  function RemoveEach(ks: seq<string>, rs: seq<string>): seq<string> {
    if rs == [] then ks else Without(RemoveEach(ks, rs[..|rs| - 1]), {rs[|rs| - 1]})
  }

  /** Storage entries after `removeItem` of each of `rs`, in order. */
  function RemoveEachItem(items: map<string, string>, rs: seq<string>): map<string, string> {
    if rs == [] then items else RemoveEachItem(items, rs[..|rs| - 1]) - {rs[|rs| - 1]}
  }

  /** Removing keys one at a time removes the set of them. */
  lemma RemoveEachIsWithout(ks: seq<string>, items: map<string, string>, rs: seq<string>)
    ensures RemoveEach(ks, rs) == Without(ks, set x | x in rs)
    ensures RemoveEachItem(items, rs) == items - set x | x in rs
  {
    RemoveEachKeys(ks, rs);
    RemoveEachItems(items, rs);
  }

  lemma SetOfSnoc(rs: seq<string>, init: seq<string>, last: string)
    requires rs == init + [last]
    ensures (set x | x in rs) == (set x | x in init) + {last}
  {
  }

  lemma {:induction false} RemoveEachKeys(ks: seq<string>, rs: seq<string>)
    ensures RemoveEach(ks, rs) == Without(ks, set x | x in rs)
  {
    if rs == [] {
      WithoutNothing(ks);
      assert (set x | x in rs) == {};
    } else {
      var init := rs[..|rs| - 1];
      RemoveEachKeys(ks, init);
      WithoutOneMore(ks, (set x | x in init), rs[|rs| - 1]);
      assert rs == init + [rs[|rs| - 1]];
      SetOfSnoc(rs, init, rs[|rs| - 1]);
    }
  }

  lemma {:induction false} RemoveEachItems(items: map<string, string>, rs: seq<string>)
    ensures RemoveEachItem(items, rs) == items - set x | x in rs
  {
    if rs == [] {
      assert (set x | x in rs) == {};
    } else {
      var init := rs[..|rs| - 1];
      RemoveEachItems(items, init);
      assert rs == init + [rs[|rs| - 1]];
      SetOfSnoc(rs, init, rs[|rs| - 1]);
    }
  }

  /** `clearAuthStorage` for one storage: collect the auth keys, then remove them. */
  method ClearStorage(s: WebStorage)
    modifies s
    requires s.Valid()
    ensures s.Valid()
    ensures s.keys == KeptKeys(old(s.keys))
    ensures s.items == KeptItems(old(s.items))
  {
    var toRemove := CollectAuthKeys(s);
    ghost var ks := s.keys;
    var j := 0;
    while j < |toRemove|
      invariant 0 <= j <= |toRemove|
      invariant s.keys == RemoveEach(ks, toRemove[..j])
      invariant s.items == RemoveEachItem(old(s.items), toRemove[..j])
    {
      s.RemoveItem(toRemove[j]);
      assert toRemove[..j + 1][..j] == toRemove[..j];
      j := j + 1;
    }
    assert toRemove[..j] == toRemove;
    RemoveEachIsWithout(ks, old(s.items), toRemove);
    PurgeComplete(ks, old(s.items), (set x | x in toRemove));
  }

  /** Removing exactly the auth keys leaves a valid storage holding the kept keys and entries. */
  lemma PurgeComplete(ks: seq<string>, items: map<string, string>, gone: set<string>)
    requires NoDuplicates(ks) && forall k :: k in items <==> k in ks
    requires forall k :: k in gone <==> k in AuthKeys(ks)
    ensures Without(ks, gone) == KeptKeys(ks) && items - gone == KeptItems(items)
    ensures NoDuplicates(Without(ks, gone))
    ensures forall k :: k in items - gone <==> k in Without(ks, gone)
  {
    WithoutAuthKeys(ks, gone);
    ItemsWithoutAuth(items, ks, gone);
    WithoutNoDuplicates(ks, gone);
  }

  lemma ItemsWithoutAuth(items: map<string, string>, ks: seq<string>, gone: set<string>)
    requires forall k :: k in items <==> k in ks
    requires forall k :: k in ks ==> (k in gone <==> IsAuthKey(k))
    ensures items - gone == KeptItems(items)
  {
  }

  /**
   * `clearAuthStorage()`. Without a window nothing happens. A storage that
   * throws on access (`localThrows`, `sessionThrows`) aborts the rest of the
   * purge, and the error is swallowed.
   */
  method ClearAuthStorage(hasWindow: bool, local: WebStorage, session: WebStorage,
                          localThrows: bool, sessionThrows: bool)
    modifies local, session
    requires local != session && local.Valid() && session.Valid()
    ensures local.Valid() && session.Valid()
    ensures hasWindow && !localThrows ==>
      local.keys == KeptKeys(old(local.keys)) && local.items == KeptItems(old(local.items))
    ensures !(hasWindow && !localThrows) ==> local.keys == old(local.keys) && local.items == old(local.items)
    ensures hasWindow && !localThrows && !sessionThrows ==>
      session.keys == KeptKeys(old(session.keys)) && session.items == KeptItems(old(session.items))
    ensures !(hasWindow && !localThrows && !sessionThrows) ==>
      session.keys == old(session.keys) && session.items == old(session.items)
  {
    if !hasWindow || localThrows {
      return;
    }
    ClearStorage(local);
    if sessionThrows {
      return;
    }
    ClearStorage(session);
  }

  /** The visible steps of a logout, in order. */
  datatype LogoutStep = ProviderSignOut | PurgeStorage

  /** `performLogout(client)`: sign out when there is a client, then purge storage in either case. */
  method PerformLogout(hasClient: bool, hasWindow: bool, local: WebStorage, session: WebStorage,
                       localThrows: bool, sessionThrows: bool) returns (steps: seq<LogoutStep>)
    modifies local, session
    requires local != session && local.Valid() && session.Valid()
    ensures steps == (if hasClient then [ProviderSignOut, PurgeStorage] else [PurgeStorage])
    ensures local.Valid() && session.Valid()
    ensures hasWindow && !localThrows ==>
      local.keys == KeptKeys(old(local.keys)) && local.items == KeptItems(old(local.items))
    ensures hasWindow && !localThrows && !sessionThrows ==>
      session.keys == KeptKeys(old(session.keys)) && session.items == KeptItems(old(session.items))
  {
    steps := [];
    if hasClient {
      steps := steps + [ProviderSignOut];
    }
    ClearAuthStorage(hasWindow, local, session, localThrows, sessionThrows);
    steps := steps + [PurgeStorage];
  }
}
