/**
 * Response cookie jars (`response.cookies`) and the `copyCookies` helper that
 * both route guards use to carry refreshed session cookies onto a redirect.
 */
module Cookies {
  import opened Base

  /** The attributes passed as the third argument of `cookies.set`; `DefaultOptions` when none are. */
  datatype CookieOptions =
    | DefaultOptions
    | Options(httpOnly: bool, secure: bool, sameSite: string, maxAge: int, path: string)

  datatype Cookie = Cookie(name: string, value: string, options: CookieOptions)

  predicate UniqueNames(cs: seq<Cookie>) {
    forall i, j :: 0 <= i < j < |cs| ==> cs[i].name != cs[j].name
  }

  function Lookup(cs: seq<Cookie>, name: string): (r: Option<Cookie>)
    ensures r.Some? ==> r.value in cs && r.value.name == name
    ensures r.None? ==> forall c :: c in cs ==> c.name != name
  {
    if cs == [] then None
    else if cs[0].name == name then Some(cs[0])
    else Lookup(cs[1..], name)
  }

  /** `cookies.set(c)`: replaces the cookie of the same name in place, or appends it. */
  function Put(cs: seq<Cookie>, c: Cookie): (r: seq<Cookie>)
    ensures (forall d :: d in cs ==> d.name != c.name) ==> r == cs + [c]
  {
    if cs == [] then [c]
    else if cs[0].name == c.name then [c] + cs[1..]
    else [cs[0]] + Put(cs[1..], c)
  }

  /** After `Put`, looking up the cookie's name finds it, and every other name is unaffected. */
  lemma {:induction false} PutLookup(cs: seq<Cookie>, c: Cookie, n: string)
    ensures Lookup(Put(cs, c), c.name) == Some(c)
    ensures n != c.name ==> Lookup(Put(cs, c), n) == Lookup(cs, n)
  {
    if cs != [] && cs[0].name != c.name {
      PutLookup(cs[1..], c, n);
    }
  }

  /** `Put` keeps names unique. */
  lemma {:induction false} PutUnique(cs: seq<Cookie>, c: Cookie)
    requires UniqueNames(cs)
    ensures UniqueNames(Put(cs, c))
    ensures forall d :: d in Put(cs, c) ==> d == c || d in cs
  {
    if cs != [] && cs[0].name != c.name {
      PutUnique(cs[1..], c);
      var r := Put(cs, c);
      assert r == [cs[0]] + Put(cs[1..], c);
      forall i, j | 0 <= i < j < |r| ensures r[i].name != r[j].name {
        if i == 0 {
          assert r[j] in Put(cs[1..], c);
          if r[j] != c {
            assert r[j] in cs[1..];
            var k :| 1 <= k < |cs| && cs[k] == r[j];
          }
        }
      }
    }
  }

  /** Setting every cookie of `xs`, in order. */
  function PutAll(cs: seq<Cookie>, xs: seq<Cookie>): seq<Cookie>
  {
    if xs == [] then cs else Put(PutAll(cs, xs[..|xs| - 1]), xs[|xs| - 1])
  }

  lemma {:induction false} PutAllUnique(cs: seq<Cookie>, xs: seq<Cookie>)
    requires UniqueNames(cs)
    ensures UniqueNames(PutAll(cs, xs))
  {
    if xs != [] {
      PutAllUnique(cs, xs[..|xs| - 1]);
      PutUnique(PutAll(cs, xs[..|xs| - 1]), xs[|xs| - 1]);
    }
  }

  lemma PutAllSnoc(cs: seq<Cookie>, xs: seq<Cookie>, x: Cookie)
    ensures PutAll(cs, xs + [x]) == Put(PutAll(cs, xs), x)
  {
    assert (xs + [x])[..|xs|] == xs;
  }

  /** The `(name, value)` pairs of `cs` with their options dropped. */
  function StripOptions(cs: seq<Cookie>): (r: seq<Cookie>)
    ensures |r| == |cs|
    ensures forall i :: 0 <= i < |cs| ==> r[i] == Cookie(cs[i].name, cs[i].value, DefaultOptions)
  {
    if cs == [] then [] else [Cookie(cs[0].name, cs[0].value, DefaultOptions)] + StripOptions(cs[1..])
  }

  lemma StripOptionsSnoc(xs: seq<Cookie>, i: nat)
    requires i < |xs|
    ensures StripOptions(xs[..i + 1]) == StripOptions(xs[..i]) + [Cookie(xs[i].name, xs[i].value, DefaultOptions)]
  {
    var a, b := StripOptions(xs[..i + 1]), StripOptions(xs[..i]);
    var c := b + [Cookie(xs[i].name, xs[i].value, DefaultOptions)];
    assert |a| == |c|;
    forall k | 0 <= k < |a| ensures a[k] == c[k] {
      if k < i {
        assert xs[..i + 1][k] == xs[..i][k];
      }
    }
  }

  /** Copying a duplicate-free jar into an empty one reproduces its names and values, in order. */
  lemma {:induction false} CopyIntoEmpty(cs: seq<Cookie>)
    requires UniqueNames(cs)
    ensures PutAll([], StripOptions(cs)) == StripOptions(cs)
  {
    if cs != [] {
      var n := |cs| - 1;
      var init := cs[..n];
      var last := Cookie(cs[n].name, cs[n].value, DefaultOptions);
      assert cs[..n + 1] == cs;
      StripOptionsSnoc(cs, n);
      assert UniqueNames(init);
      CopyIntoEmpty(init);
      PutAllSnoc([], StripOptions(init), last);
      forall d | d in StripOptions(init) ensures d.name != last.name {
        var i :| 0 <= i < |StripOptions(init)| && StripOptions(init)[i] == d;
        assert cs[i].name != cs[n].name;
      }
    }
  }

  class CookieJar {
    var entries: seq<Cookie>

    constructor ()
      ensures entries == []
    {
      entries := [];
    }

    /** `cookies.getAll()`. */
    function GetAll(): seq<Cookie>
      reads this
    {
      entries
    }

    /** `cookies.set(name, value, options)`. */
    method Set(name: string, value: string, options: CookieOptions)
      modifies this
      ensures entries == Put(old(entries), Cookie(name, value, options))
    {
      entries := Put(entries, Cookie(name, value, options));
    }
  }

  /** The provider's `setAll(cookiesToSet)` callback: `response.cookies.set(name, value, options)` for each, in order. */
  method SetAll(jar: CookieJar, cs: seq<Cookie>)
    modifies jar
    ensures jar.entries == PutAll(old(jar.entries), cs)
  {
    var i := 0;
    while i < |cs|
      invariant 0 <= i <= |cs|
      invariant jar.entries == PutAll(old(jar.entries), cs[..i])
    {
      jar.Set(cs[i].name, cs[i].value, cs[i].options);
      assert cs[..i + 1][..i] == cs[..i];
      i := i + 1;
    }
    assert cs[..i] == cs;
  }

  /** `copyCookies(from, to)`: `from.cookies.getAll().forEach(c => to.cookies.set(c.name, c.value))`. */
  method CopyCookies(from: CookieJar, to: CookieJar)
    requires from != to
    modifies to
    ensures to.entries == PutAll(old(to.entries), StripOptions(from.entries))
    ensures from.entries == old(from.entries)
  {
    var all := from.GetAll();
    var i := 0;
    while i < |all|
      invariant 0 <= i <= |all|
      invariant to.entries == PutAll(old(to.entries), StripOptions(all[..i]))
    {
      to.Set(all[i].name, all[i].value, DefaultOptions);
      StripOptionsSnoc(all, i);
      PutAllSnoc(old(to.entries), StripOptions(all[..i]), Cookie(all[i].name, all[i].value, DefaultOptions));
      i := i + 1;
    }
    assert all[..i] == all;
  }
}
