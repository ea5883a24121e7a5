/** `cn(...classes)`, the class-name joiner of the shared UI code. */
module ClassNames {
  import opened Text

  /** One argument of `cn`: a string, `undefined`, `null` or `false`. */
  datatype ClassArg = Str(s: string) | Undefined | Null | False

  /** `.filter(Boolean)`: the non-empty strings, in argument order. */
  function Kept(args: seq<ClassArg>): (r: seq<string>)
    ensures forall x :: x in r ==> x != ""
    ensures |r| <= |args|
  {
    if args == [] then []
    else if args[0].Str? && args[0].s != "" then [args[0].s] + Kept(args[1..])
    else Kept(args[1..])
  }

  /** `cn(...classes)`. */
  function Cn(args: seq<ClassArg>): string {
    JoinWithSpace(Kept(args))
  }

  /** Filtering distributes over concatenation, so kept strings keep their relative order. */
  lemma {:induction false} KeptAppend(a: seq<ClassArg>, b: seq<ClassArg>)
    ensures Kept(a + b) == Kept(a) + Kept(b)
  {
    if a == [] {
      assert a + b == b;
    } else {
      assert (a + b)[1..] == a[1..] + b;
      KeptAppend(a[1..], b);
    }
  }

  lemma {:induction false} JoinAppend(xs: seq<string>, ys: seq<string>)
    requires xs != [] && ys != []
    ensures JoinWithSpace(xs + ys) == JoinWithSpace(xs) + " " + JoinWithSpace(ys)
  {
    if |xs| == 1 {
      assert (xs + ys)[1..] == ys;
    } else {
      assert (xs + ys)[1..] == xs[1..] + ys;
      JoinAppend(xs[1..], ys);
    }
  }

  /** `cn(a..., b...)` is `cn(a...)` and `cn(b...)` separated by one space, when both keep something. */
  lemma CnAppend(a: seq<ClassArg>, b: seq<ClassArg>)
    requires Kept(a) != [] && Kept(b) != []
    ensures Cn(a + b) == Cn(a) + " " + Cn(b)
  {
    KeptAppend(a, b);
    JoinAppend(Kept(a), Kept(b));
  }

  /** A falsy argument, or an empty string, anywhere in the list changes nothing. */
  lemma FalsyDropped(a: seq<ClassArg>, x: ClassArg, b: seq<ClassArg>)
    requires !x.Str? || x.s == ""
    ensures Cn(a + [x] + b) == Cn(a + b)
  {
    KeptAppend(a + [x], b);
    KeptAppend(a, [x]);
    KeptAppend(a, b);
    assert Kept([x]) == [];
    assert Kept(a) + [] == Kept(a);
  }

  /** No arguments, or only falsy ones, give `""`. */
  lemma {:induction false} AllFalsyEmpty(args: seq<ClassArg>)
    requires forall i :: 0 <= i < |args| ==> !args[i].Str? || args[i].s == ""
    ensures Cn(args) == ""
  {
    if args != [] {
      AllFalsyEmpty(args[1..]);
    }
  }

  /** A single non-empty string comes back as it is, whitespace included. */
  lemma SingleKept(s: string)
    requires s != ""
    ensures Cn([Str(s)]) == s
  {
    assert [Str(s)][1..] == [];
  }

  /** Duplicates and whitespace-only strings are not collapsed. */
  lemma DuplicatesKept(s: string)
    requires s != ""
    ensures Cn([Str(s), Str(s)]) == s + " " + s
  {
    SingleKept(s);
    assert [Str(s), Str(s)] == [Str(s)] + [Str(s)];
    CnAppend([Str(s)], [Str(s)]);
  }
}
