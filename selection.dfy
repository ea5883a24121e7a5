/**
 * The superadmin workspace selection cookie, and the one acceptance rule that
 * the workspace layout, the workspace route guard, the API-key actions and the
 * selection endpoint each write out: `parseInt(value, 10)` must be an integer >= 1.
 */
module Selection {
  import opened Base
  import opened Text

  const COOKIE_NAME: string := "superadmin_workspace_id"

  /** The selected workspace id carried by the cookie value `wid`, if it is acceptable. */
  function ParseSelection(wid: Option<string>): (r: Option<int>)
    ensures r.Some? ==> r.value >= 1
    ensures r.Some? <==> (wid.Some? && ParseInt(wid.value).Some? && ParseInt(wid.value).value >= 1)
    ensures r.Some? ==> r == ParseInt(wid.value)
    ensures wid.None? ==> r.None?
  {
    match wid
    case None => None
    case Some(v) =>
      var n := ParseInt(v);
      if n.Some? && n.value >= 1 then n else None
  }

  /** The workspace layout hands its parse to the auth provider; `null` becomes `undefined`, i.e. the provider's default `null`. */
  function LayoutSelection(cookie: Option<string>): (r: Option<int>)
    ensures r == ParseSelection(cookie)
  {
    var parsed := if cookie.Some? then ParseSelection(cookie) else None;
    parsed
  }

  /** The canonical decimal form a selection cookie is written with reads back as the same id. */
  lemma CanonicalSelectionRoundTrip(n: int)
    requires n >= 1
    ensures ParseSelection(Some(DecimalString(n))) == Some(n)
  {
    DecimalStringParses(n);
  }

  /** Leading zeros are tolerated: `"007"` selects 7. */
  lemma LeadingZerosTolerated()
    ensures ParseSelection(Some("007")) == Some(7)
  {
    var ds := "007";
    assert AllDigits(ds);
    assert DigitsValue(ds[..1]) == 0;
    assert ds[..2][..1] == ds[..1];
    assert DigitsValue(ds[..2]) == 0;
    assert ds[..3] == ds;
    DigitsThenJunkParse(ds, "");
    assert ds + "" == ds;
  }

  /** Trailing junk is tolerated: `"12abc"` selects 12. */
  lemma TrailingJunkTolerated()
    ensures ParseSelection(Some("12abc")) == Some(12)
  {
    assert "12" + "abc" == "12abc";
    assert "12"[..1] == "1" && "1"[..0] == [];
    assert DigitsValue("12") == 12;
    DigitsThenJunkParse("12", "abc");
    assert ParseInt("12abc") == Some(12);
  }

  /** Zero selects nothing. */
  lemma ZeroRejected()
    ensures ParseSelection(Some("0")) == None
  {
    var s := "0";
    assert AllDigits(s) && s + "" == s;
    DigitsThenJunkParse(s, "");
    assert s[..0] == [];
    assert DigitsValue(s) == 0;
  }

  /** A negative value selects nothing. */
  lemma NegativeRejected()
    ensures ParseSelection(Some("-3")) == None
  {
    assert "-3"[1..] == "3";
    assert TrimStart("-3") == "-3";
    LeadingDigitsOfDigits("3");
    assert ParseInt("-3") == Some(-3);
  }

  /** A value with no leading digit selects nothing. */
  lemma NonNumericRejected(s: string)
    requires s != [] && !IsWhitespace(s[0]) && !IsDigit(s[0]) && s[0] != '-' && s[0] != '+'
    ensures ParseSelection(Some(s)) == None
  {
    assert TrimStart(s) == s;
  }
}
