/**
 * The superadmin application's notification mails: HTML escaping of the
 * workspace name, the three messages built around it, and the send step,
 * which is skipped when no mail transport is configured.
 */
module Email {
  /** `s.replace(/c/g, rep)` for a single-character pattern. */
  function ReplaceAll(s: string, c: char, rep: string): string {
    if s == [] then [] else (if s[0] == c then rep else [s[0]]) + ReplaceAll(s[1..], c, rep)
  }

  lemma {:induction false} ReplaceAllAppend(a: string, b: string, c: char, rep: string)
    ensures ReplaceAll(a + b, c, rep) == ReplaceAll(a, c, rep) + ReplaceAll(b, c, rep)
  {
    if a != [] {
      var head := if a[0] == c then rep else [a[0]];
      assert (a + b)[0] == a[0] && (a + b)[1..] == a[1..] + b;
      ReplaceAllAppend(a[1..], b, c, rep);
      calc {
        ReplaceAll(a + b, c, rep);
        head + ReplaceAll(a[1..] + b, c, rep);
        head + (ReplaceAll(a[1..], c, rep) + ReplaceAll(b, c, rep));
        (head + ReplaceAll(a[1..], c, rep)) + ReplaceAll(b, c, rep);
      }
    } else {
      assert a + b == b;
    }
  }

  /** Replacing a character that does not occur changes nothing. */
  lemma {:induction false} ReplaceAbsent(s: string, c: char, rep: string)
    requires c !in s
    ensures ReplaceAll(s, c, rep) == s
  {
    if s != [] {
      assert s[0] != c && c !in s[1..];
      ReplaceAbsent(s[1..], c, rep);
      assert s == [s[0]] + s[1..];
    }
  }

  lemma ReplaceSingle(c: char, d: char, rep: string)
    ensures ReplaceAll([c], d, rep) == if c == d then rep else [c]
  {
    assert [c][1..] == [];
  }

  /** `escapeHtml(s)`: `&` first, then `<`, `>` and `"`. */
  function EscapeHtml(s: string): string {
    ReplaceAll(ReplaceAll(ReplaceAll(ReplaceAll(s, '&', "&amp;"), '<', "&lt;"), '>', "&gt;"), '"', "&quot;")
  }

  /** The chunk a single character becomes. */
  function EscapeChar(c: char): (r: string)
    ensures !Special(c) ==> r == [c]
  {
    if c == '&' then "&amp;"
    else if c == '<' then "&lt;"
    else if c == '>' then "&gt;"
    else if c == '"' then "&quot;"
    else [c]
  }

  /** The reference escaping: every character replaced by its chunk, independently. */
  function EscapeEach(s: string): (r: string)
    ensures '<' !in r && '>' !in r && '"' !in r
  {
    if s == [] then [] else EscapeChar(s[0]) + EscapeEach(s[1..])
  }

  lemma EscapeCharChain(c: char)
    ensures EscapeHtml([c]) == EscapeChar(c)
  {
    ReplaceSingle(c, '&', "&amp;");
    if c == '&' {
      ChainAfterAmp("&amp;");
    } else {
      ReplaceSingle(c, '<', "&lt;");
      if c == '<' {
        ChainAfterLt("&lt;");
      } else {
        ReplaceSingle(c, '>', "&gt;");
        if c == '>' {
          ReplaceAbsent("&gt;", '"', "&quot;");
        } else {
          ReplaceSingle(c, '"', "&quot;");
        }
      }
    }
  }

  /** Text free of `<`, `>` and `"` passes the last three replacements unchanged. */
  lemma ChainAfterAmp(t: string)
    requires '<' !in t && '>' !in t && '"' !in t
    ensures ReplaceAll(ReplaceAll(ReplaceAll(t, '<', "&lt;"), '>', "&gt;"), '"', "&quot;") == t
  {
    ReplaceAbsent(t, '<', "&lt;");
    ChainAfterLt(t);
  }

  /** Text free of `>` and `"` passes the last two replacements unchanged. */
  lemma ChainAfterLt(t: string)
    requires '>' !in t && '"' !in t
    ensures ReplaceAll(ReplaceAll(t, '>', "&gt;"), '"', "&quot;") == t
  {
    ReplaceAbsent(t, '>', "&gt;");
    ReplaceAbsent(t, '"', "&quot;");
  }

  /** Because `&` is replaced first, the chain of replacements escapes each character on its own. */
  lemma {:induction false} EscapeHtmlIsPerCharacter(s: string)
    ensures EscapeHtml(s) == EscapeEach(s)
  {
    if s != [] {
      EscapeHtmlIsPerCharacter(s[1..]);
      assert s == [s[0]] + s[1..];
      var a, b := [s[0]], s[1..];
      ReplaceAllAppend(a, b, '&', "&amp;");
      var a1, b1 := ReplaceAll(a, '&', "&amp;"), ReplaceAll(b, '&', "&amp;");
      ReplaceAllAppend(a1, b1, '<', "&lt;");
      var a2, b2 := ReplaceAll(a1, '<', "&lt;"), ReplaceAll(b1, '<', "&lt;");
      ReplaceAllAppend(a2, b2, '>', "&gt;");
      var a3, b3 := ReplaceAll(a2, '>', "&gt;"), ReplaceAll(b2, '>', "&gt;");
      ReplaceAllAppend(a3, b3, '"', "&quot;");
      EscapeCharChain(s[0]);
    }
  }

  /** The escaped text contains no `<`, `>` or `"`. */
  lemma EscapedHasNoMarkup(s: string)
    ensures '<' !in EscapeHtml(s) && '>' !in EscapeHtml(s) && '"' !in EscapeHtml(s)
  {
    EscapeHtmlIsPerCharacter(s);
  }

  /** The apostrophe is left as it is. */
  lemma ApostropheKept()
    ensures EscapeHtml("'") == "'"
  {
    EscapeCharChain('\'');
  }

  /** Decoding the four entities, left to right. */
  function Unescape(s: string): string {
    if |s| >= 5 && s[..5] == "&amp;" then "&" + Unescape(s[5..])
    else if |s| >= 4 && s[..4] == "&lt;" then "<" + Unescape(s[4..])
    else if |s| >= 4 && s[..4] == "&gt;" then ">" + Unescape(s[4..])
    else if |s| >= 6 && s[..6] == "&quot;" then "\"" + Unescape(s[6..])
    else if s == [] then []
    else [s[0]] + Unescape(s[1..])
  }

  lemma UnescapeChunk(c: char, rest: string)
    ensures Unescape(EscapeChar(c) + rest) == [c] + Unescape(rest)
  {
    if c == '&' {
      UnescapeAmp(rest);
    } else if c == '<' {
      UnescapeLt(rest);
    } else if c == '>' {
      UnescapeGt(rest);
    } else if c == '"' {
      UnescapeQuot(rest);
    } else {
      UnescapePlain(c, rest);
    }
  }

  lemma UnescapeAmp(rest: string)
    ensures Unescape("&amp;" + rest) == "&" + Unescape(rest)
  {
    var t := "&amp;" + rest;
    assert t[..5] == "&amp;" && t[5..] == rest;
  }

  lemma UnescapeLt(rest: string)
    ensures Unescape("&lt;" + rest) == "<" + Unescape(rest)
  {
    var t := "&lt;" + rest;
    assert t[1] == 'l';
    if |t| >= 5 {
      assert t[..5][1] != "&amp;"[1];
    }
    assert t[..4] == "&lt;" && t[4..] == rest;
  }

  lemma UnescapeGt(rest: string)
    ensures Unescape("&gt;" + rest) == ">" + Unescape(rest)
  {
    var t := "&gt;" + rest;
    assert t[1] == 'g';
    if |t| >= 5 {
      assert t[..5][1] != "&amp;"[1];
    }
    assert t[..4][1] != "&lt;"[1];
    assert t[..4] == "&gt;" && t[4..] == rest;
  }

  lemma UnescapeQuot(rest: string)
    ensures Unescape("&quot;" + rest) == "\"" + Unescape(rest)
  {
    var t := "&quot;" + rest;
    assert t[1] == 'q';
    assert t[..5][1] != "&amp;"[1];
    assert t[..4][1] != "&lt;"[1] && t[..4][1] != "&gt;"[1];
    assert t[..6] == "&quot;" && t[6..] == rest;
  }

  lemma UnescapePlain(c: char, rest: string)
    requires c != '&'
    ensures Unescape([c] + rest) == [c] + Unescape(rest)
  {
    var t := [c] + rest;
    assert t[0] == c && t[1..] == rest;
    if |t| >= 4 {
      assert t[..4][0] != '&';
    }
  }

  /** Decoding the entities back recovers the original text. */
  lemma {:induction false} UnescapeRoundTrip(s: string)
    ensures Unescape(EscapeHtml(s)) == s
  {
    EscapeHtmlIsPerCharacter(s);
    EachRoundTrip(s);
  }

  lemma {:induction false} EachRoundTrip(s: string)
    ensures Unescape(EscapeEach(s)) == s
  {
    if s != [] {
      EachRoundTrip(s[1..]);
      UnescapeChunk(s[0], EscapeEach(s[1..]));
      assert s == [s[0]] + s[1..];
    }
  }

  lemma {:induction false} EscapeEachAppend(a: string, b: string)
    ensures EscapeEach(a + b) == EscapeEach(a) + EscapeEach(b)
  {
    if a != [] {
      assert (a + b)[0] == a[0] && (a + b)[1..] == a[1..] + b;
      EscapeEachAppend(a[1..], b);
      calc {
        EscapeEach(a + b);
        EscapeChar(a[0]) + EscapeEach(a[1..] + b);
        EscapeChar(a[0]) + (EscapeEach(a[1..]) + EscapeEach(b));
        (EscapeChar(a[0]) + EscapeEach(a[1..])) + EscapeEach(b);
      }
    } else {
      assert a + b == b;
    }
  }

  /** Text free of the four special characters is left as it is. */
  lemma {:induction false} PlainUnchanged(s: string)
    requires forall i :: 0 <= i < |s| ==> !Special(s[i])
    ensures EscapeHtml(s) == s
  {
    EscapeHtmlIsPerCharacter(s);
    PlainEach(s);
  }

  lemma {:induction false} PlainEach(s: string)
    requires forall i :: 0 <= i < |s| ==> !Special(s[i])
    ensures EscapeEach(s) == s
  {
    if s != [] {
      PlainEach(s[1..]);
      assert s == [s[0]] + s[1..];
    }
  }

  /** A lone ampersand becomes its entity. */
  lemma EscapeAmpersand()
    ensures EscapeHtml("&") == "&amp;"
  {
    EscapeCharChain('&');
  }

  predicate Special(c: char) {
    c == '&' || c == '<' || c == '>' || c == '"'
  }

  /** Escaping never shortens, and lengthens any text holding an ampersand. */
  lemma {:induction false} EscapeLength(t: string)
    ensures |EscapeEach(t)| >= |t|
    ensures '&' in t ==> |EscapeEach(t)| > |t|
  {
    if t != [] {
      EscapeLength(t[1..]);
      if t[0] != '&' {
        assert '&' in t ==> '&' in t[1..];
      }
    }
  }

  /** Escaping a text with a special character yields an ampersand. */
  lemma {:induction false} SpecialGivesAmpersand(s: string)
    requires exists i :: 0 <= i < |s| && Special(s[i])
    ensures '&' in EscapeEach(s)
  {
    if Special(s[0]) {
      assert EscapeChar(s[0])[0] == '&';
      assert EscapeEach(s)[0] == '&';
    } else {
      var i :| 0 <= i < |s| && Special(s[i]);
      assert s[1..][i - 1] == s[i];
      SpecialGivesAmpersand(s[1..]);
      assert EscapeEach(s) == EscapeChar(s[0]) + EscapeEach(s[1..]);
    }
  }

  /** Escaping is idempotent exactly on text without `&`, `<`, `>` and `"`: for instance `&` becomes `&amp;` and then `&amp;amp;`. */
  lemma EscapeIdempotentIff(s: string)
    ensures EscapeHtml(EscapeHtml(s)) == EscapeHtml(s) <==> forall i :: 0 <= i < |s| ==> !Special(s[i])
  {
    EscapeHtmlIsPerCharacter(s);
    EscapeHtmlIsPerCharacter(EscapeEach(s));
    if forall i :: 0 <= i < |s| ==> !Special(s[i]) {
      PlainEach(s);
    } else {
      SpecialGivesAmpersand(s);
      EscapeLength(EscapeEach(s));
    }
  }

  datatype MailKind = WorkspaceCreated | WorkspaceDisabled | WorkspaceEnabled

  datatype Mail = Mail(to: string, subject: string, text: string, html: string)

  // The fixed parts of the three messages around the workspace name.
  const CREATED_SUBJECT_END: string := "\" is ready"
  const CREATED_TEXT_START: string := "Your new workspace \""
  const CREATED_TEXT_END: string := "\" has been created. You can now log in to the workspace app with the credentials you received."
  const CREATED_HTML_START: string := "<p>Your new workspace <strong>"
  const CREATED_HTML_END: string := "</strong> has been created.</p>\n    <p>You can now log in to the workspace app with the credentials you used during setup.</p>\n    <p>If you have any questions, please contact your administrator.</p>"
  const DISABLED_SUBJECT_END: string := "\" has been disabled"
  const DISABLED_TEXT_END: string := "\" has been disabled by an administrator. You will not be able to log in to the workspace app until it is enabled again. Please contact your administrator if you have questions."
  const DISABLED_HTML_END: string := "</strong> has been disabled by an administrator.</p>\n    <p>You will not be able to log in to the workspace app until it is enabled again.</p>\n    <p>Please contact your administrator if you have questions.</p>"
  const ENABLED_SUBJECT_END: string := "\" has been enabled"
  const ENABLED_TEXT_END: string := "\" has been enabled. You can now log in to the workspace app again."
  const ENABLED_HTML_END: string := "</strong> has been enabled.</p>\n    <p>You can now log in to the workspace app again.</p>"
  const WORKSPACE_QUOTE: string := "Your workspace \""
  const WORKSPACE_HTML_START: string := "<p>Your workspace <strong>"

  /** The message of each kind for the workspace `name`. */
  function BuildMail(kind: MailKind, to: string, name: string): Mail {
    match kind
    case WorkspaceCreated =>
      Mail(to, WORKSPACE_QUOTE + name + CREATED_SUBJECT_END, CREATED_TEXT_START + name + CREATED_TEXT_END,
           CREATED_HTML_START + EscapeHtml(name) + CREATED_HTML_END)
    case WorkspaceDisabled =>
      Mail(to, WORKSPACE_QUOTE + name + DISABLED_SUBJECT_END, WORKSPACE_QUOTE + name + DISABLED_TEXT_END,
           WORKSPACE_HTML_START + EscapeHtml(name) + DISABLED_HTML_END)
    case WorkspaceEnabled =>
      Mail(to, WORKSPACE_QUOTE + name + ENABLED_SUBJECT_END, WORKSPACE_QUOTE + name + ENABLED_TEXT_END,
           WORKSPACE_HTML_START + EscapeHtml(name) + ENABLED_HTML_END)
  }

  /** Each mail goes to the given address and names the workspace verbatim in its subject and text, but escaped in its HTML. */
  lemma NameEscapedOnlyInHtml(kind: MailKind, to: string, name: string)
    ensures var m := BuildMail(kind, to, name);
      m.to == to
      && (exists p, q :: m.subject == p + name + q)
      && (exists p, q :: m.text == p + name + q)
      && (exists p, q :: m.html == p + EscapeHtml(name) + q)
  {
    var m := BuildMail(kind, to, name);
    var e := EscapeHtml(name);
    match kind
    case WorkspaceCreated =>
      assert m.subject == WORKSPACE_QUOTE + name + CREATED_SUBJECT_END;
      assert m.text == CREATED_TEXT_START + name + CREATED_TEXT_END;
      assert m.html == CREATED_HTML_START + e + CREATED_HTML_END;
    case WorkspaceDisabled =>
      assert m.subject == WORKSPACE_QUOTE + name + DISABLED_SUBJECT_END;
      assert m.text == WORKSPACE_QUOTE + name + DISABLED_TEXT_END;
      assert m.html == WORKSPACE_HTML_START + e + DISABLED_HTML_END;
    case WorkspaceEnabled =>
      assert m.subject == WORKSPACE_QUOTE + name + ENABLED_SUBJECT_END;
      assert m.text == WORKSPACE_QUOTE + name + ENABLED_TEXT_END;
      assert m.html == WORKSPACE_HTML_START + e + ENABLED_HTML_END;
  }

  /** The mail transport as seen by the senders: what has been handed to it. */
  class Mailer {
    /** Whether `SMTP_HOST`, `SMTP_USER` and `SMTP_PASS` are all set. */
    const configured: bool
    var sent: seq<Mail>

    constructor (configured: bool)
      ensures this.configured == configured && sent == []
    {
      this.configured := configured;
      sent := [];
    }

    /** `sendWorkspace…Email(to, name)`: a no-op without a transport; transport failures are logged, not thrown. */
    method Send(kind: MailKind, to: string, name: string)
      modifies this
      ensures sent == old(sent) + (if configured then [BuildMail(kind, to, name)] else [])
    {
      if configured {
        sent := sent + [BuildMail(kind, to, name)];
      }
    }
  }
}
