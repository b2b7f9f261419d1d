/** The contact API route: the request body is checked for the three required fields, then the
    email is matched against a simple `local@domain.tld` pattern, and the outcome is mapped to a
    JSON response. */
module ContactRoute {
  import opened JsValues

  /** The `ContactForm` record of the site's shared types: the shape the body is declared to
      have, which the route does not rely on. */
  datatype ContactForm = ContactForm(name: string, email: string, company: Option<string>, message: string, service: string)

  /** The parsed JSON body as the route sees it: any field may be missing. */
  datatype RequestBody = RequestBody(
    name: Option<string>, email: Option<string>, company: Option<string>,
    message: Option<string>, service: Option<string>)

  /** What `request.json()` yields: a JSON object, or a failure that throws (unparsable text,
      or a `null` body whose field access throws). */
  datatype Request = Unparsable | Parsed(body: RequestBody)

  /** The JSON payload: the fields that are present. */
  datatype Payload = Payload(error: Option<string>, message: Option<string>, success: Option<bool>)

  datatype Response = Response(status: nat, payload: Payload)

  const MissingFieldsResponse := Response(400, Payload(Some("Missing required fields"), None, None))
  const InvalidEmailResponse := Response(400, Payload(Some("Invalid email format"), None, None))
  const ThankYouMessage := "Thank you for your message! We'll get back to you soon."
  const SuccessResponse := Response(200, Payload(None, Some(ThankYouMessage), Some(true)))
  const ServerErrorResponse :=
    Response(500, Payload(Some("Internal server error. Please try again later."), None, Some(false)))

  // ---------------------------------------------------------------------------
  // The email pattern `^[^\s@]+@[^\s@]+\.[^\s@]+$`

  /** A non-empty run of characters that are neither white space nor `@`: `[^\s@]+`. */
  predicate IsPart(x: string) {
    x != [] && forall i :: 0 <= i < |x| ==> !IsWhitespace(x[i]) && x[i] != '@'
  }

  /** What the pattern matches: three parts joined by `@` and `.`. The domain part may itself
      contain dots; the pattern backtracks to any of them. */
  ghost predicate EmailPattern(s: string) {
    exists a: string, b: string, c: string :: s == a + "@" + b + "." + c && IsPart(a) && IsPart(b) && IsPart(c)
  }

  /** The position of the first `c` in `s`. */
  function FirstIndex(s: string, c: char): (k: nat)
    requires c in s
    ensures k < |s| && s[k] == c && c !in s[..k]
  {
    if s[0] == c then 0
    else
      var k := FirstIndex(s[1..], c);
      assert s[1..][..k] == s[1..k + 1];
      k + 1
  }

  /** The pattern decided by one scan: no white space, exactly one `@` with something before
      it, and after it a dot that is neither the first nor the last character. */
  function IsValidEmail(s: string): bool {
    && (forall i :: 0 <= i < |s| ==> !IsWhitespace(s[i]))
    && '@' in s
    && var k := FirstIndex(s, '@');
       && k > 0
       && '@' !in s[k + 1..]
       && var domain := s[k + 1..];
          |domain| >= 3 && '.' in domain[1..|domain| - 1]
  }

  /** The scan accepts exactly what the pattern matches. */
  lemma EmailCheckMatchesPattern(s: string)
    ensures IsValidEmail(s) <==> EmailPattern(s)
  {
    if IsValidEmail(s) {
      var k := FirstIndex(s, '@');
      var domain := s[k + 1..];
      var m :| 0 <= m < |domain[1..|domain| - 1]| && domain[1..|domain| - 1][m] == '.';
      var j := m + 1;
      var a, b, c := s[..k], domain[..j], domain[j + 1..];
      assert s == a + "@" + b + "." + c by {
        assert domain == b + "." + c;
        assert s == s[..k] + [s[k]] + s[k + 1..];
      }
      assert IsPart(a) && IsPart(b) && IsPart(c);
    }
    if EmailPattern(s) {
      var a: string, b: string, c: string :| s == a + "@" + b + "." + c && IsPart(a) && IsPart(b) && IsPart(c);
      PatternMatchIsValid(s, a, b, c);
    }
  }

  lemma PatternMatchIsValid(s: string, a: string, b: string, c: string)
    requires s == a + "@" + b + "." + c && IsPart(a) && IsPart(b) && IsPart(c)
    ensures IsValidEmail(s)
  {
    var k := |a|;
    assert s[k] == '@';
    forall i | 0 <= i < |s| ensures !IsWhitespace(s[i]) {
      if i < k {
        assert s[i] == a[i];
      } else if k < i < k + 1 + |b| {
        assert s[i] == b[i - k - 1];
      } else if k + 1 + |b| < i {
        assert s[i] == c[i - k - 2 - |b|];
      }
    }
    assert s[..k] == a;
    assert '@' !in a;
    var f := FirstIndex(s, '@');
    assert f == k;
    var domain := s[k + 1..];
    assert domain == b + "." + c;
    forall i | 0 <= i < |domain| ensures domain[i] != '@' {
      if i < |b| {
        assert domain[i] == b[i];
      } else if i > |b| {
        assert domain[i] == c[i - |b| - 1];
      }
    }
    assert domain[1..|domain| - 1][|b| - 1] == '.';
  }

  // ---------------------------------------------------------------------------
  // The handler

  /** `POST /api/contact`. The checks run in order: the required fields first, then the email
      pattern; any throw becomes the 500 response. The one-second delay and the development
      log are not modelled. */
  function Post(req: Request): (r: Response)
    ensures req.Unparsable? ==> r == ServerErrorResponse
    ensures (req.Parsed? && (IsFalsyString(req.body.name) || IsFalsyString(req.body.email)
                             || IsFalsyString(req.body.message))) ==> r == MissingFieldsResponse
    ensures r == InvalidEmailResponse <==>
              && req.Parsed? && !IsFalsyString(req.body.name) && !IsFalsyString(req.body.email)
              && !IsFalsyString(req.body.message) && !EmailPattern(req.body.email.value)
    ensures r == SuccessResponse <==>
              && req.Parsed? && !IsFalsyString(req.body.name) && !IsFalsyString(req.body.message)
              && req.body.email.Some? && EmailPattern(req.body.email.value)
    ensures r in {MissingFieldsResponse, InvalidEmailResponse, SuccessResponse, ServerErrorResponse}
  {
    match req
    case Unparsable => ServerErrorResponse
    case Parsed(body) =>
      if IsFalsyString(body.name) || IsFalsyString(body.email) || IsFalsyString(body.message) then
        MissingFieldsResponse
      else
        EmailCheckMatchesPattern(body.email.value);
        if !IsValidEmail(body.email.value) then InvalidEmailResponse
        else SuccessResponse
  }

  /** The company and service fields are never inspected. */
  lemma CompanyAndServiceIgnored(body: RequestBody, company: Option<string>, service: Option<string>)
    ensures Post(Parsed(body.(company := company, service := service))) == Post(Parsed(body))
  {
  }

  /** An address with a dotted domain is accepted, also with several dots. */
  lemma AcceptedEmails()
    ensures EmailPattern("a@b.c") && EmailPattern("a@b.c.d")
  {
    assert "a@b.c" == "a" + "@" + "b" + "." + "c";
    assert "a@b.c.d" == "a" + "@" + "b.c" + "." + "d";
    assert IsPart("a") && IsPart("b") && IsPart("c") && IsPart("b.c") && IsPart("d");
  }

  /** No dot in the domain, an empty local part, or a second `@`: rejected. */
  lemma RejectedEmails()
    ensures !EmailPattern("a@bc") && !EmailPattern("@b.c") && !EmailPattern("a@@b.c")
  {
    EmailCheckMatchesPattern("a@bc");
    EmailCheckMatchesPattern("@b.c");
    EmailCheckMatchesPattern("a@@b.c");
  }
}
