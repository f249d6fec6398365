/**
 * The contact-form server action `sendContactEmail`: required fields, the
 * e-mail pattern `^[^\s@]+@[^\s@]+\.[^\s@]+$`, the API-key check, then one
 * send through the mail service, whose outcome is an input here.
 */
module Actions {
  import opened Wrappers

  datatype ContactFormData = ContactFormData(name: string, email: string, subject: string, message: string)

  /** `{ success, error? }`. */
  datatype EmailResponse = EmailResponse(success: bool, error: Option<string>)

  /** How the mail service's send call ended. */
  datatype SendOutcome =
    | Delivered  // `{ data }` with no `error`
    | ApiError   // `{ error }` reported by the service
    | Threw      // the call threw; caught by the outer `try`

  /** The message handed to the mail service; the HTML body renders the four fields. */
  datatype EmailRequest = EmailRequest(from: string, to: seq<string>, replyTo: string, subject: string, form: ContactFormData)

  /** The response, and the message sent if the ladder got as far as sending. */
  datatype Submission = Submission(response: EmailResponse, sent: Option<EmailRequest>)

  const AllFieldsRequired: string := "All fields are required"
  const InvalidEmail: string := "Invalid email address"
  const NotConfigured: string := "Email service is not configured. Please contact support."
  const SendFailed: string := "Failed to send email. Please try again later."
  const Unexpected: string := "An unexpected error occurred. Please try again later."
  const Sender: string := "Luxe Fashion Boutique <tony@cosmicjs.com>"
  const Inbox: string := "tony@cosmicjs.com"

  function Failed(message: string): EmailResponse {
    EmailResponse(false, Some(message))
  }

  // ---------------------------------------------------------------------------
  // The pattern, read literally

  /** ECMAScript `\s`: the WhiteSpace and LineTerminator code points. */
  predicate IsSpace(c: char) {
    var n := c as int;
    n == 0x09 || n == 0x0A || n == 0x0B || n == 0x0C || n == 0x0D || n == 0x20
    || n == 0xA0 || n == 0x1680 || (0x2000 <= n <= 0x200A) || n == 0x2028 || n == 0x2029
    || n == 0x202F || n == 0x205F || n == 0x3000 || n == 0xFEFF
  }

  /** The class `[^\s@]`. */
  predicate Plain(c: char) {
    !IsSpace(c) && c != '@'
  }

  /** `[^\s@]+`. */
  ghost predicate PlainRun(t: string) {
    |t| > 0 && forall k :: 0 <= k < |t| ==> Plain(t[k])
  }

  /** The whole string is a run, `@`, a run, `.`, a run (anchored at both ends). */
  ghost predicate RegexMatches(s: string) {
    exists i, j :: 0 <= i < j < |s| && s[i] == '@' && s[j] == '.'
      && PlainRun(s[..i]) && PlainRun(s[i + 1..j]) && PlainRun(s[j + 1..])
  }

  // ---------------------------------------------------------------------------
  // The characterisation

  function CountChar(s: string, c: char): nat {
    if s == [] then 0 else (if s[0] == c then 1 else 0) + CountChar(s[1..], c)
  }

  /** The domain has a `.` that is neither its first nor its last character. */
  ghost predicate HasInnerDot(domain: string) {
    exists k :: 0 < k < |domain| - 1 && domain[k] == '.'
  }

  /**
   * Exactly one `@`, no whitespace, something before the `@`, and a `.`
   * strictly inside the part after it.
   */
  ghost predicate WellFormedAddress(s: string) {
    && CountChar(s, '@') == 1
    && (forall k :: 0 <= k < |s| ==> !IsSpace(s[k]))
    && exists i :: 0 < i < |s| && s[i] == '@' && HasInnerDot(s[i + 1..])
  }

  // ---------------------------------------------------------------------------
  // A hand-written checker

  /** The first position of `c` in `s`, or -1. */
  function IndexOf(s: string, c: char): (r: int)
    ensures -1 <= r < |s|
    ensures r == -1 <==> forall k :: 0 <= k < |s| ==> s[k] != c
    ensures r >= 0 ==> s[r] == c && forall k :: 0 <= k < r ==> s[k] != c
  {
    if s == [] then -1
    else if s[0] == c then 0
    else
      var k := IndexOf(s[1..], c);
      if k == -1 then -1 else k + 1
  }

  function AllPlain(s: string): (b: bool)
    ensures b <==> forall k :: 0 <= k < |s| ==> Plain(s[k])
  {
    s == [] || (Plain(s[0]) && AllPlain(s[1..]))
  }

  /** Split at the first `@`; both sides plain, the left non-empty, an inner dot on the right. */
  function IsValidEmail(s: string): bool {
    var at := IndexOf(s, '@');
    if at <= 0 then false
    else
      var domain := s[at + 1..];
      AllPlain(s[..at]) && AllPlain(domain)
      && |domain| >= 3 && IndexOf(domain[1..|domain| - 1], '.') >= 0
  }

  // ---------------------------------------------------------------------------
  // The three agree

  /** Every character of `s[lo..hi]` is `[^\s@]`. */
  lemma PlainSlice(s: string, lo: nat, hi: nat)
    requires lo <= hi <= |s|
    requires forall k :: lo <= k < hi ==> Plain(s[k])
    ensures AllPlain(s[lo..hi])
  {
    assert forall k :: 0 <= k < hi - lo ==> s[lo..hi][k] == s[lo + k];
  }

  /** If `s[..i]` has no `@` and `s[i]` is one, the checker splits at `i`. */
  lemma FirstAt(s: string, i: nat)
    requires i < |s| && s[i] == '@'
    requires forall k :: 0 <= k < i ==> s[k] != '@'
    ensures IndexOf(s, '@') == i
  {
  }

  /** Each character of a slice the checker found plain is plain. */
  lemma PlainChars(s: string, lo: nat, hi: nat)
    requires lo <= hi <= |s| && AllPlain(s[lo..hi])
    ensures forall k :: lo <= k < hi ==> Plain(s[k])
  {
    assert forall k :: lo <= k < hi ==> s[k] == s[lo..hi][k - lo];
  }

  /** The pattern matches at an `@` at `i` and a `.` at `j` with plain runs around them. */
  lemma RegexAtSplit(s: string, i: nat, j: nat)
    requires 0 < i && i + 1 < j && j + 1 < |s| && s[i] == '@' && s[j] == '.'
    requires forall k :: 0 <= k < |s| && k != i ==> Plain(s[k])
    ensures RegexMatches(s)
  {
    assert PlainRun(s[..i]) by {
      assert forall m :: 0 <= m < i ==> s[..i][m] == s[m];
    }
    assert PlainRun(s[i + 1..j]) by {
      var mid := s[i + 1..j];
      assert forall m :: 0 <= m < |mid| ==> mid[m] == s[i + 1 + m];
    }
    assert PlainRun(s[j + 1..]) by {
      var tail := s[j + 1..];
      assert forall m :: 0 <= m < |tail| ==> tail[m] == s[j + 1 + m];
    }
  }

  lemma CheckerImpliesRegex(s: string)
    requires IsValidEmail(s)
    ensures RegexMatches(s)
  {
    var i := IndexOf(s, '@');
    assert s[..i] == s[0..i] && s[i + 1..] == s[i + 1..|s|];
    PlainChars(s, 0, i);
    PlainChars(s, i + 1, |s|);
    var domain := s[i + 1..];
    var k := IndexOf(domain[1..|domain| - 1], '.') + 1;
    assert domain[1..|domain| - 1][k - 1] == domain[k];
    RegexAtSplit(s, i, i + 1 + k);
  }

  /** A `[^\s@]+` run found at `s[lo..hi]` makes each of those characters plain. */
  lemma RunChars(s: string, lo: nat, hi: nat)
    requires lo <= hi <= |s| && PlainRun(s[lo..hi])
    ensures forall k :: lo <= k < hi ==> Plain(s[k])
  {
    assert forall k :: lo <= k < hi ==> s[k] == s[lo..hi][k - lo];
  }

  /** The checker accepts a split at the only `@` with plain sides and an inner dot. */
  lemma CheckerAcceptsSplit(s: string, i: nat, d: nat)
    requires 0 < i < |s| && s[i] == '@'
    requires forall k :: 0 <= k < |s| && k != i ==> Plain(s[k])
    requires 0 < d < |s| - i - 2 && s[i + 1 + d] == '.'
    ensures IsValidEmail(s)
  {
    FirstAt(s, i);
    PlainSlice(s, 0, i);
    PlainSlice(s, i + 1, |s|);
    var domain := s[i + 1..];
    assert domain[1..|domain| - 1][d - 1] == '.';
  }

  lemma RegexImpliesChecker(s: string)
    requires RegexMatches(s)
    ensures IsValidEmail(s)
  {
    var i, j :| 0 <= i < j < |s| && s[i] == '@' && s[j] == '.'
      && PlainRun(s[..i]) && PlainRun(s[i + 1..j]) && PlainRun(s[j + 1..]);
    assert s[..i] == s[0..i] && s[j + 1..] == s[j + 1..|s|];
    RunChars(s, 0, i);
    RunChars(s, i + 1, j);
    RunChars(s, j + 1, |s|);
    CheckerAcceptsSplit(s, i, j - i - 1);
  }

  lemma CheckerMatchesRegex(s: string)
    ensures IsValidEmail(s) <==> RegexMatches(s)
  {
    if IsValidEmail(s) {
      CheckerImpliesRegex(s);
    }
    if RegexMatches(s) {
      RegexImpliesChecker(s);
    }
  }

  lemma {:induction false} CountCharSplit(s: string, c: char, i: nat)
    requires i < |s|
    ensures CountChar(s, c) == CountChar(s[..i], c) + (if s[i] == c then 1 else 0) + CountChar(s[i + 1..], c)
  {
    if i > 0 {
      assert s[1..][..i - 1] == s[1..i];
      assert s[1..][i..] == s[i + 1..];
      CountCharSplit(s[1..], c, i - 1);
      assert s[..i][1..] == s[1..i];
    }
  }

  lemma {:induction false} CountCharZero(s: string, c: char)
    ensures CountChar(s, c) == 0 <==> forall k :: 0 <= k < |s| ==> s[k] != c
  {
    if s != [] {
      CountCharZero(s[1..], c);
      assert forall k :: 1 <= k < |s| ==> s[k] == s[1..][k - 1];
    }
  }

  /** With exactly one `@` at `i`, no other position holds one. */
  lemma OnlyAt(s: string, i: nat)
    requires i < |s| && s[i] == '@' && CountChar(s, '@') == 1
    ensures forall k :: 0 <= k < |s| && k != i ==> s[k] != '@'
  {
    CountCharSplit(s, '@', i);
    CountCharZero(s[..i], '@');
    CountCharZero(s[i + 1..], '@');
    assert forall k :: 0 <= k < i ==> s[k] == s[..i][k];
    assert forall k :: i < k < |s| ==> s[k] == s[i + 1..][k - i - 1];
  }

  lemma CheckerImpliesWellFormed(s: string)
    requires IsValidEmail(s)
    ensures WellFormedAddress(s)
  {
    var i := IndexOf(s, '@');
    var domain := s[i + 1..];
    assert forall k :: 0 <= k < i ==> Plain(s[k]) by {
      assert forall k :: 0 <= k < i ==> s[k] == s[..i][k];
    }
    assert forall k :: i < k < |s| ==> Plain(s[k]) by {
      assert forall k :: i < k < |s| ==> s[k] == domain[k - i - 1];
    }
    CountCharSplit(s, '@', i);
    CountCharZero(s[..i], '@');
    CountCharZero(domain, '@');
    var d := IndexOf(domain[1..|domain| - 1], '.') + 1;
    assert domain[d] == '.' by {
      assert domain[1..|domain| - 1][d - 1] == domain[d];
    }
    assert HasInnerDot(domain);
  }

  lemma WellFormedImpliesChecker(s: string)
    requires WellFormedAddress(s)
    ensures IsValidEmail(s)
  {
    var i :| 0 < i < |s| && s[i] == '@' && HasInnerDot(s[i + 1..]);
    OnlyAt(s, i);
    var domain := s[i + 1..];
    var d :| 0 < d < |domain| - 1 && domain[d] == '.';
    CheckerAcceptsSplit(s, i, d);
  }

  lemma CheckerMatchesCharacterisation(s: string)
    ensures IsValidEmail(s) <==> WellFormedAddress(s)
  {
    if IsValidEmail(s) {
      CheckerImpliesWellFormed(s);
    }
    if WellFormedAddress(s) {
      WellFormedImpliesChecker(s);
    }
  }

  // ---------------------------------------------------------------------------
  // The action

  /** `!formData.x` for each field: an empty string is missing. */
  predicate FieldsPresent(form: ContactFormData) {
    form.name != "" && form.email != "" && form.subject != "" && form.message != ""
  }

  /** `process.env.RESEND_API_KEY` is set and not empty. */
  predicate Configured(apiKey: Option<string>) {
    apiKey.Some? && apiKey.value != ""
  }

  function RequestFor(form: ContactFormData): EmailRequest {
    EmailRequest(Sender, [Inbox], form.email, "Contact Form: " + form.subject, form)
  }

  /**
   * `sendContactEmail`. `apiKey` is the environment variable; `outcome` is what
   * the mail service would answer, consulted only if the ladder reaches the send.
   */
  function SendContactEmail(form: ContactFormData, apiKey: Option<string>, outcome: SendOutcome): (r: Submission)
    ensures !FieldsPresent(form) ==> r == Submission(Failed(AllFieldsRequired), None)
    ensures FieldsPresent(form) && !RegexMatches(form.email)
      ==> r == Submission(Failed(InvalidEmail), None)
    ensures FieldsPresent(form) && RegexMatches(form.email) && !Configured(apiKey)
      ==> r == Submission(Failed(NotConfigured), None)
    ensures r.sent.Some? <==> FieldsPresent(form) && RegexMatches(form.email) && Configured(apiKey)
    ensures r.sent.Some? ==> r.sent.value == EmailRequest(Sender, [Inbox], form.email, "Contact Form: " + form.subject, form)
    ensures r.sent.Some? && outcome == ApiError ==> r.response == Failed(SendFailed)
    ensures r.sent.Some? && outcome == Threw ==> r.response == Failed(Unexpected)
    ensures r.response.success <==> r.sent.Some? && outcome == Delivered
    ensures r.response.success <==> r.response.error == None
  {
    CheckerMatchesRegex(form.email);
    if !FieldsPresent(form) then Submission(Failed(AllFieldsRequired), None)
    else if !IsValidEmail(form.email) then Submission(Failed(InvalidEmail), None)
    else if !Configured(apiKey) then Submission(Failed(NotConfigured), None)
    else
      var request := RequestFor(form);
      match outcome
      case ApiError => Submission(Failed(SendFailed), Some(request))
      case Threw => Submission(Failed(Unexpected), Some(request))
      case Delivered => Submission(EmailResponse(true, None), Some(request))
  }
}
