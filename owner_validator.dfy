/** The checks that run before an owner is created. */
module OwnerValidator {
  import opened Wrappers
  import opened Text
  import opened Dto

  const MaxLength := 255

  const FirstNameBlankMsg := "First Name of Owner cannot be blank"
  const LastNameBlankMsg := "Last Name of Owner cannot be blank"
  const LastNameTooLongMsg := "Last Name too long, max length = 255"
  const FirstNameTooLongMsg := "First Name too long, max length = 255"
  const EmailTooLongMsg := "Email too long, max length = 255"
  const EmailMalformedMsg := "Email must be of form: example@mail.com"
  const OwnerSummary := "Validation for owners failed: "

  // ---------------------------------------------------------------------------
  // The e-mail pattern
  //   ^[\w!#$%&'+/=?`{|}~^-]+(?:\.[\w!#$%&'+/=?`{|}~^-]+)*@(?:[a-zA-Z0-9-]+\.)+[a-zA-Z]{2,6}$
  // written out as a recognizer. \w is [a-zA-Z_0-9].

  predicate IsLetter(c: char)
  {
    'a' <= c <= 'z' || 'A' <= c <= 'Z'
  }

  predicate IsDigit(c: char)
  {
    '0' <= c <= '9'
  }

  /** A character of one dot-separated piece of the local part. */
  predicate IsLocalChar(c: char)
  {
    IsLetter(c) || IsDigit(c) || c == '_' || c in "!#$%&'+/=?`{|}~^-"
  }

  /** A character of one domain label. */
  predicate IsLabelChar(c: char)
  {
    IsLetter(c) || IsDigit(c) || c == '-'
  }

  /** No two dots in a row: every dot-separated piece is non-empty. */
  predicate NoDoubleDot(s: string)
  {
    forall i | 0 <= i < |s| - 1 :: !(s[i] == '.' && s[i + 1] == '.')
  }

  /** `[L]+(\.[L]+)*` over the local characters. */
  predicate IsLocalPart(s: string)
  {
    && |s| > 0 && s[0] != '.' && s[|s| - 1] != '.' && NoDoubleDot(s)
    && forall i | 0 <= i < |s| :: IsLocalChar(s[i]) || s[i] == '.'
  }

  /** `(?:[a-zA-Z0-9-]+\.)+` */
  predicate IsLabels(s: string)
  {
    && |s| > 0 && s[0] != '.' && s[|s| - 1] == '.' && NoDoubleDot(s)
    && forall i | 0 <= i < |s| :: IsLabelChar(s[i]) || s[i] == '.'
  }

  /** `[a-zA-Z]{2,6}` */
  predicate IsTopLevel(s: string)
  {
    2 <= |s| <= 6 && forall i | 0 <= i < |s| :: IsLetter(s[i])
  }

  /** The dot at `j` ends the labels and starts the top-level domain. */
  predicate DomainSplitsAt(s: string, j: nat)
  {
    j < |s| && s[j] == '.' && IsLabels(s[..j + 1]) && IsTopLevel(s[j + 1..])
  }

  /** `(?:[a-zA-Z0-9-]+\.)+[a-zA-Z]{2,6}` */
  predicate IsDomain(s: string)
  {
    exists j: nat | j < |s| :: DomainSplitsAt(s, j)
  }

  /** The '@' at `i` separates a local part from a domain. */
  predicate EmailSplitsAt(s: string, i: nat)
  {
    i < |s| && s[i] == '@' && IsLocalPart(s[..i]) && IsDomain(s[i + 1..])
  }

  /** The whole address matches the pattern. */
  predicate IsEmail(s: string)
  {
    exists i: nat | i < |s| :: EmailSplitsAt(s, i)
  }

  // ---------------------------------------------------------------------------
  // The checks

  predicate NameBlank(name: Option<string>)
  {
    name.None? || IsBlank(name.value)
  }

  predicate NameTooLong(name: Option<string>)
  {
    name.Some? && |name.value| > MaxLength
  }

  predicate EmailTooLong(email: Option<string>)
  {
    email.Some? && |email.value| > MaxLength
  }

  predicate EmailMalformed(email: Option<string>)
  {
    email.Some? && !IsEmail(email.value)
  }

  predicate OwnerValid(o: OwnerCreateDto)
  {
    && !NameBlank(o.firstName) && !NameBlank(o.lastName)
    && !NameTooLong(o.firstName) && !NameTooLong(o.lastName)
    && !EmailTooLong(o.email) && !EmailMalformed(o.email)
  }

  /** The name checks, in check order: blank first name, blank last name, long last name, long first name. */
  function NameErrors(o: OwnerCreateDto): (r: seq<string>)
    ensures |r| <= 4
    ensures FirstNameBlankMsg in r <==> NameBlank(o.firstName)
    ensures LastNameBlankMsg in r <==> NameBlank(o.lastName)
    ensures FirstNameTooLongMsg in r <==> NameTooLong(o.firstName)
    ensures LastNameTooLongMsg in r <==> NameTooLong(o.lastName)
    ensures EmailTooLongMsg !in r && EmailMalformedMsg !in r
  {
    (if NameBlank(o.firstName) then [FirstNameBlankMsg] else [])
    + (if NameBlank(o.lastName) then [LastNameBlankMsg] else [])
    + (if NameTooLong(o.lastName) then [LastNameTooLongMsg] else [])
    + (if NameTooLong(o.firstName) then [FirstNameTooLongMsg] else [])
  }

  /** The e-mail checks, which run only when an address is given: too long, then malformed. */
  function EmailErrors(email: Option<string>): (r: seq<string>)
    ensures |r| <= 2
    ensures EmailTooLongMsg in r <==> EmailTooLong(email)
    ensures EmailMalformedMsg in r <==> EmailMalformed(email)
    ensures email.None? ==> r == []
    ensures FirstNameBlankMsg !in r && LastNameBlankMsg !in r
    ensures FirstNameTooLongMsg !in r && LastNameTooLongMsg !in r
  {
    (if EmailTooLong(email) then [EmailTooLongMsg] else [])
    + (if EmailMalformed(email) then [EmailMalformedMsg] else [])
  }

  /** Every message that fires, names first, then the e-mail. */
  function OwnerErrors(o: OwnerCreateDto): (r: seq<string>)
    ensures |r| <= 6
    ensures r == [] <==> OwnerValid(o)
    ensures FirstNameBlankMsg in r <==> NameBlank(o.firstName)
    ensures LastNameBlankMsg in r <==> NameBlank(o.lastName)
    ensures FirstNameTooLongMsg in r <==> NameTooLong(o.firstName)
    ensures LastNameTooLongMsg in r <==> NameTooLong(o.lastName)
    ensures EmailTooLongMsg in r <==> EmailTooLong(o.email)
    ensures EmailMalformedMsg in r <==> EmailMalformed(o.email)
  {
    NameErrors(o) + EmailErrors(o.email)
  }

  /** The e-mail block of validateOwnerForCreation, for an address that is given. */
  method CheckEmail(email: string) returns (emailErrors: seq<string>)
    ensures emailErrors == EmailErrors(Some(email))
  {
    emailErrors := [];
    if |email| > MaxLength {
      emailErrors := emailErrors + [EmailTooLongMsg];
    }
    if !IsEmail(email) {
      emailErrors := emailErrors + [EmailMalformedMsg];
    }
  }

  /** validateOwnerForCreation: throws iff some check fired, carrying all the messages. */
  method ValidateOwnerForCreation(o: OwnerCreateDto) returns (r: Outcome)
    ensures r.Pass? <==> OwnerValid(o)
    ensures r.Fail? ==> r == Fail(ValidationError(OwnerSummary, OwnerErrors(o)))
  {
    var validationErrors: seq<string> := [];
    if NameBlank(o.firstName) {
      validationErrors := validationErrors + [FirstNameBlankMsg];
    }
    ghost var e1 := if NameBlank(o.firstName) then [FirstNameBlankMsg] else [];
    assert validationErrors == e1;
    if NameBlank(o.lastName) {
      validationErrors := validationErrors + [LastNameBlankMsg];
    }
    ghost var e2 := e1 + if NameBlank(o.lastName) then [LastNameBlankMsg] else [];
    assert validationErrors == e2;
    if NameTooLong(o.lastName) {
      validationErrors := validationErrors + [LastNameTooLongMsg];
    }
    ghost var e3 := e2 + if NameTooLong(o.lastName) then [LastNameTooLongMsg] else [];
    assert validationErrors == e3;
    if NameTooLong(o.firstName) {
      validationErrors := validationErrors + [FirstNameTooLongMsg];
    }
    assert validationErrors == NameErrors(o);
    if o.email.Some? {
      var emailErrors := CheckEmail(o.email.value);
      validationErrors := validationErrors + emailErrors;
    }
    assert validationErrors == OwnerErrors(o);
    if validationErrors != [] {
      return Fail(ValidationError(OwnerSummary, validationErrors));
    }
    return Pass;
  }

  // ---------------------------------------------------------------------------
  // Properties of the pattern

  /** The address the message gives as its example is accepted. */
  lemma ExampleAddressAccepted()
    ensures IsEmail("example@mail.com")
  {
    var s := "example@mail.com";
    assert s[..7] == "example";
    assert s[8..] == "mail.com";
    var d := "mail.com";
    assert d[..5] == "mail." && IsLabels(d[..5]);
    assert d[5..] == "com" && IsTopLevel(d[5..]);
    assert d[4] == '.';
    assert DomainSplitsAt(d, 4);
    assert IsLocalPart(s[..7]);
    assert EmailSplitsAt(s, 7);
  }

  /** An accepted address has an '@' that is followed by a dot and ends in two to six letters. */
  lemma AcceptedAddressShape(s: string)
    requires IsEmail(s)
    ensures '@' in s && '.' in s
    ensures 2 <= |s| && IsLetter(s[|s| - 1]) && IsLetter(s[|s| - 2])
  {
    var i: nat :| i < |s| && EmailSplitsAt(s, i);
    var d := s[i + 1..];
    var j: nat :| j < |d| && DomainSplitsAt(d, j);
    var t := d[j + 1..];
    assert s[i + 1 + j] == '.';
    assert t[|t| - 1] == s[|s| - 1] && t[|t| - 2] == s[|s| - 2];
  }

  /** An address without an '@' is malformed; with more than 255 characters it also is too long: both messages fire. */
  lemma LongAddressWithoutAtBothFire(n: nat)
    requires n > MaxLength
    ensures
      var o := OwnerCreateDto(Some("Ann"), Some("Smith"), Some(seq(n, _ => 'x')));
      OwnerErrors(o) == [EmailTooLongMsg, EmailMalformedMsg]
  {
    var e := seq(n, _ => 'x');
    assert forall i: nat | i < |e| :: !EmailSplitsAt(e, i) by {
      forall i: nat | i < |e| ensures !EmailSplitsAt(e, i) {
        assert e[i] == 'x';
      }
    }
    assert !IsBlank("Ann") by { assert !IsWhitespace("Ann"[0]); }
    assert !IsBlank("Smith") by { assert !IsWhitespace("Smith"[0]); }
  }
}
