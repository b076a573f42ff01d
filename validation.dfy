/** The form validators and the CV check run before a document is saved:
    an e-mail shape, a password length, a required field, a phone number
    and the personal details of a document. */
module Validation {
  import opened Wrappers
  import opened Seqs
  import opened Strings
  import opened CvTypes

  /** A character of the regex class `[^\s@]`. */
  predicate PlainChar(c: char) {
    c != '@' && !IsWhitespace(c)
  }

  predicate AllPlain(s: string) {
    forall c :: c in s ==> PlainChar(c)
  }

  /** The strings `^[^\s@]+@[^\s@]+\.[^\s@]+$` matches: a local part, `@`,
      a first domain part, `.`, a last domain part, none of them empty and
      none holding whitespace or `@`. */
  ghost predicate EmailPattern(e: string) {
    exists i, k :: 0 < i && i + 1 < k < |e| - 1 && e[i] == '@' && e[k] == '.'
                   && AllPlain(e[..i]) && AllPlain(e[i + 1..k]) && AllPlain(e[k + 1..])
  }

  /** The first index of `c` in `s`, or -1. */
  function Find(s: string, c: char): (r: int)
    ensures -1 <= r < |s|
    ensures r >= 0 ==> s[r] == c && c !in s[..r]
    ensures r < 0 ==> c !in s
  {
    if s == [] then -1
    else if s[0] == c then 0
    else
      var r := Find(s[1..], c);
      if r < 0 then -1
      else
        assert s[..r + 1] == [s[0]] + s[1..][..r];
        r + 1
  }

  /** `validateEmail`, scanning for the `@` and then for a `.` strictly
      inside the domain. */
  function ValidateEmail(email: string): bool {
    var at := Find(email, '@');
    if at <= 0 then false
    else
      var domain := email[at + 1..];
      && AllPlain(email[..at])
      && AllPlain(domain)
      && |domain| >= 3
      && '.' in domain[1..|domain| - 1]
  }

  /** The scan accepts exactly the strings the pattern matches. */
  lemma EmailIff(e: string)
    ensures ValidateEmail(e) <==> EmailPattern(e)
  {
    if ValidateEmail(e) {
      var at := Find(e, '@');
      var domain := e[at + 1..];
      var m :| 0 <= m < |domain| - 2 && domain[1..|domain| - 1][m] == '.';
      var k := at + 2 + m;
      assert e[k] == '.';
      assert e[at + 1..k] == domain[..m + 1];
      assert e[k + 1..] == domain[m + 2..];
      assert AllPlain(e[at + 1..k]) by {
        forall c | c in e[at + 1..k] ensures PlainChar(c) { assert c in domain; }
      }
      assert AllPlain(e[k + 1..]) by {
        forall c | c in e[k + 1..] ensures PlainChar(c) { assert c in domain; }
      }
    }
    if EmailPattern(e) {
      var i, k :| 0 < i && i + 1 < k < |e| - 1 && e[i] == '@' && e[k] == '.'
                  && AllPlain(e[..i]) && AllPlain(e[i + 1..k]) && AllPlain(e[k + 1..]);
      EmailPatternParts(e, i, k);
    }
  }

  /** With the pattern's split points, the scan finds the `@` at the same
      place and the `.` inside the domain. */
  lemma EmailPatternParts(e: string, i: nat, k: nat)
    requires 0 < i && i + 1 < k < |e| - 1 && e[i] == '@' && e[k] == '.'
    requires AllPlain(e[..i]) && AllPlain(e[i + 1..k]) && AllPlain(e[k + 1..])
    ensures ValidateEmail(e)
  {
    assert '@' !in e[..i];
    var at := Find(e, '@');
    assert forall p :: 0 <= p < i ==> e[p] == e[..i][p];
    assert forall p :: 0 <= p < at ==> e[p] == e[..at][p];
    assert at == i;
    var domain := e[i + 1..];
    assert domain == e[i + 1..k] + [e[k]] + e[k + 1..];
    assert AllPlain(domain) by {
      forall c | c in domain ensures PlainChar(c) {
        assert c in e[i + 1..k] || c == e[k] || c in e[k + 1..];
      }
    }
    assert domain[1..|domain| - 1][k - i - 2] == '.';
  }

  /** `validatePassword`. */
  function ValidatePassword(password: string): bool {
    |password| >= 6
  }

  /** A password of six characters passes, one of five does not, and a
      valid password stays valid when lengthened. */
  lemma PasswordThreshold(password: string, extra: string)
    ensures |password| == 6 ==> ValidatePassword(password)
    ensures |password| == 5 ==> !ValidatePassword(password)
    ensures ValidatePassword(password) ==> ValidatePassword(password + extra)
  {
  }

  /** `validateRequiredField`. */
  function ValidateRequiredField(value: string): bool {
    |Trim(value)| > 0
  }

  /** A field is filled in exactly when some character of it is not
      whitespace. */
  lemma RequiredFieldIff(value: string)
    ensures ValidateRequiredField(value) <==> exists i :: 0 <= i < |value| && !IsWhitespace(value[i])
  {
    TrimEmptyIff(value);
  }

  /** A character of the regex class `[\d+\-\s()]`. */
  predicate PhoneChar(c: char) {
    IsDigit(c) || c == '+' || c == '-' || IsWhitespace(c) || c == '(' || c == ')'
  }

  /** `^[\d+\-\s()]+$`, matched character by character. */
  function MatchesPhone(s: string): bool {
    s != [] && PhoneChar(s[0]) && (|s| == 1 || MatchesPhone(s[1..]))
  }

  /** `validatePhoneNumber`: the empty string passes, anything else must
      match the phone pattern. */
  function ValidatePhoneNumber(phone: string): bool {
    if |phone| > 0 then MatchesPhone(phone) else true
  }

  /** A phone number passes exactly when it is empty or every character is
      a digit, `+`, `-`, whitespace or a parenthesis. */
  lemma {:induction false} PhoneIff(phone: string)
    ensures ValidatePhoneNumber(phone) <==> forall i :: 0 <= i < |phone| ==> PhoneChar(phone[i])
    decreases |phone|
  {
    if |phone| > 1 {
      PhoneIff(phone[1..]);
      assert forall i :: 1 <= i < |phone| ==> phone[i] == phone[1..][i - 1];
    }
  }

  datatype ValidationError = ValidationError(field: string, message: string)

  const FirstNameError := ValidationError("firstName", "First name is required")
  const LastNameError := ValidationError("lastName", "Last name is required")
  const EmailError := ValidationError("email", "Invalid email address")

  /** `validateCV`. The personal section is the first of kind personal;
      without one there is nothing to report. */
  method ValidateCV(cv: CV) returns (r: Result<seq<ValidationError>>)
    ensures FindKind(cv.sections, PersonalType).None? ==> r == Success([])
    ensures FindKind(cv.sections, PersonalType).Some? ==> r == PersonalErrors(FindKind(cv.sections, PersonalType).value.content)
  {
    var errors: seq<ValidationError> := [];
    var personalSection := FindKind(cv.sections, PersonalType);
    if personalSection.Some? {
      r := CheckPersonal(personalSection.value.content);
      return;
    }
    return Success(errors);
  }

  /** What the checks of a personal content report: a failure when the
      content has no first or last name to `trim` (the call throws), else
      the errors for each failed check. */
  function PersonalErrors(personal: Content): Result<seq<ValidationError>> {
    var first, last, email := Prop(personal, "firstName"), Prop(personal, "lastName"), Prop(personal, "email");
    if first.None? || last.None? then Failure("TypeError")
    else Success(Reported(!ValidateRequiredField(first.value), !ValidateRequiredField(last.value),
                          Truthy(email) && !ValidateEmail(email.value)))
  }

  /** The body of the `if (personalSection)` of `validateCV`: the three
      checks, each pushing its error. */
  method CheckPersonal(personal: Content) returns (r: Result<seq<ValidationError>>)
    ensures r == PersonalErrors(personal)
  {
    var errors: seq<ValidationError> := [];
    var first := Prop(personal, "firstName");
    if first.None? {
      return Failure("TypeError");
    }
    var noFirst := !ValidateRequiredField(first.value);
    if noFirst {
      errors := errors + [FirstNameError];
    }
    ghost var firstPart := errors;
    var last := Prop(personal, "lastName");
    if last.None? {
      return Failure("TypeError");
    }
    var noLast := !ValidateRequiredField(last.value);
    if noLast {
      errors := errors + [LastNameError];
    }
    var email := Prop(personal, "email");
    var badEmail := Truthy(email) && !ValidateEmail(email.value);
    if badEmail {
      errors := errors + [EmailError];
    }
    ReportedSteps(errors, firstPart, noFirst, noLast, badEmail);
    return Success(errors);
  }

  /** The pushes of the three checks build the reported errors. */
  lemma ReportedSteps(errors: seq<ValidationError>, firstPart: seq<ValidationError>, noFirst: bool, noLast: bool, badEmail: bool)
    requires firstPart == if noFirst then [FirstNameError] else []
    requires var secondPart := if noLast then firstPart + [LastNameError] else firstPart;
             errors == if badEmail then secondPart + [EmailError] else secondPart
    ensures errors == Reported(noFirst, noLast, badEmail)
  {
    var a, b, c := (if noFirst then [FirstNameError] else []), (if noLast then [LastNameError] else []),
                   (if badEmail then [EmailError] else []);
    assert firstPart + b == a + b;
    AppendAssoc(a, b, c);
    assert errors == a + b + c;
  }

  /** The errors reported for a missing first name, a missing last name
      and a malformed e-mail, in the order the checks run. */
  function Reported(noFirst: bool, noLast: bool, badEmail: bool): seq<ValidationError> {
    (if noFirst then [FirstNameError] else [])
    + (if noLast then [LastNameError] else [])
    + (if badEmail then [EmailError] else [])
  }

  /** The rank of a checked field in the order the checks run. */
  function FieldRank(field: string): int {
    if field == "firstName" then 0 else if field == "lastName" then 1 else 2
  }

  /** At most three errors are reported, each field at most once and in
      check order. */
  lemma ReportedOrdered(noFirst: bool, noLast: bool, badEmail: bool)
    ensures var r := Reported(noFirst, noLast, badEmail);
            && |r| <= 3
            && (forall j, k :: 0 <= j < k < |r| ==> FieldRank(r[j].field) < FieldRank(r[k].field))
            && (FirstNameError in r <==> noFirst) && (LastNameError in r <==> noLast) && (EmailError in r <==> badEmail)
  {
  }
}
