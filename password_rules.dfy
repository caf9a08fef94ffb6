/** The password rules of the sign-in and sign-up forms: required, at least six characters,
    and a composition pattern, checked the way the form library checks a rule list (every
    rule is checked; the length and pattern rules are skipped for an empty value). */
module PasswordRules {
  import opened Wrappers

  datatype Rule =
    | Required(message: string)
    | MinLength(min: nat, message: string)
    | Pattern(message: string)

  const RequiredMessage: string := "Please input your password!"
  const MinMessage: string := "Password must be at least 6 characters long!"
  const PatternMessage: string :=
    "Password must contain at least one uppercase letter, one lowercase letter, one number, and one special character!"

  const Rules: seq<Rule> := [Required(RequiredMessage), MinLength(6, MinMessage), Pattern(PatternMessage)]

  predicate IsLower(c: char) { 'a' <= c <= 'z' }
  predicate IsUpper(c: char) { 'A' <= c <= 'Z' }
  predicate IsDigit(c: char) { '0' <= c <= '9' }
  predicate IsSpecial(c: char) {
    c == '@' || c == '$' || c == '!' || c == '%' || c == '*' || c == '?' || c == '&' || c == '#'
    || c == '^' || c == '_' || c == '.'
  }

  /** The final character class `[A-Za-z\d@$!%*?&#^_.]`. */
  predicate IsAllowed(c: char) { IsLower(c) || IsUpper(c) || IsDigit(c) || IsSpecial(c) }

  /** The characters `.` does not match. */
  predicate IsLineTerminator(c: char) { c == '\n' || c == '\r' || c == '\U{2028}' || c == '\U{2029}' }

  /** `(?=.*[cls])` at the start: a character of the class, preceded only by characters `.`
      matches. */
  predicate LookaheadFinds(p: string, cls: char -> bool) {
    exists j :: 0 <= j < |p| && cls(p[j]) && forall k :: 0 <= k < j ==> !IsLineTerminator(p[k])
  }

  /** The anchored pattern: the four lookaheads, then six or more allowed characters to the end. */
  predicate PatternMatches(p: string) {
    && LookaheadFinds(p, IsLower)
    && LookaheadFinds(p, IsUpper)
    && LookaheadFinds(p, IsDigit)
    && LookaheadFinds(p, IsSpecial)
    && |p| >= 6
    && forall i :: 0 <= i < |p| ==> IsAllowed(p[i])
  }

  predicate IsEmpty(value: Option<string>) { value.None? || value.value == "" }

  /** The message of a rule the value breaks. */
  function RuleError(rule: Rule, value: Option<string>): Option<string> {
    match rule
    case Required(m) => if IsEmpty(value) then Some(m) else None
    case MinLength(n, m) => if !IsEmpty(value) && |value.value| < n then Some(m) else None
    case Pattern(m) => if !IsEmpty(value) && !PatternMatches(value.value) then Some(m) else None
  }

  /** The messages of every broken rule, in rule order. */
  function Errors(rules: seq<Rule>, value: Option<string>): seq<string>
    decreases |rules|
  {
    if rules == [] then []
    else (match RuleError(rules[0], value) case None => [] case Some(m) => [m]) + Errors(rules[1..], value)
  }

  predicate Accepted(value: Option<string>) { Errors(Rules, value) == [] }

  predicate Has(p: string, cls: char -> bool) { exists i :: 0 <= i < |p| && cls(p[i]) }

  lemma ErrorsOfRules(value: Option<string>)
    ensures Errors(Rules, value) ==
      (if IsEmpty(value) then [RequiredMessage] else [])
      + (if !IsEmpty(value) && |value.value| < 6 then [MinMessage] else [])
      + (if !IsEmpty(value) && !PatternMatches(value.value) then [PatternMessage] else [])
  {
    var r2 := [Pattern(PatternMessage)];
    var r1 := [MinLength(6, MinMessage)] + r2;
    assert Rules == [Required(RequiredMessage)] + r1;
    assert Rules[1..] == r1 && r1[1..] == r2 && r2[1..] == [];
    var e2 := if !IsEmpty(value) && !PatternMatches(value.value) then [PatternMessage] else [];
    var e1 := if !IsEmpty(value) && |value.value| < 6 then [MinMessage] else [];
    var e0 := if IsEmpty(value) then [RequiredMessage] else [];
    assert Errors(r2, value) == e2 + [];
    assert Errors(r1, value) == e1 + e2;
    assert Errors(Rules, value) == e0 + (e1 + e2);
  }

  /** A missing or empty password breaks exactly the required rule. */
  lemma EmptyRejected(value: Option<string>)
    requires IsEmpty(value)
    ensures Errors(Rules, value) == [RequiredMessage] && !Accepted(value)
  {
    ErrorsOfRules(value);
  }

  /** A password shorter than six characters breaks the length rule and the pattern. */
  lemma ShortRejected(p: string)
    requires 0 < |p| < 6
    ensures Errors(Rules, Some(p)) == [MinMessage, PatternMessage]
  {
    ErrorsOfRules(Some(p));
  }

  /** With every character allowed, each lookahead just asks for one character of its class. */
  lemma LookaheadOfAllowed(p: string, cls: char -> bool)
    requires forall i :: 0 <= i < |p| ==> IsAllowed(p[i])
    ensures LookaheadFinds(p, cls) <==> Has(p, cls)
  {
    if Has(p, cls) {
      var j :| 0 <= j < |p| && cls(p[j]);
      assert forall k :: 0 <= k < j ==> !IsLineTerminator(p[k]);
    }
  }

  /** A password is accepted exactly when it has at least six characters, all from the
      allowed set, among them a lower-case letter, an upper-case letter, a digit and one of
      the special characters. */
  lemma AcceptedIff(p: string)
    ensures Accepted(Some(p)) <==>
      && |p| >= 6
      && (forall i :: 0 <= i < |p| ==> IsAllowed(p[i]))
      && Has(p, IsLower) && Has(p, IsUpper) && Has(p, IsDigit) && Has(p, IsSpecial)
  {
    ErrorsOfRules(Some(p));
    if forall i :: 0 <= i < |p| ==> IsAllowed(p[i]) {
      LookaheadOfAllowed(p, IsLower);
      LookaheadOfAllowed(p, IsUpper);
      LookaheadOfAllowed(p, IsDigit);
      LookaheadOfAllowed(p, IsSpecial);
    }
  }

  /** A space, a hyphen or any other character outside the set makes the pattern fail. */
  lemma DisallowedRejected(p: string, i: nat)
    requires i < |p| && !IsAllowed(p[i])
    ensures PatternMessage in Errors(Rules, Some(p)) && !Accepted(Some(p))
  {
    ErrorsOfRules(Some(p));
  }

  lemma HasPermutation(p: string, q: string, cls: char -> bool)
    requires multiset(p) == multiset(q)
    ensures Has(p, cls) ==> Has(q, cls)
  {
    if Has(p, cls) {
      var i :| 0 <= i < |p| && cls(p[i]);
      assert p[i] in multiset(q);
      var j :| 0 <= j < |q| && q[j] == p[i];
    }
  }

  lemma AllowedPermutation(p: string, q: string)
    requires multiset(p) == multiset(q)
    requires forall i :: 0 <= i < |p| ==> IsAllowed(p[i])
    ensures forall j :: 0 <= j < |q| ==> IsAllowed(q[j])
  {
    forall j | 0 <= j < |q| ensures IsAllowed(q[j]) {
      assert q[j] in multiset(p);
      var i :| 0 <= i < |p| && p[i] == q[j];
    }
  }

  /** Rearranging the characters of a password does not change whether it is accepted. */
  lemma PermutationInvariant(p: string, q: string)
    requires multiset(p) == multiset(q)
    ensures Accepted(Some(p)) <==> Accepted(Some(q))
  {
    assert |p| == |multiset(p)| == |multiset(q)| == |q|;
    AcceptedIff(p);
    AcceptedIff(q);
    HasPermutation(p, q, IsLower);
    HasPermutation(q, p, IsLower);
    HasPermutation(p, q, IsUpper);
    HasPermutation(q, p, IsUpper);
    HasPermutation(p, q, IsDigit);
    HasPermutation(q, p, IsDigit);
    HasPermutation(p, q, IsSpecial);
    HasPermutation(q, p, IsSpecial);
    if forall i :: 0 <= i < |p| ==> IsAllowed(p[i]) {
      AllowedPermutation(p, q);
    }
    if forall i :: 0 <= i < |q| ==> IsAllowed(q[i]) {
      AllowedPermutation(q, p);
    }
  }

  /** One accepted password, for illustration. */
  lemma SampleAccepted()
    ensures Accepted(Some("Abcde1!"))
  {
    var p := "Abcde1!";
    AcceptedIff(p);
    assert IsLower(p[1]) && IsUpper(p[0]) && IsDigit(p[5]) && IsSpecial(p[6]);
  }
}
