/**
 * The admin registration page's password meter: five independent tests, one
 * point each, and the label and bar colour chosen from the score; plus the
 * condition that enables the submit button.
 */
module RegisterPage {

  predicate IsUpper(c: char) { 'A' <= c <= 'Z' }
  predicate IsLower(c: char) { 'a' <= c <= 'z' }
  predicate IsDigit(c: char) { '0' <= c <= '9' }
  /** `[^A-Za-z0-9]`: anything else, including spaces and accented letters. */
  predicate IsSpecial(c: char) { !IsUpper(c) && !IsLower(c) && !IsDigit(c) }

  predicate LongEnough(p: string) { |p| >= 8 }
  predicate HasUpper(p: string) { exists k :: 0 <= k < |p| && IsUpper(p[k]) }
  predicate HasLower(p: string) { exists k :: 0 <= k < |p| && IsLower(p[k]) }
  predicate HasDigit(p: string) { exists k :: 0 <= k < |p| && IsDigit(p[k]) }
  predicate HasSpecial(p: string) { exists k :: 0 <= k < |p| && IsSpecial(p[k]) }

  function Point(b: bool): nat { if b then 1 else 0 }

  /** `checkPasswordStrength`. */
  function Strength(p: string): (score: nat)
    ensures score <= 5
    ensures score == 0 <==> !LongEnough(p) && !HasUpper(p) && !HasLower(p) && !HasDigit(p) && !HasSpecial(p)
    ensures score == 5 <==> LongEnough(p) && HasUpper(p) && HasLower(p) && HasDigit(p) && HasSpecial(p)
  {
    Point(LongEnough(p)) + Point(HasUpper(p)) + Point(HasLower(p)) + Point(HasDigit(p)) + Point(HasSpecial(p))
  }

  /** The empty password scores 0. */
  lemma EmptyScoresZero()
    ensures Strength("") == 0
  {
  }

  /** Every non-empty password scores at least 1: each character is upper, lower, digit or special. */
  lemma NonEmptyScoresOne(p: string)
    requires p != ""
    ensures Strength(p) >= 1
  {
    assert IsUpper(p[0]) || IsLower(p[0]) || IsDigit(p[0]) || IsSpecial(p[0]);
  }

  /** Typing more characters never lowers the score. */
  lemma AppendNeverLowers(p: string, q: string)
    ensures Strength(p) <= Strength(p + q)
  {
    forall k | 0 <= k < |p| ensures (p + q)[k] == p[k] { }
  }

  /** `getPasswordStrengthText`. */
  function StrengthText(score: int): (text: string)
    ensures text == "Weak" <==> score <= 2
    ensures text == "Fair" <==> score == 3
    ensures text == "Good" <==> score == 4
    ensures text == "Strong" <==> score >= 5
  {
    if score <= 2 then "Weak"
    else if score <= 3 then "Fair"
    else if score <= 4 then "Good"
    else "Strong"
  }

  /** `getPasswordStrengthColor`. */
  function StrengthColor(score: int): (color: string)
    ensures color == "bg-red-500" <==> score <= 2
    ensures color == "bg-yellow-500" <==> score == 3
    ensures color == "bg-[hsl(37.7,92.1%,50.2%)]" <==> score == 4
    ensures color == "bg-[hsl(32.1,94.6%,43.7%)]" <==> score >= 5
  {
    if score <= 2 then "bg-red-500"
    else if score <= 3 then "bg-yellow-500"
    else if score <= 4 then "bg-[hsl(37.7,92.1%,50.2%)]"
    else "bg-[hsl(32.1,94.6%,43.7%)]"
  }

  /** Label and colour use the same thresholds: one determines the other. */
  lemma ColorMatchesText(a: int, b: int)
    ensures StrengthText(a) == StrengthText(b) <==> StrengthColor(a) == StrengthColor(b)
  {
  }

  /** Only a password passing all five tests is labelled "Strong"; "Weak" means at most two pass. */
  lemma StrongMeansAllTests(p: string)
    ensures StrengthText(Strength(p)) == "Strong" <==>
      LongEnough(p) && HasUpper(p) && HasLower(p) && HasDigit(p) && HasSpecial(p)
  {
  }

  /** The two values the account-type select offers; the form starts with neither. */
  const RoleChoices: set<string> := {"USER", "ADMIN"}
  const InitialRole: string := ""

  /**
   * The submit button: `disabled={isLoading || !role}`. A request in flight
   * or an unchosen role disables it; a chosen role enables it when idle.
   */
  predicate SubmitEnabled(isLoading: bool, role: string): (enabled: bool)
    ensures isLoading ==> !enabled
    ensures role == "" ==> !enabled
    ensures !isLoading && role in RoleChoices ==> enabled
  {
    !isLoading && role != ""
  }

  /**
   * The form as first shown cannot be sent; once a role has been picked from
   * the select, an enabled button always sends one of the two offered roles.
   */
  lemma SubmitNeedsChosenRole(isLoading: bool, role: string)
    ensures !SubmitEnabled(false, InitialRole)
    ensures role in RoleChoices + {InitialRole} && SubmitEnabled(isLoading, role) ==> role in RoleChoices
  {
  }
}
