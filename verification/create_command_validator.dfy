/**
 * Validation of `create <kind> <id> <apr> [<initial balance>]` commands.
 * The kind token is compared after lower-casing; only a CD takes the
 * fifth, initial-balance token.
 */
module CreateCommandValidation {
  import opened ValidatorChecks

  /** Lower-cases an ASCII capital letter and leaves every other character alone. */
  function LowerChar(c: char): char
  {
    if 'A' <= c <= 'Z' then (c as int + 32) as char else c
  }

  function ToLower(s: string): (r: string)
    ensures |r| == |s|
    ensures forall i :: 0 <= i < |s| ==> r[i] == LowerChar(s[i])
  {
    if s == [] then [] else [LowerChar(s[0])] + ToLower(s[1..])
  }

  /** Lower-casing twice is lower-casing once. */
  lemma ToLowerIdempotent(s: string)
    ensures ToLower(ToLower(s)) == ToLower(s)
  {
  }

  /** Kind, id and APR tokens all pass their checks. */
  predicate HeaderValid(checks: Checks, parts: seq<string>)
    requires |parts| >= 4
  {
    checks.validAccountType(ToLower(parts[1])) && checks.validId(parts[2]) && checks.validApr(parts[3])
  }

  function ValidateCreateCommand(checks: Checks, parts: seq<string>): (ok: bool)
    ensures |parts| < 4 ==> !ok
    ensures ok ==> 4 <= |parts| <= 5 && HeaderValid(checks, parts)
    ensures |parts| >= 4 && ToLower(parts[1]) == "cd" ==>
      (ok <==> HeaderValid(checks, parts) && |parts| == 5 && checks.validInitialBalance(parts[4]))
    ensures |parts| >= 4 && ToLower(parts[1]) != "cd" ==>
      (ok <==> HeaderValid(checks, parts) && |parts| == 4)
  {
    if |parts| < 4 then false
    else
      var accountType := ToLower(parts[1]);
      var id := parts[2];
      var apr := parts[3];
      if checks.validAccountType(accountType) && checks.validId(id) && checks.validApr(apr) then
        if accountType == "cd" then
          if |parts| != 5 then false else checks.validInitialBalance(parts[4])
        else
          |parts| == 4
      else
        false
  }

  /** Two kind tokens that lower-case alike get the same verdict. */
  lemma KindCaseInsensitive(checks: Checks, parts: seq<string>, kind: string)
    requires |parts| >= 2 && ToLower(kind) == ToLower(parts[1])
    ensures ValidateCreateCommand(checks, parts[1 := kind]) == ValidateCreateCommand(checks, parts)
  {
  }

  /** Writing the kind in lower case does not change the verdict. */
  lemma LowerCasedKindSameVerdict(checks: Checks, parts: seq<string>)
    requires |parts| >= 2
    ensures ValidateCreateCommand(checks, parts[1 := ToLower(parts[1])]) == ValidateCreateCommand(checks, parts)
  {
    ToLowerIdempotent(parts[1]);
    KindCaseInsensitive(checks, parts, ToLower(parts[1]));
  }

  /** The mixed-case kinds of the processor tests fold to the three kind names. */
  lemma MixedCaseKindsFold()
    ensures ToLower("savingS") == "savings"
    ensures ToLower("cHecKinG") == "checking"
    ensures ToLower("Cd") == "cd"
  {
  }
}
