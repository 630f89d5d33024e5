/** The onboarding form (app/src/pages/OnboardingPage.tsx): a new user picks
    a nickname and gives an M-Pesa number; the profile update is requested
    only when both pass their validators, and the submit button is offered on
    exactly the same condition. */
module OnboardingPage {
  import opened Types
  import opened JsText

  /** One character of the class `[a-zA-Z0-9_]`. */
  predicate IsWordChar(c: char) {
    'a' <= c <= 'z' || 'A' <= c <= 'Z' || '0' <= c <= '9' || c == '_'
  }

  /** `/^[a-zA-Z0-9_]+$/.test(s)`, read left to right. */
  function TestWordPattern(s: string): bool {
    if |s| == 0 then false
    else if |s| == 1 then IsWordChar(s[0])
    else IsWordChar(s[0]) && TestWordPattern(s[1..])
  }

  /** The pattern matches exactly the non-empty strings of word characters. */
  lemma {:induction false} TestWordPatternMeaning(s: string)
    ensures TestWordPattern(s) <==> |s| > 0 && forall i :: 0 <= i < |s| ==> IsWordChar(s[i])
  {
    if |s| > 1 {
      TestWordPatternMeaning(s[1..]);
      if forall i :: 0 <= i < |s| ==> IsWordChar(s[i]) {
        assert forall i :: 0 <= i < |s| - 1 ==> IsWordChar(s[1..][i]) by {
          forall i | 0 <= i < |s| - 1
            ensures IsWordChar(s[1..][i])
          {
            assert s[1..][i] == s[i + 1];
          }
        }
      }
      if TestWordPattern(s) {
        forall i | 0 <= i < |s|
          ensures IsWordChar(s[i])
        {
          if i > 0 {
            assert s[i] == s[1..][i - 1];
          }
        }
      }
    }
  }

  /** `isValidNickname`. */
  predicate IsValidNickname(name: string) {
    |name| >= 3 && |name| <= 20 && TestWordPattern(name)
  }

  /** `isValidPhone`. */
  predicate IsValidPhone(phone: string) {
    StartsWith(phone, "+254") && |phone| >= 12
  }

  /** A nickname is valid exactly when it has 3 to 20 characters, each a
      letter, a digit or `_`. */
  lemma NicknameRule(name: string)
    ensures IsValidNickname(name) <==>
      3 <= |name| <= 20 && forall i :: 0 <= i < |name| ==> IsWordChar(name[i])
  {
    TestWordPatternMeaning(name);
  }

  /** The boundaries: 2 and 21 characters are too few and too many whatever
      they are; 3 and 20 word characters pass; `+254` and 8 digits pass
      while `+254` and 7 digits do not. */
  lemma Boundaries(short: string, long: string, shortest: string, longest: string, digits8: string, digits7: string)
    requires |short| == 2 && |long| == 21
    requires |shortest| == 3 && |longest| == 20
    requires forall i :: 0 <= i < 3 ==> IsWordChar(shortest[i])
    requires forall i :: 0 <= i < 20 ==> IsWordChar(longest[i])
    requires |digits8| == 8 && |digits7| == 7
    ensures !IsValidNickname(short) && !IsValidNickname(long)
    ensures IsValidNickname(shortest) && IsValidNickname(longest)
    ensures IsValidPhone("+254" + digits8) && !IsValidPhone("+254" + digits7)
  {
    NicknameRule(shortest);
    NicknameRule(longest);
    assert ("+254" + digits8)[..4] == "+254";
  }

  /** `handleSubmit`'s gate: a refusal with its toast, or the update request. */
  datatype SubmitStep = Refused(toast: Toast) | SendUpdate(nickname: string, phoneNumber: string)

  function HandleSubmit(nickname: string, phoneNumber: string): (step: SubmitStep)
    ensures step.SendUpdate? <==> IsValidNickname(nickname) && IsValidPhone(phoneNumber)
    ensures step.SendUpdate? ==> step == SendUpdate(nickname, phoneNumber)
    ensures !IsValidNickname(nickname) ==> step == Refused(ErrorToast("Invalid nickname"))
    ensures IsValidNickname(nickname) && !IsValidPhone(phoneNumber) ==>
      step == Refused(ErrorToast("Phone must start with +254"))
  {
    if !IsValidNickname(nickname) then Refused(ErrorToast("Invalid nickname"))
    else if !IsValidPhone(phoneNumber) then Refused(ErrorToast("Phone must start with +254"))
    else SendUpdate(nickname, phoneNumber)
  }

  /** The submit button's `disabled` expression. */
  predicate SubmitDisabled(isLoading: bool, nickname: string, phoneNumber: string) {
    isLoading || !IsValidNickname(nickname) || !IsValidPhone(phoneNumber)
  }

  /** The button is offered (when not loading) exactly when the handler
      would send the update. */
  lemma ButtonMatchesGate(nickname: string, phoneNumber: string)
    ensures !SubmitDisabled(false, nickname, phoneNumber) <==> HandleSubmit(nickname, phoneNumber).SendUpdate?
  {
  }

  /** The end of `handleSubmit`: a saved profile greets the user by nickname
      and completes onboarding; a failure only raises a toast. */
  function AfterUpdate(nickname: string, saved: Outcome): (r: (Toast, bool))
    ensures r.1 <==> saved.Pass?
    ensures saved.Pass? ==> r.0 == SuccessToast("Welcome " + nickname + "! Your wallet is ready.")
    ensures saved.Fail? ==> r.0 == ErrorToast("Failed to setup account")
  {
    if saved.Pass? then (SuccessToast("Welcome " + nickname + "! Your wallet is ready."), true)
    else (ErrorToast("Failed to setup account"), false)
  }
}
