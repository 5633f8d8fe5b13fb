/**
 * The registration step of onboarding: the email shape test, the ordered
 * checks of the continue handler, and when its submit button is enabled.
 */
module EmailInput {
  import opened Wrappers
  import opened Js
  import Onboarding

  const InvalidEmail: string := "Please enter a valid email address"
  const ShortPassword: string := "Password must be at least 6 characters"
  const PasswordMismatch: string := "Passwords do not match"
  const MinPasswordLength: nat := 6

  /** `[^\s@]`: a character that is neither whitespace nor '@'. */
  predicate Plain(c: char)
  {
    !IsWhitespace(c) && c != '@'
  }

  predicate AllPlain(t: string)
  {
    forall i :: 0 <= i < |t| ==> Plain(t[i])
  }

  /**
   * `/^[^\s@]+@[^\s@]+\.[^\s@]+$/.test(email)`: three non-empty runs of
   * plain characters, the first two joined by '@' and the last two by '.'.
   */
  predicate IsValidEmail(email: string)
  {
    exists at, dot | 0 < at < |email| && at + 1 < dot < |email| - 1 ::
      && email[at] == '@' && email[dot] == '.'
      && AllPlain(email[..at]) && AllPlain(email[at + 1..dot]) && AllPlain(email[dot + 1..])
  }

  /** An address `local@domain` in the shape the test accepts. */
  predicate AddressParts(local: string, domain: string)
  {
    && |local| > 0 && AllPlain(local) && AllPlain(domain)
    && exists k :: 0 < k < |domain| - 1 && domain[k] == '.'
  }

  /**
   * The accepted strings are exactly `L@D` with `L` non-empty, neither part
   * holding whitespace or '@', and `D` holding a '.' that is neither its first
   * nor its last character.
   */
  lemma EmailShape(email: string)
    ensures IsValidEmail(email) <==>
      exists at :: 0 <= at < |email| && email[at] == '@' && AddressParts(email[..at], email[at + 1..])
  {
    if IsValidEmail(email) {
      var at, dot :| 0 < at < |email| && at + 1 < dot < |email| - 1
        && email[at] == '@' && email[dot] == '.'
        && AllPlain(email[..at]) && AllPlain(email[at + 1..dot]) && AllPlain(email[dot + 1..]);
      MatchHasParts(email, at, dot);
    }
    if exists at :: 0 <= at < |email| && email[at] == '@' && AddressParts(email[..at], email[at + 1..]) {
      var at :| 0 <= at < |email| && email[at] == '@' && AddressParts(email[..at], email[at + 1..]);
      var k :| 0 < k < |email[at + 1..]| - 1 && email[at + 1..][k] == '.';
      PartsMatch(email, at, k);
    }
  }

  lemma MatchHasParts(email: string, at: int, dot: int)
    requires 0 < at < |email| && at + 1 < dot < |email| - 1
    requires email[at] == '@' && email[dot] == '.'
    requires AllPlain(email[..at]) && AllPlain(email[at + 1..dot]) && AllPlain(email[dot + 1..])
    ensures AddressParts(email[..at], email[at + 1..])
  {
    var domain := email[at + 1..];
    assert Plain('.');
    forall i | 0 <= i < |domain| ensures Plain(domain[i]) {
      if i < dot - at - 1 {
        assert domain[i] == email[at + 1..dot][i];
      } else if i > dot - at - 1 {
        assert domain[i] == email[dot + 1..][i - (dot - at)];
      } else {
        assert domain[i] == email[dot];
      }
    }
    assert domain[dot - at - 1] == '.';
  }

  lemma PartsMatch(email: string, at: int, k: int)
    requires 0 <= at < |email| && email[at] == '@' && AddressParts(email[..at], email[at + 1..])
    requires 0 < k < |email[at + 1..]| - 1 && email[at + 1..][k] == '.'
    ensures IsValidEmail(email)
  {
    var domain := email[at + 1..];
    var dot := at + 1 + k;
    assert email[dot] == '.';
    assert email[at + 1..dot] == domain[..k];
    assert email[dot + 1..] == domain[k + 1..];
    var host := email[at + 1..dot];
    var tld := email[dot + 1..];
    forall i | 0 <= i < |host| ensures Plain(host[i]) {
      assert host[i] == domain[i];
    }
    forall i | 0 <= i < |tld| ensures Plain(tld[i]) {
      assert tld[i] == domain[k + 1 + i];
    }
  }

  /** An accepted address holds exactly one '@'. */
  lemma ValidEmailHasOneAt(email: string)
    requires IsValidEmail(email)
    ensures exists at :: 0 <= at < |email| && email[at] == '@' && forall i :: 0 <= i < |email| && i != at ==> email[i] != '@'
  {
    var at, dot :| 0 < at < |email| && at + 1 < dot < |email| - 1
      && email[at] == '@' && email[dot] == '.'
      && AllPlain(email[..at]) && AllPlain(email[at + 1..dot]) && AllPlain(email[dot + 1..]);
    forall i | 0 <= i < |email| && i != at ensures email[i] != '@' {
      if i < at {
        assert email[i] == email[..at][i];
      } else if i < dot {
        assert email[i] == email[at + 1..dot][i - at - 1];
      } else if i > dot {
        assert email[i] == email[dot + 1..][i - dot - 1];
      }
    }
  }

  /** The message `handleContinue` leaves: the first failing check's, or none. */
  function ContinueError(email: string, password: string, confirmPassword: string): (r: Option<string>)
    ensures r.None? <==> IsValidEmail(email) && Utf16Length(password) >= MinPasswordLength && password == confirmPassword
    ensures r == Some(InvalidEmail) <==> !IsValidEmail(email)
    ensures r == Some(ShortPassword) <==> IsValidEmail(email) && Utf16Length(password) < MinPasswordLength
    ensures r == Some(PasswordMismatch) <==>
      IsValidEmail(email) && Utf16Length(password) >= MinPasswordLength && password != confirmPassword
  {
    if !IsValidEmail(email) then Some(InvalidEmail)
    else if Utf16Length(password) < MinPasswordLength then Some(ShortPassword)
    else if password != confirmPassword then Some(PasswordMismatch)
    else None
  }

  /** The submit button's `disabled`: while loading, or while any field is empty. */
  predicate SubmitDisabled(loading: bool, email: string, password: string, confirmPassword: string)
  {
    loading || email == "" || password == "" || confirmPassword == ""
  }

  /**
   * A form the checks accept always has an enabled button when nothing is
   * loading; the converse fails, so the checks are what reject a filled form.
   */
  lemma AcceptedFormIsSubmittable(email: string, password: string, confirmPassword: string)
    ensures ContinueError(email, password, confirmPassword).None? ==> !SubmitDisabled(false, email, password, confirmPassword)
    ensures !SubmitDisabled(false, "a", "b", "b") && ContinueError("a", "b", "b") == Some(InvalidEmail)
  {
    if IsValidEmail(email) {
      var at, dot :| 0 < at < |email| && at + 1 < dot < |email| - 1 && email[at] == '@' && email[dot] == '.'
        && AllPlain(email[..at]) && AllPlain(email[at + 1..dot]) && AllPlain(email[dot + 1..]);
      assert email != "";
    }
  }

  /** `EmailInputScreen`: the three fields, the error line and the flow it advances. */
  class EmailInputScreen {
    var email: string
    var password: string
    var confirmPassword: string
    var error: Option<string>
    var loading: bool
    const flow: Onboarding.OnboardingProvider

    ghost predicate Valid()
      reads this, flow
    {
      flow.Valid()
    }

    constructor (flow: Onboarding.OnboardingProvider)
      requires flow.Valid()
      ensures Valid() && this.flow == flow
      ensures email == "" && password == "" && confirmPassword == "" && error.None? && !loading
    {
      this.flow := flow;
      email := "";
      password := "";
      confirmPassword := "";
      error := None;
      loading := false;
    }

    method SetEmail(value: string)
      modifies this
      ensures email == value && password == old(password) && confirmPassword == old(confirmPassword)
      ensures error == old(error) && loading == old(loading)
    {
      email := value;
    }

    method SetPassword(value: string)
      modifies this
      ensures password == value && email == old(email) && confirmPassword == old(confirmPassword)
      ensures error == old(error) && loading == old(loading)
    {
      password := value;
    }

    method SetConfirmPassword(value: string)
      modifies this
      ensures confirmPassword == value && email == old(email) && password == old(password)
      ensures error == old(error) && loading == old(loading)
    {
      confirmPassword := value;
    }

    function SubmitIsDisabled(): bool
      reads this
    {
      SubmitDisabled(loading, email, password, confirmPassword)
    }

    /**
     * `handleContinue`: clear the error, run the checks in order stopping at
     * the first failure, and advance the flow once when all pass.
     */
    method HandleContinue()
      requires Valid()
      modifies this, flow
      ensures Valid()
      ensures email == old(email) && password == old(password) && confirmPassword == old(confirmPassword)
      ensures loading == old(loading)
      ensures error == ContinueError(email, password, confirmPassword)
      ensures error.Some? ==>
        flow.currentStepIndex == old(flow.currentStepIndex) && flow.navigations == old(flow.navigations)
      ensures error.None? ==> flow.currentStepIndex == Onboarding.NextIndex(old(flow.currentStepIndex))
      ensures error.None? && old(flow.currentStepIndex) < Onboarding.LastIndex ==> flow.navigations == old(flow.navigations)
    {
      error := None;
      if !IsValidEmail(email) {
        error := Some(InvalidEmail);
        return;
      }
      if Utf16Length(password) < MinPasswordLength {
        error := Some(ShortPassword);
        return;
      }
      if password != confirmPassword {
        error := Some(PasswordMismatch);
        return;
      }
      flow.NextStep();
    }
  }
}
