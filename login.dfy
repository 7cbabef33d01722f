/** The sign-in page (pages/LoginPage.tsx): the e-mail and WhatsApp number
    rules, the errors they show, the gate before the sign-in request, and the
    social sign-in that fills in a demo number. */
module Login {
  import opened Util
  import opened Types
  import opened PreferenceStore

  // ----- the e-mail rule -----

  /** `/\S+@\S+\.\S+/.test(s)`: somewhere in `s` a non-space character, `@`,
      a run of non-space characters, `.`, and a non-space character. The
      expression is not anchored, so the outer runs may be one character. */
  predicate EmailMatches(s: string)
  {
    exists at, dot :: 0 < at < dot < |s| && EmailShapeAt(s, at, dot)
  }

  /** The `@` is at index `at` and the `.` at index `dot`. */
  predicate EmailShapeAt(s: string, at: int, dot: int)
  {
    0 < at && at + 1 < dot && dot + 1 < |s|
    && s[at] == '@' && s[dot] == '.'
    && !IsJsSpace(s[at - 1]) && !IsJsSpace(s[dot + 1])
    && forall m :: at < m < dot ==> !IsJsSpace(s[m])
  }

  /** Text around a matching address does not stop the match. */
  lemma EmailMatchIsUnanchored(s: string, before: string, after: string)
    requires EmailMatches(s)
    ensures EmailMatches(before + s + after)
  {
    var at, dot :| 0 < at < dot < |s| && EmailShapeAt(s, at, dot);
    var t := before + s + after;
    forall m | 0 <= m < |s| ensures t[|before| + m] == s[m] {
    }
    assert EmailShapeAt(t, |before| + at, |before| + dot);
  }

  /** A matching address has an `@`, a later `.` and at least five characters. */
  lemma EmailMatchShape(s: string)
    requires EmailMatches(s)
    ensures '@' in s && '.' in s && |s| >= 5
  {
    var at, dot :| 0 < at < dot < |s| && EmailShapeAt(s, at, dot);
    assert s[at] == '@' && s[dot] == '.';
  }

  const GoogleEmail: string := "user@gmail.com"
  const AppleEmail: string := "user@icloud.com"

  /** The addresses the social sign-in stores pass the e-mail rule. */
  lemma SocialEmailsMatch()
    ensures EmailMatches(GoogleEmail) && EmailMatches(AppleEmail)
  {
    assert EmailShapeAt(GoogleEmail, 4, 10);
    assert EmailShapeAt(AppleEmail, 4, 11);
  }

  /** `validateEmail`'s message: required, malformed, or none. */
  function EmailError(value: string): (e: string)
    ensures value == "" ==> e == "Email is required."
    ensures value != "" && !EmailMatches(value) ==> e == "Please enter a valid email address."
    ensures e == "" <==> value != "" && EmailMatches(value)
  {
    if value == "" then "Email is required."
    else if !EmailMatches(value) then "Please enter a valid email address."
    else ""
  }

  // ----- the WhatsApp number rule -----

  predicate IsAsciiDigit(c: char)
  {
    '0' <= c <= '9'
  }

  /** `/^\+?[1-9]\d{1,14}$/.test(s)`: an optional `+`, then 2 to 15 digits of
      which the first is not 0, and nothing else; at most 15 digits as in
      ITU-T Recommendation E.164. */
  predicate PhoneMatches(s: string)
  {
    var d := AfterPlus(s);
    2 <= |d| <= 15 && d[0] != '0' && AllDigits(d)
  }

  /** `s` without its leading `+`, if it has one. */
  function AfterPlus(s: string): string
  {
    if |s| > 0 && s[0] == '+' then s[1..] else s
  }

  predicate AllDigits(d: string)
  {
    forall i :: 0 <= i < |d| ==> IsAsciiDigit(d[i])
  }

  /** The leading `+` is optional: a digit string passes with or without it. */
  lemma PlusIsOptional(d: string)
    requires d == [] || d[0] != '+'
    ensures PhoneMatches("+" + d) <==> PhoneMatches(d)
  {
    var t := "+" + d;
    assert t[0] == '+' && t[1..] == d;
    assert AfterPlus(t) == d == AfterPlus(d);
  }

  /** An accepted number is never longer than the plus sign and 15 digits. */
  lemma PhoneLength(s: string)
    requires PhoneMatches(s)
    ensures 2 <= |s| <= 16
    ensures forall i :: 0 <= i < |s| ==> IsAsciiDigit(s[i]) || (i == 0 && s[i] == '+')
  {
    if |s| > 0 && s[0] == '+' {
      forall i | 0 < i < |s| ensures IsAsciiDigit(s[i]) {
        assert s[i] == s[1..][i - 1];
      }
    }
  }

  const DefaultWhatsapp: string := "+1234567890"

  /** The demo number the social sign-in falls back to passes the rule. */
  lemma DefaultWhatsappMatches()
    ensures PhoneMatches(DefaultWhatsapp)
  {
    var d := AfterPlus(DefaultWhatsapp);
    assert d == "1234567890";
    assert AllDigits(d);
  }

  /** `validateWhatsappNumber`'s message: required, malformed, or none. */
  function WhatsappError(value: string): (e: string)
    ensures value == "" ==> e == "WhatsApp number is required."
    ensures value != "" && !PhoneMatches(value) ==> e == "Please enter a valid WhatsApp number (e.g., +1234567890)."
    ensures e == "" <==> value != "" && PhoneMatches(value)
  {
    if value == "" then "WhatsApp number is required."
    else if !PhoneMatches(value) then "Please enter a valid WhatsApp number (e.g., +1234567890)."
    else ""
  }

  const SocialLoginNumberError: string := "Please provide a valid WhatsApp number to continue with social login."

  /** The page: the two inputs, their errors, and the store it signs into. */
  class LoginPage {
    const store: Store
    var email: string
    var whatsappNumber: string
    var emailError: string
    var whatsappError: string

    ghost predicate Valid()
      reads this, store
    {
      store.Valid()
    }

    constructor (store: Store)
      requires store.Valid()
      ensures Valid() && this.store == store
      ensures email == store.preferences.email && whatsappNumber == store.preferences.whatsappNumber
      ensures emailError == "" && whatsappError == ""
    {
      this.store := store;
      email := store.preferences.email;
      whatsappNumber := store.preferences.whatsappNumber;
      emailError := "";
      whatsappError := "";
    }

    /** `validateEmail`: the error is set, and cleared on acceptance. */
    method ValidateEmail(value: string) returns (ok: bool)
      modifies this
      ensures emailError == EmailError(value)
      ensures ok <==> emailError == ""
      ensures email == old(email) && whatsappNumber == old(whatsappNumber) && whatsappError == old(whatsappError)
    {
      if value == "" {
        emailError := "Email is required.";
        return false;
      }
      if !EmailMatches(value) {
        emailError := "Please enter a valid email address.";
        return false;
      }
      emailError := "";
      return true;
    }

    /** `validateWhatsappNumber`. */
    method ValidateWhatsappNumber(value: string) returns (ok: bool)
      modifies this
      ensures whatsappError == WhatsappError(value)
      ensures ok <==> whatsappError == ""
      ensures email == old(email) && whatsappNumber == old(whatsappNumber) && emailError == old(emailError)
    {
      if value == "" {
        whatsappError := "WhatsApp number is required.";
        return false;
      }
      if !PhoneMatches(value) {
        whatsappError := "Please enter a valid WhatsApp number (e.g., +1234567890).";
        return false;
      }
      whatsappError := "";
      return true;
    }

    /** `handleLogin`, with the server's answer as a parameter: both checks
        always run, the request is sent only when both pass, and an accepted
        request signs the user in with the typed e-mail and number. */
    method HandleLogin(serverAccepts: bool) returns (sent: bool)
      requires Valid()
      modifies this, store
      ensures Valid()
      ensures emailError == EmailError(old(email)) && whatsappError == WhatsappError(old(whatsappNumber))
      ensures sent <==> emailError == "" && whatsappError == ""
      ensures store.preferences ==
        if sent && serverAccepts
        then old(store.preferences).(email := old(email), whatsappNumber := old(whatsappNumber), isWhatsAppConfirmed := true)
        else old(store.preferences)
      ensures sent && serverAccepts ==> IsAuthenticated(store.preferences)
      ensures email == old(email) && whatsappNumber == old(whatsappNumber)
    {
      var isEmailValid := ValidateEmail(email);
      var isWhatsappValid := ValidateWhatsappNumber(whatsappNumber);
      sent := isEmailValid && isWhatsappValid;
      if sent && serverAccepts {
        var p := store.preferences;
        store.SetPreferences(p.(email := email, whatsappNumber := whatsappNumber, isWhatsAppConfirmed := true));
      }
    }

    /** `handleSocialLogin`: the provider's demo address is stored, an empty
        number is replaced by the demo number, and a number that passes the
        rule is stored and confirmed. */
    method HandleSocialLogin(provider: string) returns (signedIn: bool)
      requires Valid()
      modifies this, store
      ensures Valid()
      ensures var mockEmail := if provider == "Google" then GoogleEmail else AppleEmail;
        var number := if old(whatsappNumber) == "" then DefaultWhatsapp else old(whatsappNumber);
        signedIn == PhoneMatches(number)
        && (signedIn ==>
              (whatsappError == ""
               && store.preferences == old(store.preferences).(email := mockEmail, whatsappNumber := number, isWhatsAppConfirmed := true)))
        && (!signedIn ==>
              (whatsappError == SocialLoginNumberError
               && store.preferences == old(store.preferences).(email := mockEmail)))
      ensures old(whatsappNumber) == "" ==> signedIn && IsAuthenticated(store.preferences)
      ensures email == old(email) && whatsappNumber == old(whatsappNumber) && emailError == old(emailError)
    {
      var mockEmail := if provider == "Google" then GoogleEmail else AppleEmail;
      store.UpdatePreference(EmailField(mockEmail));
      var currentWhatsapp := whatsappNumber;
      if currentWhatsapp == "" {
        currentWhatsapp := DefaultWhatsapp;
      }
      DefaultWhatsappMatches();
      signedIn := ValidateWhatsappNumber(currentWhatsapp);
      if signedIn {
        store.UpdatePreference(WhatsappNumberField(currentWhatsapp));
        store.UpdatePreference(WhatsAppConfirmedField(true));
      } else {
        whatsappError := SocialLoginNumberError;
      }
    }

    /** Typing in the e-mail input: re-checked only while an error shows. */
    method EditEmail(value: string)
      modifies this
      ensures email == value
      ensures emailError == if old(emailError) != "" then EmailError(value) else old(emailError)
      ensures whatsappNumber == old(whatsappNumber) && whatsappError == old(whatsappError)
    {
      email := value;
      if emailError != "" {
        var _ := ValidateEmail(value);
      }
    }

    /** Leaving the e-mail input checks it. */
    method BlurEmail()
      modifies this
      ensures emailError == EmailError(email)
      ensures email == old(email) && whatsappNumber == old(whatsappNumber) && whatsappError == old(whatsappError)
    {
      var _ := ValidateEmail(email);
    }

    /** Typing in the number input: re-checked only while an error shows. */
    method EditWhatsappNumber(value: string)
      modifies this
      ensures whatsappNumber == value
      ensures whatsappError == if old(whatsappError) != "" then WhatsappError(value) else old(whatsappError)
      ensures email == old(email) && emailError == old(emailError)
    {
      whatsappNumber := value;
      if whatsappError != "" {
        var _ := ValidateWhatsappNumber(value);
      }
    }

    /** Leaving the number input checks it. */
    method BlurWhatsappNumber()
      modifies this
      ensures whatsappError == WhatsappError(whatsappNumber)
      ensures email == old(email) && whatsappNumber == old(whatsappNumber) && emailError == old(emailError)
    {
      var _ := ValidateWhatsappNumber(whatsappNumber);
    }
  }
}
