/** The welcome and sign-in flow: a language screen, a phone-number screen and a
    verification-code screen, selected by the two flags `showAuth` and `showOTP`. */
module Welcome {
  import opened Navigation

  const LanguageCodes: seq<string> := ["uz", "ru", "en"]

  /** Digits in a verification code; the code input accepts at most this many. */
  const CodeLength: int := 6

  /** The length JavaScript reports for a string: its count of UTF-16 code units, so a
      character outside the Basic Multilingual Plane counts twice. It agrees with the
      character count on strings without such characters. With `JsLengthAppend`, the
      one-character case fixes the count of every string. */
  function JsLength(s: string): (n: nat)
    ensures |s| <= n <= 2 * |s|
    ensures |s| == 1 ==> n == (if (s[0] as int) < 0x1_0000 then 1 else 2)
    ensures (forall i :: 0 <= i < |s| ==> (s[i] as int) < 0x1_0000) ==> n == |s|
    decreases |s|
  {
    if s == [] then 0
    else (if (s[0] as int) < 0x1_0000 then 1 else 2) + JsLength(s[1..])
  }

  /** The length of a concatenation is the sum of the lengths of its parts. */
  lemma {:induction false} JsLengthAppend(a: string, b: string)
    ensures JsLength(a + b) == JsLength(a) + JsLength(b)
    decreases |a|
  {
    if a == [] {
      assert a + b == b;
    } else {
      assert (a + b)[0] == a[0];
      assert (a + b)[1..] == a[1..] + b;
      JsLengthAppend(a[1..], b);
    }
  }

  datatype Screen = LanguageScreen | PhoneScreen | CodeScreen

  datatype AuthState = AuthState(
    selectedLanguage: string,
    showAuth: bool,
    showOTP: bool,
    phoneNumber: string,
    otpValue: string)

  /** The page as it mounts: language "en", both flags off, both fields empty. It shows
      the language screen and satisfies the flow's invariant. */
  function Initial(): (s: AuthState)
    ensures Consistent(s) && ScreenOf(s) == LanguageScreen
  {
    AuthState("en", false, false, "", "")
  }

  /** The screen the page renders: the language screen while `showAuth` is off, the code
      screen while both flags are on, the phone screen otherwise. */
  function ScreenOf(s: AuthState): (sc: Screen)
    ensures sc == LanguageScreen <==> !s.showAuth
    ensures sc == CodeScreen <==> s.showAuth && s.showOTP
    ensures sc == PhoneScreen <==> s.showAuth && !s.showOTP
  {
    if !s.showAuth then LanguageScreen
    else if s.showOTP then CodeScreen
    else PhoneScreen
  }

  /** The Send button's enabling condition, "not shorter than 9", is exactly the guard of
      `handleSendOTP`, "longer than 8". */
  function SendEnabled(phone: string): (enabled: bool)
    ensures enabled <==> JsLength(phone) > 8
  {
    !(JsLength(phone) < 9)
  }

  /** The Verify button's enabling condition, which is the guard of `handleVerifyOTP`. */
  function VerifyEnabled(code: string): (enabled: bool)
    ensures enabled <==> JsLength(code) == CodeLength
  {
    !(JsLength(code) != 6)
  }

  /** The invariant of the flow: the code screen is only ever shown over the phone screen
      and for a phone number that passed the length guard; a field is empty while its
      screen has not been reached; the code never exceeds its input's length. */
  predicate Consistent(s: AuthState)
  {
    && (s.showOTP ==> s.showAuth && JsLength(s.phoneNumber) > 8)
    && (!s.showAuth ==> s.phoneNumber == "")
    && (!s.showOTP ==> s.otpValue == "")
    && JsLength(s.otpValue) <= CodeLength
  }

  /** `handleLanguageSelect`: records the code and leaves the language screen. */
  function SelectLanguage(s: AuthState, code: string): (t: AuthState)
    ensures t.selectedLanguage == code && t.showAuth
    ensures t.showOTP == s.showOTP && t.phoneNumber == s.phoneNumber && t.otpValue == s.otpValue
    ensures ScreenOf(s) == LanguageScreen && Consistent(s) ==> ScreenOf(t) == PhoneScreen
  {
    s.(selectedLanguage := code, showAuth := true)
  }

  /** `handleSendOTP`: opens the code screen when the number is longer than 8 UTF-16 units
      and otherwise changes nothing. */
  function SendOtp(s: AuthState): (t: AuthState)
    ensures JsLength(s.phoneNumber) > 8 ==> t.showOTP && t == s.(showOTP := true)
    ensures JsLength(s.phoneNumber) <= 8 ==> t == s
    ensures ScreenOf(s) == PhoneScreen && SendEnabled(s.phoneNumber) ==> ScreenOf(t) == CodeScreen
  {
    if JsLength(s.phoneNumber) > 8 then s.(showOTP := true) else s
  }

  /** `handleVerifyOTP` changes no state; with a code of 6 UTF-16 units it navigates to
      onboarding for a new user and to the dashboard otherwise, and with any other code
      it does nothing. Whether the user is new is a coin toss in the source and is taken
      as the parameter `isNewUser`. */
  function VerifyRoute(s: AuthState, isNewUser: bool): (r: Option<Route>)
    ensures r.Some? <==> JsLength(s.otpValue) == CodeLength
    ensures r == Some(OnboardingRoute) <==> JsLength(s.otpValue) == CodeLength && isNewUser
    ensures r == Some(DashboardRoute) <==> JsLength(s.otpValue) == CodeLength && !isNewUser
  {
    if JsLength(s.otpValue) == 6 then
      if isNewUser then Some(OnboardingRoute) else Some(DashboardRoute)
    else None
  }

  /** `handleBack`: from the code screen it hides that screen and clears the code, keeping
      the number; otherwise it hides the phone screen and clears the number. Either way the
      page goes back exactly one screen. */
  function Back(s: AuthState): (t: AuthState)
    ensures s.showOTP ==> t == s.(showOTP := false, otpValue := "")
    ensures !s.showOTP ==> t == s.(showAuth := false, phoneNumber := "")
    ensures Consistent(s) && ScreenOf(s) == CodeScreen ==> ScreenOf(t) == PhoneScreen
    ensures Consistent(s) && ScreenOf(s) == PhoneScreen ==> ScreenOf(t) == LanguageScreen
  {
    if s.showOTP then s.(showOTP := false, otpValue := "")
    else s.(showAuth := false, phoneNumber := "")
  }

  datatype UserEvent =
    | ChooseLanguage(code: string)
    | TypePhone(phone: string)
    | SendCode
    | TypeCode(code: string)
    | VerifyCode(isNewUser: bool)
    | GoBack

  /** The controls each screen renders: language buttons on the first screen; the number
      input, Send and Back on the second; the code input (at most 6 UTF-16 units), Verify and
      Back on the third. */
  predicate Offered(sc: Screen, e: UserEvent)
  {
    match e
    case ChooseLanguage(code) => sc == LanguageScreen && code in LanguageCodes
    case TypePhone(_) => sc == PhoneScreen
    case SendCode => sc == PhoneScreen
    case TypeCode(code) => sc == CodeScreen && JsLength(code) <= CodeLength
    case VerifyCode(_) => sc == CodeScreen
    case GoBack => sc != LanguageScreen
  }

  /** The state after one event (verification changes no state). Every offered event keeps
      the flow consistent. */
  function Handle(s: AuthState, e: UserEvent): (t: AuthState)
    ensures Consistent(s) && Offered(ScreenOf(s), e) ==> Consistent(t)
  {
    match e
    case ChooseLanguage(code) => SelectLanguage(s, code)
    case TypePhone(phone) => s.(phoneNumber := phone)
    case SendCode => SendOtp(s)
    case TypeCode(code) => s.(otpValue := code)
    case VerifyCode(_) => s
    case GoBack => Back(s)
  }

  function HandleAll(s: AuthState, es: seq<UserEvent>): AuthState
    decreases |es|
  {
    if es == [] then s else HandleAll(Handle(s, es[0]), es[1..])
  }

  predicate AllOffered(s: AuthState, es: seq<UserEvent>)
    decreases |es|
  {
    es == [] || (Offered(ScreenOf(s), es[0]) && AllOffered(Handle(s, es[0]), es[1..]))
  }

  /** Seven digits and an emoji are nine UTF-16 units, so the Send guard lets them through. */
  lemma AstralCharacterCountsTwice()
    ensures JsLength("1234567\U{1F600}") == 9 && SendEnabled("1234567\U{1F600}")
  {
    var s := "1234567\U{1F600}";
    assert s[1..][1..][1..][1..][1..][1..][1..] == "\U{1F600}";
  }

  /** Any run of offered events keeps the flow consistent; in particular `showOTP` never
      holds without `showAuth`, and the code screen always shows a number of at least
      nine UTF-16 units. */
  lemma {:induction false} ConsistentAlongRun(s: AuthState, es: seq<UserEvent>)
    requires Consistent(s) && AllOffered(s, es)
    ensures Consistent(HandleAll(s, es))
    ensures HandleAll(s, es).showOTP ==> HandleAll(s, es).showAuth
    decreases |es|
  {
    if es != [] {
      ConsistentAlongRun(Handle(s, es[0]), es[1..]);
    }
  }

  /** The welcome page with its five pieces of state. */
  class WelcomePage {
    var selectedLanguage: string
    var showAuth: bool
    var showOTP: bool
    var phoneNumber: string
    var otpValue: string

    function State(): AuthState
      reads this
    {
      AuthState(selectedLanguage, showAuth, showOTP, phoneNumber, otpValue)
    }

    ghost predicate Valid()
      reads this
    {
      Consistent(State())
    }

    constructor ()
      ensures Valid() && State() == Initial()
    {
      selectedLanguage := "en";
      showAuth := false;
      showOTP := false;
      phoneNumber := "";
      otpValue := "";
    }

    /** `handleLanguageSelect`. */
    method HandleLanguageSelect(code: string)
      requires Valid()
      modifies this
      ensures Valid() && State() == SelectLanguage(old(State()), code)
    {
      selectedLanguage := code;
      showAuth := true;
    }

    /** The phone input's `onChange`, rendered only on the phone screen. */
    method SetPhoneNumber(phone: string)
      requires Valid() && ScreenOf(State()) == PhoneScreen
      modifies this
      ensures Valid() && State() == old(State()).(phoneNumber := phone)
    {
      phoneNumber := phone;
    }

    /** `handleSendOTP`. */
    method HandleSendOtp()
      requires Valid()
      modifies this
      ensures Valid() && State() == SendOtp(old(State()))
    {
      if JsLength(phoneNumber) > 8 {
        showOTP := true;
      }
    }

    /** The code input's `onChange`, rendered only on the code screen with a cap of six UTF-16 units. */
    method SetOtpValue(code: string)
      requires Valid() && ScreenOf(State()) == CodeScreen && JsLength(code) <= CodeLength
      modifies this
      ensures Valid() && State() == old(State()).(otpValue := code)
    {
      otpValue := code;
    }

    /** `handleVerifyOTP`: reads the state and returns the destination, if any. */
    method HandleVerifyOtp(isNewUser: bool) returns (navigation: Option<Route>)
      requires Valid()
      ensures navigation == VerifyRoute(State(), isNewUser)
    {
      if JsLength(otpValue) == 6 {
        if isNewUser {
          navigation := Some(OnboardingRoute);
        } else {
          navigation := Some(DashboardRoute);
        }
      } else {
        navigation := None;
      }
    }

    /** `handleBack`. */
    method HandleBack()
      requires Valid()
      modifies this
      ensures Valid() && State() == Back(old(State()))
    {
      if showOTP {
        showOTP := false;
        otpValue := "";
      } else {
        showAuth := false;
        phoneNumber := "";
      }
    }
  }
}
