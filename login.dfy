/**
 * The sign-up wizard (src/Pages/Login/Login.tsx): six screens, each handler moving forward only
 * when its inputs pass, a back button, a 30-second resend countdown and an OTP field that keeps
 * at most six digits. Each handler is a pure transition on the wizard's state; the page class
 * applies them one event at a time.
 */
module Login {
  import opened Seqs
  import opened Events

  datatype Step = Initial | Signup | Otp | Password | Location | Loading

  datatype Wizard = Wizard(
    step: Step,
    fullName: string,
    phoneNumber: string,
    otp: string,
    password: string,
    confirmPassword: string,
    countdown: int)

  const ResendSeconds: int := 30
  const OtpLength: nat := 6

  function Start(): Wizard {
    Wizard(Initial, "", "", "", "", "", ResendSeconds)
  }

  /** `\d`: an ASCII digit. */
  predicate IsDigit(c: char) {
    '0' <= c <= '9'
  }

  predicate AllDigits(s: string) {
    forall i :: 0 <= i < |s| ==> IsDigit(s[i])
  }

  /** `replace(/\D/g, "")`: every character that is not a digit is dropped. */
  function DigitsOnly(s: string): (r: string)
    ensures AllDigits(r)
    ensures IsSubsequence(r, s)
    ensures forall c :: c in s && IsDigit(c) ==> c in r
    ensures forall c :: multiset(r)[c] == if IsDigit(c) then multiset(s)[c] else 0
    ensures |r| <= |s|
  {
    if s == [] then []
    else
      assert s == [s[0]] + s[1..];
      if IsDigit(s[0]) then [s[0]] + DigitsOnly(s[1..])
      else DigitsOnly(s[1..])
  }

  /** The OTP field's onChange: digits only, then `slice(0, 6)`. */
  function SanitiseOtp(raw: string): (r: string)
    ensures AllDigits(r) && |r| <= OtpLength && |r| <= |DigitsOnly(raw)|
    ensures r == DigitsOnly(raw)[..|r|]
    ensures |r| == if |DigitsOnly(raw)| < OtpLength then |DigitsOnly(raw)| else OtpLength
  {
    Take(DigitsOnly(raw), OtpLength)
  }

  /** A code with repeated digits, typed in full, is stored in full. */
  lemma RepeatedDigitsKept()
    ensures SanitiseOtp("112233") == "112233"
  {
    var code := "112233";
    assert AllDigits(code) by {
      forall i | 0 <= i < |code| ensures IsDigit(code[i]) {
      }
    }
    DigitsOnlyKeepsDigits(code);
    assert Take(code, OtpLength) == code;
  }

  /** A string of digits passes the filter untouched. */
  lemma {:induction false} DigitsOnlyKeepsDigits(s: string)
    requires AllDigits(s)
    ensures DigitsOnly(s) == s
  {
    if s != [] {
      assert AllDigits(s[1..]) by {
        forall i | 0 <= i < |s[1..]| ensures IsDigit(s[1..][i]) {
          assert s[1..][i] == s[i + 1];
        }
      }
      DigitsOnlyKeepsDigits(s[1..]);
    }
  }

  /** Sanitising what is already sanitised changes nothing. */
  lemma SanitiseIdempotent(raw: string)
    ensures SanitiseOtp(SanitiseOtp(raw)) == SanitiseOtp(raw)
  {
    DigitsOnlyKeepsDigits(SanitiseOtp(raw));
  }

  /** What the user can do: type into a field, press a button, or let a second pass. */
  datatype Event =
    | CreateAccount
    | EditFullName(text: string)
    | EditPhoneNumber(text: string)
    | SignupSubmit
    | EditOtp(raw: string)
    | OtpSubmit
    | ResendOtp
    | EditPassword(text: string)
    | EditConfirmPassword(text: string)
    | PasswordSubmit
    | LocationSubmit
    | Back
    | Tick

  /** handleBack's table: each form screen goes to the one before it; the others stay. */
  function BackStep(step: Step): Step {
    match step
    case Signup => Initial
    case Otp => Signup
    case Password => Otp
    case Location => Password
    case _ => step
  }

  /** One event. The handlers do not check the current screen; their buttons are only on it. */
  function Apply(w: Wizard, e: Event): Wizard {
    match e
    case CreateAccount => w.(step := Signup)
    case EditFullName(text) => w.(fullName := text)
    case EditPhoneNumber(text) => w.(phoneNumber := text)
    case SignupSubmit =>
      if w.fullName != "" && w.phoneNumber != "" then w.(step := Otp, countdown := ResendSeconds) else w
    case EditOtp(raw) => w.(otp := SanitiseOtp(raw))
    case OtpSubmit => if |w.otp| == OtpLength then w.(step := Password) else w
    case ResendOtp => w.(countdown := ResendSeconds, otp := "")
    case EditPassword(text) => w.(password := text)
    case EditConfirmPassword(text) => w.(confirmPassword := text)
    case PasswordSubmit =>
      if w.password != "" && w.password == w.confirmPassword then w.(step := Location) else w
    case LocationSubmit => w.(step := Loading)
    case Back => w.(step := BackStep(w.step))
    case Tick => if w.step == Otp && w.countdown > 0 then w.(countdown := w.countdown - 1) else w
  }

  function ApplyAll(w: Wizard, es: seq<Event>): Wizard
    decreases |es|
  {
    if es == [] then w else ApplyAll(Apply(w, es[0]), es[1..])
  }

  /** The countdown stays within 0..30 and the OTP is at most six digits. */
  predicate Valid(w: Wizard) {
    0 <= w.countdown <= ResendSeconds && AllDigits(w.otp) && |w.otp| <= OtpLength
  }

  /** Every event keeps the wizard valid; in particular the countdown never goes below 0. */
  lemma ApplyKeepsValid(w: Wizard, e: Event)
    requires Valid(w)
    ensures Valid(Apply(w, e))
  {
  }

  /** Any run from the start stays valid. */
  lemma {:induction false} RunKeepsValid(w: Wizard, es: seq<Event>)
    requires Valid(w)
    ensures Valid(ApplyAll(w, es))
    decreases |es|
  {
    if es != [] {
      ApplyKeepsValid(w, es[0]);
      RunKeepsValid(Apply(w, es[0]), es[1..]);
    }
  }

  /** The guarded forward moves: each happens exactly when its inputs pass, and otherwise nothing changes. */
  lemma ForwardGuards(w: Wizard)
    ensures w.fullName != "" && w.phoneNumber != "" ==>
      Apply(w, SignupSubmit).step == Otp && Apply(w, SignupSubmit).countdown == 30
    ensures !(w.fullName != "" && w.phoneNumber != "") ==> Apply(w, SignupSubmit) == w
    ensures |w.otp| == 6 ==> Apply(w, OtpSubmit).step == Password
    ensures |w.otp| != 6 ==> Apply(w, OtpSubmit) == w
    ensures w.password != "" && w.password == w.confirmPassword ==> Apply(w, PasswordSubmit).step == Location
    ensures !(w.password != "" && w.password == w.confirmPassword) ==> Apply(w, PasswordSubmit) == w
    ensures Apply(w, LocationSubmit).step == Loading
  {
  }

  /** Back undoes each forward move of the screen order. */
  lemma BackUndoesForward(w: Wizard)
    ensures BackStep(Apply(w, CreateAccount).step) == Initial
    ensures w.step == Signup && Apply(w, SignupSubmit).step == Otp ==> BackStep(Apply(w, SignupSubmit).step) == w.step
    ensures w.step == Otp && Apply(w, OtpSubmit).step == Password ==> BackStep(Apply(w, OtpSubmit).step) == w.step
    ensures w.step == Password && Apply(w, PasswordSubmit).step == Location ==> BackStep(Apply(w, PasswordSubmit).step) == w.step
    ensures BackStep(Initial) == Initial && BackStep(Loading) == Loading
  {
  }

  /** On the OTP screen the countdown reaches 0 after 30 ticks and then stays there, which is when
      the resend button appears. */
  lemma {:induction false} TicksCountDown(w: Wizard, n: nat)
    requires w.step == Otp && w.countdown >= 0
    ensures ApplyAll(w, seq(n, _ => Tick)).countdown == (if n <= w.countdown then w.countdown - n else 0)
    ensures ApplyAll(w, seq(n, _ => Tick)).step == Otp
    decreases n
  {
    if n > 0 {
      var ticks := seq(n, _ => Tick);
      assert ticks[0] == Tick;
      assert ticks[1..] == seq(n - 1, _ => Tick);
      TicksCountDown(Apply(w, Tick), n - 1);
    }
  }

  /** The resend button shows only once the countdown is over. */
  predicate ResendVisible(w: Wizard) {
    !(w.countdown > 0)
  }

  /** After a resend on the OTP screen the resend button stays hidden for exactly 30 ticks. */
  lemma ResendHiddenUntilCountdownEnds(w: Wizard, n: nat)
    requires w.step == Otp
    ensures ApplyAll(Apply(w, Event.ResendOtp), seq(n, _ => Tick)).otp == ""
    ensures ResendVisible(ApplyAll(Apply(w, Event.ResendOtp), seq(n, _ => Tick))) <==> n >= ResendSeconds
  {
    TicksCountDown(Apply(w, Event.ResendOtp), n);
    TicksKeepOtp(Apply(w, Event.ResendOtp), n);
  }

  lemma {:induction false} TicksKeepOtp(w: Wizard, n: nat)
    ensures ApplyAll(w, seq(n, _ => Tick)).otp == w.otp
    decreases n
  {
    if n > 0 {
      var ticks := seq(n, _ => Tick);
      assert ticks[0] == Tick;
      assert ticks[1..] == seq(n - 1, _ => Tick);
      TicksKeepOtp(Apply(w, Tick), n - 1);
    }
  }

  /** The page: one field per piece of state, one method per handler. */
  class SignupWizard {
    var step: Step
    var fullName: string
    var phoneNumber: string
    var otp: string
    var password: string
    var confirmPassword: string
    var countdown: int

    function State(): Wizard
      reads this
    {
      Wizard(step, fullName, phoneNumber, otp, password, confirmPassword, countdown)
    }

    constructor ()
      ensures State() == Start() && Valid(State())
    {
      step := Initial;
      fullName := "";
      phoneNumber := "";
      otp := "";
      password := "";
      confirmPassword := "";
      countdown := 30;
    }

    /** The initial screen's create-account button. */
    method HandleCreateAccount()
      modifies this
      ensures State() == Apply(old(State()), CreateAccount)
      ensures old(Valid(State())) ==> Valid(State())
    {
      step := Signup;
    }

    method SetFullName(text: string)
      modifies this
      ensures State() == Apply(old(State()), EditFullName(text))
      ensures old(Valid(State())) ==> Valid(State())
    {
      fullName := text;
    }

    method SetPhoneNumber(text: string)
      modifies this
      ensures State() == Apply(old(State()), EditPhoneNumber(text))
      ensures old(Valid(State())) ==> Valid(State())
    {
      phoneNumber := text;
    }

    /** Moves to the OTP screen and restarts the countdown, only with a name and a phone number. */
    method HandleSignupSubmit()
      modifies this
      ensures State() == Apply(old(State()), SignupSubmit)
      ensures old(Valid(State())) ==> Valid(State())
    {
      if fullName != "" && phoneNumber != "" {
        step := Otp;
        countdown := 30;
      }
    }

    /** The OTP field's onChange. */
    method HandleOtpChange(raw: string)
      modifies this
      ensures State() == Apply(old(State()), EditOtp(raw))
      ensures old(Valid(State())) ==> Valid(State())
    {
      otp := Take(DigitsOnly(raw), 6);
    }

    /** Moves on only with six characters. */
    method HandleOtpSubmit()
      modifies this
      ensures State() == Apply(old(State()), OtpSubmit)
      ensures old(Valid(State())) ==> Valid(State())
    {
      if |otp| == 6 {
        step := Password;
      }
    }

    /** Restarts the countdown and clears the code. */
    method HandleResendOtp()
      modifies this
      ensures State() == Apply(old(State()), Event.ResendOtp)
      ensures old(Valid(State())) ==> Valid(State())
    {
      countdown := 30;
      otp := "";
    }

    method SetPassword(text: string)
      modifies this
      ensures State() == Apply(old(State()), EditPassword(text))
      ensures old(Valid(State())) ==> Valid(State())
    {
      password := text;
    }

    method SetConfirmPassword(text: string)
      modifies this
      ensures State() == Apply(old(State()), EditConfirmPassword(text))
      ensures old(Valid(State())) ==> Valid(State())
    {
      confirmPassword := text;
    }

    /** Moves on only with a non-empty password typed the same twice. */
    method HandlePasswordSubmit()
      modifies this
      ensures State() == Apply(old(State()), PasswordSubmit)
      ensures old(Valid(State())) ==> Valid(State())
    {
      if password != "" && password == confirmPassword {
        step := Location;
      }
    }

    /** "I'll do it later": straight to the loading screen (the navigation two seconds later is left out). */
    method HandleLocationSubmit()
      modifies this
      ensures State() == Apply(old(State()), LocationSubmit)
      ensures old(Valid(State())) ==> Valid(State())
    {
      step := Loading;
    }

    method HandleBack()
      modifies this
      ensures State() == Apply(old(State()), Back)
      ensures old(Valid(State())) ==> Valid(State())
    {
      if step == Signup {
        step := Initial;
      } else if step == Otp {
        step := Signup;
      } else if step == Password {
        step := Otp;
      } else if step == Location {
        step := Password;
      }
    }

    /** The countdown effect, once per second: only on the OTP screen and only while above 0. */
    method CountdownTick()
      modifies this
      ensures State() == Apply(old(State()), Tick)
      ensures old(Valid(State())) ==> Valid(State())
    {
      if step == Otp && countdown > 0 {
        countdown := countdown - 1;
      }
    }
  }
}
