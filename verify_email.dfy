/** The "check your email" page: a resend countdown that ticks down once a
    second, a resend button guarded by it, and the switch to the verified
    view. Each timer expiry is a method call. */
module VerifyEmail {
  import opened Text

  const InitialCountdown := 60

  /** The countdown after one timer expiry: the effect only schedules a tick
      while the countdown is positive */
  function NextCountdown(countdown: int): (next: int)
    ensures countdown > 0 ==> next == countdown - 1
    ensures countdown <= 0 ==> next == countdown
  {
    if countdown > 0 then countdown - 1 else countdown
  }

  /** The countdown after `n` ticks */
  function CountdownAfter(countdown: int, n: nat): (c: int)
  {
    if n == 0 then countdown else CountdownAfter(NextCountdown(countdown), n - 1)
  }

  /** Ticking from a non-negative count stops at zero and never goes below */
  lemma {:induction false} CountdownAfterTicks(countdown: int, n: nat)
    requires countdown >= 0
    ensures CountdownAfter(countdown, n) == if countdown >= n then countdown - n else 0
  {
    if n > 0 {
      CountdownAfterTicks(NextCountdown(countdown), n - 1);
    }
  }

  /** The resend button is enabled: `disabled={isResending || countdown > 0}`
      is false */
  predicate ResendEnabled(isResending: bool, countdown: int)
    ensures countdown >= 0 ==> (ResendEnabled(isResending, countdown) <==> !isResending && countdown == 0)
  {
    !(isResending || countdown > 0)
  }

  const SendingLabel := "Sending..."
  const ResendEmailLabel := "Resend Email"

  /** The resend button's text */
  function ResendLabel(isResending: bool, countdown: int): (caption: string)
    ensures caption == SendingLabel <==> isResending
    ensures !isResending && countdown > 0 ==> caption == "Resend in " + NatToString(countdown) + "s"
    ensures caption == ResendEmailLabel <==> !isResending && countdown <= 0
  {
    if isResending then SendingLabel
    else if countdown > 0 then
      var caption := "Resend in " + NatToString(countdown) + "s";
      assert caption[7] == 'i' && caption[1] == 'e';
      caption
    else ResendEmailLabel
  }

  /** For a non-negative countdown the button reads "Resend Email" exactly
      when it is enabled */
  lemma LabelShowsEnabled(isResending: bool, countdown: int)
    requires countdown >= 0
    ensures ResendLabel(isResending, countdown) == ResendEmailLabel <==> ResendEnabled(isResending, countdown)
  {
  }

  /** A countdown caption names the remaining seconds: different counts give
      different labels */
  lemma {:induction false} CountdownLabelsDiffer(m: int, n: int)
    requires m > 0 && n > 0 && m != n
    ensures ResendLabel(false, m) != ResendLabel(false, n)
  {
    var prefix := "Resend in ";
    var lm, ln := ResendLabel(false, m), ResendLabel(false, n);
    if lm == ln {
      var sm, sn := NatToString(m), NatToString(n);
      assert lm == prefix + sm + "s" && ln == prefix + sn + "s";
      assert |sm| == |sn|;
      assert sm == lm[|prefix|..|lm| - 1];
      assert sn == ln[|prefix|..|ln| - 1];
      NatToStringInjective(m, n);
    }
  }

  datatype Screen = CheckEmail | Verified

  class VerifyEmailPage {
    var isVerified: bool
    var isResending: bool
    var countdown: int

    ghost predicate Valid()
      reads this
    {
      0 <= countdown <= InitialCountdown && (isResending ==> countdown == 0)
    }

    constructor ()
      ensures Valid()
      ensures !isVerified && !isResending && countdown == InitialCountdown
    {
      isVerified, isResending, countdown := false, false, InitialCountdown;
    }

    /** The page renders the verified view once the flag is set */
    function CurrentScreen(): (s: Screen)
      reads this
      ensures s == Verified <==> isVerified
    {
      if isVerified then Verified else CheckEmail
    }

    /** The one-second timer of the countdown effect fires */
    method Tick()
      requires Valid()
      modifies this`countdown
      ensures Valid()
      ensures countdown == NextCountdown(old(countdown))
    {
      countdown := NextCountdown(countdown);
    }

    /** A click on the resend button: a disabled button delivers no click,
        and the verified view has no such button */
    method ClickResend()
      requires Valid() && !isVerified && ResendEnabled(isResending, countdown)
      modifies this`isResending
      ensures Valid() && isResending
    {
      isResending := true;
    }

    /** The simulated resend request completes */
    method CompleteResend()
      requires Valid() && isResending
      modifies this`isResending, this`countdown
      ensures Valid()
      ensures !isResending && countdown == InitialCountdown
    {
      isResending := false;
      countdown := InitialCountdown;
    }

    /** `handleVerification`, from the button of the check-email view; the
        delayed navigation is not modelled */
    method Verify()
      requires !isVerified
      modifies this`isVerified
      ensures isVerified
    {
      isVerified := true;
    }
  }

  /** What a caller can conclude from the contracts alone */
  method CountdownScenario()
  {
    var page := new VerifyEmailPage();
    assert !ResendEnabled(page.isResending, page.countdown);
    page.Tick();
    assert page.countdown == 59 && ResendLabel(page.isResending, page.countdown) == "Resend in " + NatToString(59) + "s";
    assert page.CurrentScreen() == CheckEmail;
    page.Verify();
    assert page.CurrentScreen() == Verified;
  }

  /** Once the countdown is over, a resend restarts it after completing */
  method ResendScenario(page: VerifyEmailPage)
    requires page.Valid() && !page.isVerified && page.countdown == 0 && !page.isResending
    modifies page
  {
    assert ResendLabel(page.isResending, page.countdown) == ResendEmailLabel;
    page.ClickResend();
    assert ResendLabel(page.isResending, page.countdown) == SendingLabel;
    page.Tick();
    assert page.countdown == 0;
    page.CompleteResend();
    assert page.countdown == 60 && !ResendEnabled(page.isResending, page.countdown);
  }
}
