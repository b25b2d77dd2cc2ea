/** OTPVerification.tsx: six one-digit cells, a resend countdown and the
    verify submission. */
module OtpVerification {
  import opened Wrappers
  import opened Text

  const CellCount: nat := 6
  const ResendSeconds: nat := 60

  /** The countdown: seconds left and whether the one-second interval that
      drives it is still installed. */
  datatype Countdown = Countdown(seconds: nat, running: bool)

  /** One interval callback: `prev <= 1 ? (clearInterval, 0) : prev - 1`.
      Without an interval nothing happens. */
  function Tick(c: Countdown): (r: Countdown)
    ensures r.seconds <= c.seconds
    ensures c.running && c.seconds > 1 ==> r == Countdown(c.seconds - 1, true)
    ensures c.running && c.seconds <= 1 ==> r == Countdown(0, false)
    ensures !c.running ==> r == c
  {
    if !c.running then c
    else if c.seconds <= 1 then Countdown(0, false)
    else Countdown(c.seconds - 1, true)
  }

  /** n interval callbacks in a row. */
  function Ticks(c: Countdown, n: nat): Countdown
    decreases n
  {
    if n == 0 then c else Ticks(Tick(c), n - 1)
  }

  /** A running countdown reaches 0 after as many ticks as it has seconds
      (one tick if it already shows 0), and it then stays at 0. */
  lemma {:induction false} CountdownReachesZero(c: Countdown, extra: nat)
    requires c.running
    ensures Ticks(c, if c.seconds == 0 then 1 + extra else c.seconds + extra) == Countdown(0, false)
    decreases c.seconds
  {
    var n := if c.seconds == 0 then 1 + extra else c.seconds + extra;
    if c.seconds <= 1 {
      StoppedStaysPut(Countdown(0, false), n - 1);
    } else {
      assert Ticks(c, n) == Ticks(Countdown(c.seconds - 1, true), n - 1);
      CountdownReachesZero(Countdown(c.seconds - 1, true), extra);
    }
  }

  /** Once the interval is cleared the countdown never moves again. */
  lemma {:induction false} StoppedStaysPut(c: Countdown, n: nat)
    requires !c.running
    ensures Ticks(c, n) == c
  {
    if n > 0 {
      StoppedStaysPut(c, n - 1);
    }
  }

  /** The seconds shown never go below 0 and never rise while ticking. */
  lemma {:induction false} TicksNeverRise(c: Countdown, n: nat)
    ensures Ticks(c, n).seconds <= c.seconds
    decreases n
  {
    if n > 0 {
      TicksNeverRise(Tick(c), n - 1);
    }
  }

  /** `handleResendOtp` as written: the timer is set back to 60 but the
      interval, cleared when the countdown reached 0, is not installed again. */
  function ResendAsWritten(c: Countdown): (r: Countdown)
    ensures r.seconds == ResendSeconds && r.running == c.running
  {
    Countdown(ResendSeconds, c.running)
  }

  /** `handleResendOtp` as evidently intended: the countdown starts again. */
  function Resend(c: Countdown): (r: Countdown)
    ensures r == Countdown(ResendSeconds, true)
  {
    Countdown(ResendSeconds, true)
  }

  /** As written, a resend is possible only once: the countdown reaches 0
      with its interval cleared, and after the resend the timer shows 60
      for ever, so `timer === 0` never holds again. */
  lemma ResendAsWrittenFreezesTimer(n: nat)
    ensures Ticks(ResendAsWritten(Ticks(Countdown(ResendSeconds, true), ResendSeconds)), n).seconds == ResendSeconds
  {
    CountdownReachesZero(Countdown(ResendSeconds, true), 0);
    StoppedStaysPut(Countdown(ResendSeconds, false), n);
  }

  /** With the countdown restarted, a resend is possible again after 60 ticks. */
  lemma ResendRestartsCountdown(c: Countdown)
    ensures Ticks(Resend(c), ResendSeconds) == Countdown(0, false)
  {
    CountdownReachesZero(Resend(c), 0);
  }

  /** The guard of `handleChange`: `!value || /^\d*$/.test(value)`. */
  predicate AcceptsCell(value: string)
  {
    value == "" || AllDigits(value)
  }

  /** The verify button's `disabled`: some cell empty, or a request running. */
  function VerifyDisabled(cells: seq<string>, loading: bool): (r: bool)
    ensures r <==> loading || exists i :: 0 <= i < |cells| && cells[i] == ""
  {
    loading || exists i :: 0 <= i < |cells| && cells[i] == ""
  }

  /** Each cell holds at most one character (the inputs' `maxLength={1}`). */
  predicate SingleCharCells(cells: seq<string>)
  {
    forall i :: 0 <= i < |cells| ==> |cells[i]| <= 1
  }

  lemma {:induction false} JoinLength(cells: seq<string>)
    requires SingleCharCells(cells)
    ensures |Join(cells)| <= |cells|
    ensures |Join(cells)| == |cells| <==> forall i :: 0 <= i < |cells| ==> cells[i] != ""
  {
    if cells != [] {
      assert SingleCharCells(cells[1..]) by {
        assert forall i :: 0 <= i < |cells| - 1 ==> cells[1..][i] == cells[i + 1];
      }
      JoinLength(cells[1..]);
      assert forall i :: 0 < i < |cells| ==> cells[i] == cells[1..][i - 1];
    }
  }

  /** With every cell holding exactly one character, the joined code is
      those characters in cell order. */
  lemma {:induction false} JoinOfSingles(cells: seq<string>)
    requires forall i :: 0 <= i < |cells| ==> |cells[i]| == 1
    ensures |Join(cells)| == |cells|
    ensures forall i :: 0 <= i < |cells| ==> Join(cells)[i] == cells[i][0]
  {
    if cells != [] {
      JoinOfSingles(cells[1..]);
      assert forall i :: 0 < i < |cells| ==> cells[i] == cells[1..][i - 1];
    }
  }

  /** The submit handler's check `otp.join('').length === 6` agrees with
      the button: with single-character cells, six characters are joined
      exactly when no cell is empty. */
  lemma SubmitCheckMatchesButton(cells: seq<string>)
    requires |cells| == CellCount && SingleCharCells(cells)
    ensures |Join(cells)| == CellCount <==> !VerifyDisabled(cells, false)
  {
    JoinLength(cells);
  }

  /** The page state. */
  class OtpForm {
    var cells: seq<string>
    var countdown: Countdown
    var email: string

    /** Six cells of at most one character each (`maxLength={1}`), each
        empty or a digit (the guard of `handleChange` and `handlePaste`). */
    ghost predicate Valid()
      reads this
    {
      && |cells| == CellCount
      && SingleCharCells(cells)
      && forall i :: 0 <= i < |cells| ==> AllDigits(cells[i])
    }

    /** Mount: six empty cells, a running 60-second countdown and the email
        passed by the login page ("" if none; the page then redirects). */
    constructor (emailFromState: string)
      ensures Valid() && cells == ["", "", "", "", "", ""]
      ensures countdown == Countdown(ResendSeconds, true) && email == emailFromState
    {
      cells := ["", "", "", "", "", ""];
      countdown := Countdown(ResendSeconds, true);
      email := emailFromState;
    }

    /** `handleChange(index, value)`; the input's `maxLength={1}` hands it
        at most one character. */
    method Change(index: nat, value: string)
      requires Valid() && index < CellCount && |value| <= 1
      modifies this
      ensures Valid()
      ensures cells == if AcceptsCell(value) then old(cells)[index := value] else old(cells)
      ensures countdown == old(countdown) && email == old(email)
    {
      if value != "" && !AllDigits(value) {
        return;
      }
      cells := cells[index := value];
    }

    /** `handlePaste(e)` */
    method Paste(pasted: string)
      requires Valid()
      modifies this
      ensures Valid()
      ensures cells == if SixDigits(pasted) then Chars(pasted) else old(cells)
      ensures SixDigits(pasted) ==> Join(cells) == pasted
      ensures countdown == old(countdown) && email == old(email)
    {
      if SixDigits(pasted) {
        cells := Chars(pasted);
        JoinChars(pasted);
      }
    }

    /** One call of the interval callback. */
    method TickOnce()
      modifies this
      ensures countdown == Tick(old(countdown))
      ensures cells == old(cells) && email == old(email)
    {
      countdown := Tick(countdown);
    }

    /** `handleResendOtp`: returns the email to send a new code to, if the
        countdown is over. The countdown restarts (see Resend). */
    method ResendOtp() returns (sendTo: Option<string>)
      modifies this
      ensures sendTo == if old(countdown).seconds == 0 && email != "" then Some(email) else None
      ensures countdown == if sendTo.Some? then Resend(old(countdown)) else old(countdown)
      ensures cells == old(cells) && email == old(email)
    {
      if countdown.seconds == 0 && email != "" {
        sendTo := Some(email);
        countdown := Resend(countdown);
      } else {
        sendTo := None;
      }
    }

    /** `handleSubmit`: the (email, code) pair handed to `verifyOtp`, if the
        joined code has six characters and an email is known. With one
        character per cell that is exactly when every cell is filled, which
        is when the verify button is enabled. */
    function Submit(): (r: Option<(string, string)>)
      requires Valid()
      reads this
      ensures r.Some? <==> (forall i :: 0 <= i < CellCount ==> cells[i] != "") && email != ""
      ensures r.Some? <==> !VerifyDisabled(cells, false) && email != ""
      ensures r.Some? ==> r.value.0 == email && |r.value.1| == CellCount
      ensures r.Some? ==> forall i :: 0 <= i < CellCount ==> r.value.1[i] == cells[i][0]
      ensures r.Some? ==> SixDigits(r.value.1)
    {
      JoinLength(cells);
      var code := Join(cells);
      if |code| == CellCount && email != "" then
        JoinOfSingles(cells);
        Some((email, code))
      else None
    }
  }
}
