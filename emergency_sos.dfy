/** The SOS overlay of components/EmergencySOS.tsx: a five-second countdown that ends in
    "help is on the way" unless cancelled. The one-second interval is modelled as a `Tick`
    event: the interval is (re)started by the effect whenever the countdown changes, so while
    the countdown runs exactly one tick arrives per second. */
module EmergencySos {

  /** Where the countdown starts. */
  const Start: int := 5

  datatype Sos = Sos(isActive: bool, countdown: int, notified: bool)

  /** The effect on [isActive, countdown], run when either differs from the previous render:
      an active countdown at zero notifies the emergency contacts. (Its other branch only
      starts the interval, which `Tick` stands for.) */
  function Settle(prevActive: bool, prevCountdown: int, s: Sos): (r: Sos)
    ensures r.isActive == s.isActive && r.countdown == s.countdown
    ensures r.notified <==> s.notified || ((s.isActive != prevActive || s.countdown != prevCountdown) && s.isActive && s.countdown == 0)
  {
    if (s.isActive != prevActive || s.countdown != prevCountdown) && s.isActive && s.countdown == 0 then
      s.(notified := true)
    else s
  }

  const Idle: Sos := Sos(false, Start, false)

  /** The shield button, from any state: a fresh countdown. */
  function Trigger(s: Sos): (r: Sos)
    ensures r == Sos(true, Start, false)
  {
    Settle(s.isActive, s.countdown, Sos(true, Start, false))
  }

  /** CANCEL on the countdown screen and Close on the notified screen. */
  function Cancel(s: Sos): (r: Sos)
    ensures r == Idle
  {
    Settle(s.isActive, s.countdown, Sos(false, Start, false))
  }

  /** One second of the interval: it runs only while the countdown is active and above zero. */
  function Tick(s: Sos): (r: Sos)
    ensures !s.isActive || s.countdown <= 0 ==> r == s
    ensures s.isActive && s.countdown > 0 ==>
      r.isActive && r.countdown == s.countdown - 1 && (r.notified <==> s.notified || r.countdown == 0)
  {
    if s.isActive && s.countdown > 0 then Settle(s.isActive, s.countdown, s.(countdown := s.countdown - 1))
    else s
  }

  /** The countdown stays within [0, 5], and the contacts are notified exactly when an active
      countdown has reached zero. */
  predicate Inv(s: Sos) {
    && 0 <= s.countdown <= Start
    && (s.notified <==> s.isActive && s.countdown == 0)
  }

  lemma InvKept(s: Sos)
    requires Inv(s)
    ensures Inv(Trigger(s)) && Inv(Cancel(s)) && Inv(Tick(s))
  {
  }

  function Ticks(s: Sos, n: nat): Sos
    decreases n
  {
    if n == 0 then s else Ticks(Tick(s), n - 1)
  }

  /** After a trigger, `n` seconds leave max(0, 5 - n) on the clock, and the contacts are
      notified exactly from the fifth tick on. */
  lemma {:induction false} CountdownAfter(s: Sos, n: nat)
    ensures var r := Ticks(Trigger(s), n);
      r.isActive && r.countdown == (if n < 5 then Start - n else 0) && (r.notified <==> n >= 5)
  {
    var k := 0;
    var t := Trigger(s);
    while k < n
      invariant 0 <= k <= n
      invariant Ticks(Trigger(s), n) == Ticks(t, n - k)
      invariant t.isActive && t.countdown == (if k < 5 then Start - k else 0) && (t.notified <==> k >= 5)
      decreases n - k
    {
      t := Tick(t);
      k := k + 1;
    }
  }

  /** The overlay in place: the three pieces of state the component keeps. */
  class EmergencySos {
    var isActive: bool
    var countdown: int
    var notified: bool

    ghost function State(): Sos
      reads this
    {
      Sos(isActive, countdown, notified)
    }

    constructor()
      ensures State() == Idle && Inv(State())
    {
      isActive := false;
      countdown := Start;
      notified := false;
    }

    /** The effect step, given the state of the previous render. */
    method Commit(prevActive: bool, prevCountdown: int)
      modifies this
      ensures State() == Settle(prevActive, prevCountdown, old(State()))
    {
      if (isActive != prevActive || countdown != prevCountdown) && isActive && countdown == 0 {
        notified := true;
      }
    }

    method HandleTrigger()
      modifies this
      ensures State() == Trigger(old(State()))
    {
      var a, c := isActive, countdown;
      isActive := true;
      countdown := Start;
      notified := false;
      Commit(a, c);
    }

    method HandleCancel()
      modifies this
      ensures State() == Cancel(old(State()))
    {
      var a, c := isActive, countdown;
      isActive := false;
      countdown := Start;
      notified := false;
      Commit(a, c);
    }

    /** The interval callback, when an interval is running. */
    method OnInterval()
      modifies this
      ensures State() == Tick(old(State()))
    {
      if isActive && countdown > 0 {
        var a, c := isActive, countdown;
        countdown := countdown - 1;
        Commit(a, c);
      }
    }
  }
}
