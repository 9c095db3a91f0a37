/** The driver's vehicle-condition story of components/VideoStoryModal.tsx: a progress bar
    driven by a 50 ms interval started when the modal opens. */
module VideoStory {

  /** The updater passed to setProgress: two points per tick, pinned at 100 once reached. */
  function Advance(prev: int): (r: int)
    ensures prev >= 100 ==> r == 100
    ensures prev < 100 ==> r == prev + 2
  {
    if prev >= 100 then 100 else prev + 2
  }

  /** The progress and whether the interval still runs. */
  datatype Story = Story(progress: int, running: bool)

  /** On mount: no progress, interval started. */
  const Opened: Story := Story(0, true)

  /** One 50 ms tick: the updater runs, and at 100 or more it also clears the interval. */
  function Tick(s: Story): (r: Story)
    ensures !s.running ==> r == s
    ensures s.running ==> r.progress == Advance(s.progress) && (r.running <==> s.progress < 100)
  {
    if !s.running then s
    else if s.progress >= 100 then Story(100, false)
    else Story(s.progress + 2, true)
  }

  /** The progress is even and within [0, 100], and the interval has stopped only at 100. */
  predicate Inv(s: Story) {
    0 <= s.progress <= 100 && s.progress % 2 == 0 && (!s.running ==> s.progress == 100)
  }

  lemma TickKeepsInv(s: Story)
    requires Inv(s)
    ensures Inv(Tick(s))
    ensures s.progress == 100 ==> Tick(s).progress == 100
  {
  }

  function Ticks(s: Story, n: nat): Story
    decreases n
  {
    if n == 0 then s else Ticks(Tick(s), n - 1)
  }

  /** `n` ticks after opening, the bar shows min(2n, 100): full after exactly 50 ticks (2.5 s),
      and the interval stops on the 51st. */
  lemma {:induction false} ProgressAfter(n: nat)
    ensures Ticks(Opened, n).progress == (if n <= 50 then 2 * n else 100)
    ensures Ticks(Opened, n).running <==> n <= 50
  {
    var k := 0;
    var s := Opened;
    while k < n
      invariant 0 <= k <= n
      invariant Ticks(Opened, n) == Ticks(s, n - k)
      invariant s.progress == (if k <= 50 then 2 * k else 100) && (s.running <==> k <= 50)
      decreases n - k
    {
      s := Tick(s);
      k := k + 1;
    }
  }

  /** The modal while it is open. */
  class VideoStoryModal {
    var progress: int
    var intervalRunning: bool

    ghost function State(): Story
      reads this
    {
      Story(progress, intervalRunning)
    }

    /** Mounting starts the interval with the bar empty. */
    constructor()
      ensures State() == Opened && Inv(State())
    {
      progress := 0;
      intervalRunning := true;
    }

    /** The interval callback. */
    method OnInterval()
      modifies this
      ensures State() == Tick(old(State()))
    {
      if intervalRunning {
        if progress >= 100 {
          intervalRunning := false;
        }
        progress := Advance(progress);
      }
    }
  }
}
