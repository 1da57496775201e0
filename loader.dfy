// The splash loader: a phrase cycler driven by an interval, a progress
// driver driven by animation frames, the two one-shot timeouts armed when
// progress reaches 100, and the cleanups that cancel every pending handle.
//
// Browser scheduling is made explicit: every callback the browser would run
// is an `Event` carrying its timestamp `now` (milliseconds), and the calls
// the component makes in response are recorded as a sequence of `Call`s.
module Loader {
  import App

  /** The phrases shown one after another during loading. */
  const Phrases: seq<string> := [
    "Hello There \U{1F44B}",
    "Welcome To My World \U{1F30D}",
    "I Build Things For The Web \U{1F4BB}",
    "Hope You Enjoy The Visit \U{2728}"
  ]

  /** Index of the last phrase: phrases.length - 1. */
  const LastPhrase: nat := |Phrases| - 1

  const PhraseIntervalMs: real := 1800.0
  const DurationMs: real := 8000.0
  const ExitDelayMs: real := 400.0
  const CompleteDelayMs: real := 1200.0

  /** The scheduling handles the component owns. */
  datatype Handle = PhraseInterval | Frame | ExitTimer | CompleteTimer

  /** Everything the two effects keep between callbacks. */
  datatype LoaderState = LoaderState(
    phraseIndex: nat,
    progress: real,
    exiting: bool,
    pending: set<Handle>,   // handles armed and neither fired nor cancelled
    cleanedUp: bool,        // the component has unmounted
    mountedAt: real,        // when the interval was armed
    nextPhraseAt: real,     // when the interval fires next
    start: real,            // performance.now() at the start of the progress effect
    armedAt: real           // when the two timeouts were armed
  )

  /** Callbacks the browser (or React) may deliver to the component. */
  datatype Event =
    | IntervalFired(now: real)
    | FrameFired(now: real)
    | ExitTimerFired(now: real)
    | CompleteTimerFired(now: real)
    | ProgressRestarted(now: real)   // the progress effect re-runs because onComplete changed
    | Unmounted

  /** Observable calls the component makes. */
  datatype Call =
    | SetPhraseIndex(index: nat)
    | SetProgress(pct: real)
    | SetExiting
    | InvokeOnComplete
    | Request(handle: Handle)
    | Cancel(handle: Handle)

  datatype Outcome = Outcome(state: LoaderState, calls: seq<Call>)

  /** The phrase updater: the next index and whether the interval clears
      itself. It advances by one while below the last phrase; at the last
      phrase it keeps the index and clears the interval. */
  function PhraseUpdate(prev: nat): (r: (nat, bool))
    ensures prev <= r.0 <= prev + 1
    ensures prev <= LastPhrase ==> r.0 <= LastPhrase
    ensures r.0 == prev + 1 <==> prev < LastPhrase
    ensures r.1 <==> r.0 == prev
  {
    if prev < LastPhrase then (prev + 1, false) else (prev, true)
  }

  /** The progress percentage at frame time `now`: elapsed time over the
      8000 ms duration, capped at 100. */
  function Percent(now: real, start: real): (pct: real)
    ensures pct <= 100.0
    ensures start <= now ==> 0.0 <= pct
    ensures pct == 100.0 <==> now - start >= DurationMs
    ensures pct < 100.0 ==> pct * DurationMs == (now - start) * 100.0
  {
    var scaled := (now - start) / DurationMs * 100.0;
    if scaled < 100.0 then scaled else 100.0
  }

  /** Math.round: the nearest integer, halves rounded up. */
  function RoundHalfUp(x: real): (r: int)
    ensures r as real - 0.5 <= x < r as real + 0.5
  {
    (x + 0.5).Floor
  }

  /** The percentage shown under the progress bar. */
  function DisplayedPercent(s: LoaderState): (r: int)
    ensures 0.0 <= s.progress <= 100.0 ==> 0 <= r <= 100
    ensures s.progress == 100.0 ==> r == 100
  {
    RoundHalfUp(s.progress)
  }

  /** The overlay is on screen exactly while the exit has not started. */
  predicate OverlayRendered(s: LoaderState) {
    !s.exiting
  }

  predicate IsTimeout(h: Handle) {
    h == ExitTimer || h == CompleteTimer
  }

  function Delay(h: Handle): real
    requires IsTimeout(h)
  {
    if h == ExitTimer then ExitDelayMs else CompleteDelayMs
  }

  /** The browser runs a pending one-shot timeout once its delay has
      elapsed, and never before a timeout armed earlier with a shorter
      delay that is still pending. */
  predicate TimeoutDelivered(s: LoaderState, h: Handle, now: real)
    requires IsTimeout(h)
  {
    h in s.pending && s.armedAt + Delay(h) <= now &&
    forall other :: other in s.pending && IsTimeout(other) && other != h ==> Delay(h) < Delay(other)
  }

  /** State right after mounting: both effects have run once. */
  function Mount(now: real): LoaderState {
    LoaderState(0, 0.0, false, {PhraseInterval, Frame}, false, now, now + PhraseIntervalMs, now, now)
  }

  /** One callback and the calls the component makes in response. A
      callback whose handle is not pending (cancelled or already fired), or
      whose time has not come, is not delivered and changes nothing. */
  function Step(s: LoaderState, e: Event): (r: Outcome)
    ensures r.calls == [] ==> r.state == s
  {
    match e
    case IntervalFired(now) =>
      if PhraseInterval in s.pending && s.nextPhraseAt <= now then
        var (next, clear) := PhraseUpdate(s.phraseIndex);
        if clear then Outcome(s.(pending := s.pending - {PhraseInterval}),
                              [SetPhraseIndex(s.phraseIndex), Cancel(PhraseInterval)])
        else Outcome(s.(phraseIndex := next, nextPhraseAt := s.nextPhraseAt + PhraseIntervalMs),
                     [SetPhraseIndex(next)])
      else Outcome(s, [])
    case FrameFired(now) =>
      if Frame in s.pending then
        var pct := Percent(now, s.start);
        if pct < 100.0 then Outcome(s.(progress := pct), [SetProgress(pct), Request(Frame)])
        else Outcome(s.(progress := pct, pending := s.pending - {Frame} + {ExitTimer, CompleteTimer}, armedAt := now),
                     [SetProgress(pct), Request(ExitTimer), Request(CompleteTimer)])
      else Outcome(s, [])
    case ExitTimerFired(now) =>
      if TimeoutDelivered(s, ExitTimer, now) then
        Outcome(s.(exiting := true, pending := s.pending - {ExitTimer}), [SetExiting])
      else Outcome(s, [])
    case CompleteTimerFired(now) =>
      if TimeoutDelivered(s, CompleteTimer, now) then
        Outcome(s.(pending := s.pending - {CompleteTimer}), [InvokeOnComplete])
      else Outcome(s, [])
    case ProgressRestarted(now) =>
      if s.cleanedUp then Outcome(s, [])
      else Outcome(s.(pending := s.pending - {ExitTimer, CompleteTimer} + {Frame}, start := now),
                   [Cancel(Frame), Cancel(ExitTimer), Cancel(CompleteTimer), Request(Frame)])
    case Unmounted =>
      if s.cleanedUp then Outcome(s, [])
      else Outcome(s.(pending := {}, cleanedUp := true),
                   [Cancel(PhraseInterval), Cancel(Frame), Cancel(ExitTimer), Cancel(CompleteTimer)])
  }

  /** A sequence of callbacks, delivered in order. */
  function Run(s: LoaderState, es: seq<Event>): Outcome
    decreases |es|
  {
    if es == [] then Outcome(s, [])
    else
      var first := Step(s, es[0]);
      var rest := Run(first.state, es[1..]);
      Outcome(rest.state, first.calls + rest.calls)
  }

  /** What holds of every reachable state. */
  ghost predicate Inv(s: LoaderState) {
    && s.phraseIndex <= LastPhrase
    && s.progress <= 100.0
    && (PhraseInterval in s.pending ==>
          s.nextPhraseAt == s.mountedAt + PhraseIntervalMs * (s.phraseIndex + 1) as real)
    && (PhraseInterval !in s.pending ==> s.phraseIndex == LastPhrase || s.cleanedUp)
    && (ExitTimer in s.pending || CompleteTimer in s.pending ==>
          Frame !in s.pending && s.armedAt >= s.start + DurationMs)
    && (CompleteTimer in s.pending ==> ExitTimer in s.pending || s.exiting)
    && (s.cleanedUp ==> s.pending == {})
  }

  /** The progress effect has not been restarted in these callbacks. */
  predicate RestartFree(es: seq<Event>) {
    forall i :: 0 <= i < |es| ==> !es[i].ProgressRestarted?
  }

  /** The component has unmounted and owns no handle. */
  predicate Disposed(s: LoaderState) {
    s.cleanedUp && s.pending == {}
  }

  function Min(a: nat, b: nat): nat {
    if a <= b then a else b
  }

  /** The interval's first k firings, each at its scheduled time. */
  function IntervalTicks(mountedAt: real, k: nat): seq<Event> {
    if k == 0 then []
    else IntervalTicks(mountedAt, k - 1) + [IntervalFired(mountedAt + PhraseIntervalMs * k as real)]
  }

  // ---------------------------------------------------------------------
  // The invariant

  lemma MountEstablishesInv(now: real)
    ensures Inv(Mount(now))
    ensures Mount(now).phraseIndex == 0 && Mount(now).progress == 0.0 && OverlayRendered(Mount(now))
  {
  }

  lemma StepPreservesInv(s: LoaderState, e: Event)
    requires Inv(s)
    ensures Inv(Step(s, e).state)
  {
  }

  lemma {:induction false} RunPreservesInv(s: LoaderState, es: seq<Event>)
    requires Inv(s)
    ensures Inv(Run(s, es).state)
    decreases |es|
  {
    if es != [] {
      StepPreservesInv(s, es[0]);
      RunPreservesInv(Step(s, es[0]).state, es[1..]);
    }
  }

  lemma {:induction false} RunAppend(s: LoaderState, a: seq<Event>, b: seq<Event>)
    ensures Run(s, a + b) ==
            Outcome(Run(Run(s, a).state, b).state, Run(s, a).calls + Run(Run(s, a).state, b).calls)
    decreases |a|
  {
    if a == [] {
      assert a + b == b;
    } else {
      assert (a + b)[0] == a[0];
      assert (a + b)[1..] == a[1..] + b;
      RunAppend(Step(s, a[0]).state, a[1..], b);
    }
  }

  // ---------------------------------------------------------------------
  // Phrase cycler

  /** The phrase index never decreases and never passes the last phrase. */
  lemma PhraseIndexMonotone(s: LoaderState, e: Event)
    requires Inv(s)
    ensures s.phraseIndex <= Step(s, e).state.phraseIndex <= LastPhrase
  {
    StepPreservesInv(s, e);
  }

  /** Only an interval firing calls setPhraseIndex: it advances the index by
      one, or at the last phrase keeps it (the updater that clears the
      interval returns `prev`). Index i is set no earlier than i intervals
      after mounting. */
  lemma PhraseNotEarly(s: LoaderState, e: Event, i: nat)
    requires Inv(s)
    requires SetPhraseIndex(i) in Step(s, e).calls
    ensures e.IntervalFired? && i == Step(s, e).state.phraseIndex
    ensures i == s.phraseIndex + 1 || i == s.phraseIndex == LastPhrase
    ensures e.now >= s.mountedAt + PhraseIntervalMs * i as real
  {
  }

  /** After the interval's first k firings the index is min(k, 3); the
      interval is still armed until the firing after the last phrase. */
  lemma {:induction false} PhraseAfterTicks(now: real, k: nat)
    ensures Run(Mount(now), IntervalTicks(now, k)).state.phraseIndex == Min(k, LastPhrase)
    ensures PhraseInterval in Run(Mount(now), IntervalTicks(now, k)).state.pending <==> k <= LastPhrase
    ensures Run(Mount(now), IntervalTicks(now, k)).state.nextPhraseAt ==
            now + PhraseIntervalMs * (Min(k, LastPhrase) + 1) as real
  {
    if k > 0 {
      PhraseAfterTicks(now, k - 1);
      var prefix := IntervalTicks(now, k - 1);
      var tick := IntervalFired(now + PhraseIntervalMs * k as real);
      RunAppend(Mount(now), prefix, [tick]);
      var s := Run(Mount(now), prefix).state;
      assert Run(s, [tick]).state == Step(s, tick).state;
    }
  }

  // ---------------------------------------------------------------------
  // Progress driver

  /** Later frames never show less progress. */
  lemma PercentMonotone(start: real, t1: real, t2: real)
    requires t1 <= t2
    ensures Percent(t1, start) <= Percent(t2, start)
  {
  }

  /** Within one run, a frame later than the one that set the current
      progress leaves progress no smaller. */
  lemma ProgressNonDecreasing(s: LoaderState, t1: real, t2: real)
    requires s.progress == Percent(t1, s.start) && t1 <= t2
    ensures Step(s, FrameFired(t2)).state.progress >= s.progress
  {
    PercentMonotone(s.start, t1, t2);
  }

  /** A frame re-arms itself exactly while progress is below 100; the frame
      that reaches 100 arms both timeouts, and only a frame arms them. */
  lemma ArmingIsJoint(s: LoaderState, e: Event)
    ensures Request(ExitTimer) in Step(s, e).calls <==> Request(CompleteTimer) in Step(s, e).calls
    ensures Request(ExitTimer) in Step(s, e).calls <==>
            e.FrameFired? && Frame in s.pending && e.now - s.start >= DurationMs
    ensures Request(Frame) in Step(s, e).calls && e.FrameFired? <==>
            e.FrameFired? && Frame in s.pending && e.now - s.start < DurationMs
    ensures e.FrameFired? && Frame in s.pending ==> Step(s, e).state.progress == Percent(e.now, s.start)
  {
  }

  // ---------------------------------------------------------------------
  // Exit and completion

  /** `exiting` never returns to false, so the overlay never comes back. */
  lemma ExitingNeverReverts(s: LoaderState, e: Event)
    requires s.exiting
    ensures Step(s, e).state.exiting && !OverlayRendered(Step(s, e).state)
  {
  }

  /** `exiting` is set 400 ms after the frame that reached 100. */
  lemma ExitNotEarly(s: LoaderState, e: Event)
    requires Inv(s)
    requires SetExiting in Step(s, e).calls
    ensures e.ExitTimerFired? && e.now >= s.start + DurationMs + ExitDelayMs
  {
  }

  /** The completion callback runs only once the overlay is exiting, and
      not before 1200 ms after the frame that reached 100. */
  lemma CompletionAfterExit(s: LoaderState, e: Event)
    requires Inv(s)
    requires InvokeOnComplete in Step(s, e).calls
    ensures s.exiting && !OverlayRendered(Step(s, e).state)
    ensures e.CompleteTimerFired? && e.now >= s.start + DurationMs + CompleteDelayMs
  {
  }

  /** How many more completions the current run can still produce. */
  function CompletionBudget(s: LoaderState): nat {
    if Frame in s.pending || CompleteTimer in s.pending then 1 else 0
  }

  /** How many more exits the current run can still produce. */
  function ExitBudget(s: LoaderState): nat {
    if Frame in s.pending || ExitTimer in s.pending then 1 else 0
  }

  /** How many more times the current run can arm the timeouts. */
  function ArmBudget(s: LoaderState): nat {
    if Frame in s.pending then 1 else 0
  }

  lemma StepWithinBudget(s: LoaderState, e: Event)
    requires Inv(s) && !e.ProgressRestarted?
    ensures multiset(Step(s, e).calls)[InvokeOnComplete] + CompletionBudget(Step(s, e).state) <= CompletionBudget(s)
    ensures multiset(Step(s, e).calls)[SetExiting] + ExitBudget(Step(s, e).state) <= ExitBudget(s)
    ensures multiset(Step(s, e).calls)[Request(CompleteTimer)] + ArmBudget(Step(s, e).state) <= ArmBudget(s)
    ensures multiset(Step(s, e).calls)[Request(ExitTimer)] + ArmBudget(Step(s, e).state) <= ArmBudget(s)
  {
  }

  lemma {:induction false} RunWithinBudget(s: LoaderState, es: seq<Event>)
    requires Inv(s) && RestartFree(es)
    ensures multiset(Run(s, es).calls)[InvokeOnComplete] + CompletionBudget(Run(s, es).state) <= CompletionBudget(s)
    ensures multiset(Run(s, es).calls)[SetExiting] + ExitBudget(Run(s, es).state) <= ExitBudget(s)
    ensures multiset(Run(s, es).calls)[Request(CompleteTimer)] + ArmBudget(Run(s, es).state) <= ArmBudget(s)
    ensures multiset(Run(s, es).calls)[Request(ExitTimer)] + ArmBudget(Run(s, es).state) <= ArmBudget(s)
    decreases |es|
  {
    if es != [] {
      assert !es[0].ProgressRestarted?;
      StepWithinBudget(s, es[0]);
      StepPreservesInv(s, es[0]);
      assert RestartFree(es[1..]) by {
        forall i | 0 <= i < |es[1..]| ensures !es[1..][i].ProgressRestarted? {
          assert es[1..][i] == es[i + 1];
        }
      }
      RunWithinBudget(Step(s, es[0]).state, es[1..]);
    }
  }

  /** Within one run of the progress effect the timeouts are armed at most
      once, `exiting` is set at most once and onComplete runs at most once. */
  lemma OncePerRun(s: LoaderState, es: seq<Event>)
    requires Inv(s) && RestartFree(es)
    ensures multiset(Run(s, es).calls)[InvokeOnComplete] <= 1
    ensures multiset(Run(s, es).calls)[SetExiting] <= 1
    ensures multiset(Run(s, es).calls)[Request(ExitTimer)] <= 1
    ensures multiset(Run(s, es).calls)[Request(CompleteTimer)] <= 1
  {
    RunWithinBudget(s, es);
  }

  // ---------------------------------------------------------------------
  // Cleanup

  /** Unmounting cancels every handle; unmounting again does nothing. */
  lemma UnmountCancelsAll(s: LoaderState)
    requires Inv(s)
    ensures Disposed(Step(s, Unmounted).state)
    ensures Step(Step(s, Unmounted).state, Unmounted) == Outcome(Step(s, Unmounted).state, [])
    ensures !s.cleanedUp ==> forall h :: Cancel(h) in Step(s, Unmounted).calls
  {
    if !s.cleanedUp {
      forall h ensures Cancel(h) in Step(s, Unmounted).calls {
        match h
        case PhraseInterval => assert Step(s, Unmounted).calls[0] == Cancel(h);
        case Frame => assert Step(s, Unmounted).calls[1] == Cancel(h);
        case ExitTimer => assert Step(s, Unmounted).calls[2] == Cancel(h);
        case CompleteTimer => assert Step(s, Unmounted).calls[3] == Cancel(h);
      }
    }
  }

  lemma DisposedIsInert(s: LoaderState, e: Event)
    requires Disposed(s)
    ensures Step(s, e) == Outcome(s, [])
  {
  }

  /** After unmounting, no callback of any kind changes state or calls
      anything: no setProgress, setPhraseIndex, setExiting or onComplete. */
  lemma {:induction false} SilentAfterUnmount(s: LoaderState, es: seq<Event>)
    requires Inv(s)
    ensures Run(Step(s, Unmounted).state, es) == Outcome(Step(s, Unmounted).state, [])
    decreases |es|
  {
    UnmountCancelsAll(s);
    var d := Step(s, Unmounted).state;
    if es != [] {
      DisposedIsInert(d, es[0]);
      SilentAfterUnmount(d, es[1..]);
      assert Step(d, Unmounted).state == d;
    }
  }

  lemma {:induction false} RestartFreeKeepsStart(s: LoaderState, es: seq<Event>)
    requires RestartFree(es)
    ensures Run(s, es).state.start == s.start
    decreases |es|
  {
    if es != [] {
      assert !es[0].ProgressRestarted?;
      assert RestartFree(es[1..]) by {
        forall i | 0 <= i < |es[1..]| ensures !es[1..][i].ProgressRestarted? {
          assert es[1..][i] == es[i + 1];
        }
      }
      RestartFreeKeepsStart(Step(s, es[0]).state, es[1..]);
    }
  }

  /** Within one run, every completion comes at least 9200 ms after the
      run's start: 8000 ms to reach 100 and then the 1200 ms timeout. */
  lemma CompletionTimeInRun(s: LoaderState, es: seq<Event>, i: nat)
    requires Inv(s) && RestartFree(es) && i < |es|
    requires InvokeOnComplete in Step(Run(s, es[..i]).state, es[i]).calls
    ensures es[i].CompleteTimerFired? && es[i].now >= s.start + DurationMs + CompleteDelayMs
  {
    assert RestartFree(es[..i]) by {
      forall j | 0 <= j < |es[..i]| ensures !es[..i][j].ProgressRestarted? {
        assert es[..i][j] == es[j];
      }
    }
    RunPreservesInv(s, es[..i]);
    RestartFreeKeepsStart(s, es[..i]);
    CompletionAfterExit(Run(s, es[..i]).state, es[i]);
  }

  /** Restarting the progress effect at time t cancels the old run's frame
      and timeouts: any later completion belongs to the new run and comes
      no earlier than t + 9200 ms. */
  lemma RestartForgetsOldRun(s: LoaderState, t: real, es: seq<Event>, i: nat)
    requires Inv(s) && !s.cleanedUp && RestartFree(es) && i < |es|
    requires InvokeOnComplete in Step(Run(Step(s, ProgressRestarted(t)).state, es[..i]).state, es[i]).calls
    ensures es[i].now >= t + DurationMs + CompleteDelayMs
  {
    StepPreservesInv(s, ProgressRestarted(t));
    CompletionTimeInRun(Step(s, ProgressRestarted(t)).state, es, i);
  }

  /** A re-run starts progress over: its first frame computes the
      percentage from the new start, so progress drops from 100 back to
      about 0. Progress is monotone within a run, not over the lifetime. */
  lemma RestartResetsProgress(s: LoaderState, t: real, now: real)
    requires !s.cleanedUp && t <= now
    ensures Step(Step(s, ProgressRestarted(t)).state, FrameFired(now)).state.progress == Percent(now, t)
    ensures now == t ==> Step(Step(s, ProgressRestarted(t)).state, FrameFired(now)).state.progress == 0.0
  {
  }

  // ---------------------------------------------------------------------
  // The component as an object whose callbacks update its fields

  class SplashLoader {
    const host: App.App
    var phraseIndex: nat
    var progress: real
    var exiting: bool
    var pending: set<Handle>
    var cleanedUp: bool
    var mountedAt: real
    var nextPhraseAt: real
    var start: real
    var armedAt: real

    function State(): LoaderState
      reads this
    {
      LoaderState(phraseIndex, progress, exiting, pending, cleanedUp, mountedAt, nextPhraseAt, start, armedAt)
    }

    ghost predicate Valid()
      reads this
    {
      Inv(State())
    }

    /** Mounting: both effects start; the interval and the first frame are
        requested. */
    constructor (host: App.App, now: real)
      ensures this.host == host
      ensures Valid() && State() == Mount(now)
    {
      this.host := host;
      phraseIndex, progress, exiting := 0, 0.0, false;
      pending, cleanedUp := {PhraseInterval, Frame}, false;
      mountedAt, nextPhraseAt := now, now + PhraseIntervalMs;
      start, armedAt := now, now;
      MountEstablishesInv(now);
    }

    method OnInterval(now: real)
      requires Valid()
      modifies this
      ensures Valid()
      ensures State() == Step(old(State()), IntervalFired(now)).state
    {
      if PhraseInterval in pending && nextPhraseAt <= now {
        var (next, clear) := PhraseUpdate(phraseIndex);
        if clear {
          pending := pending - {PhraseInterval};
        } else {
          phraseIndex := next;
          nextPhraseAt := nextPhraseAt + PhraseIntervalMs;
        }
      }
      StepPreservesInv(old(State()), IntervalFired(now));
    }

    method OnAnimationFrame(now: real)
      requires Valid()
      modifies this
      ensures Valid()
      ensures State() == Step(old(State()), FrameFired(now)).state
    {
      if Frame in pending {
        var pct := Percent(now, start);
        progress := pct;
        if 100.0 <= pct {
          pending := pending - {Frame} + {ExitTimer, CompleteTimer};
          armedAt := now;
        }
      }
      StepPreservesInv(old(State()), FrameFired(now));
    }

    method OnExitTimeout(now: real)
      requires Valid()
      modifies this
      ensures Valid()
      ensures State() == Step(old(State()), ExitTimerFired(now)).state
    {
      if TimeoutDelivered(State(), ExitTimer, now) {
        exiting := true;
        pending := pending - {ExitTimer};
      }
      StepPreservesInv(old(State()), ExitTimerFired(now));
    }

    /** The completion timeout calls the host's callback, which can only
        clear `loading`, and only once the overlay is exiting. */
    method OnCompleteTimeout(now: real)
      requires Valid()
      modifies this, host
      ensures Valid()
      ensures State() == Step(old(State()), CompleteTimerFired(now)).state
      ensures host.loading == (old(host.loading) && InvokeOnComplete !in Step(old(State()), CompleteTimerFired(now)).calls)
      ensures old(host.loading) && !host.loading ==> exiting && now >= start + DurationMs + CompleteDelayMs
    {
      ghost var before := State();
      if TimeoutDelivered(State(), CompleteTimer, now) {
        pending := pending - {CompleteTimer};
        host.OnComplete();
        CompletionAfterExit(before, CompleteTimerFired(now));
      }
      StepPreservesInv(before, CompleteTimerFired(now));
    }

    method RestartProgress(now: real)
      requires Valid()
      modifies this
      ensures Valid()
      ensures State() == Step(old(State()), ProgressRestarted(now)).state
    {
      if !cleanedUp {
        pending := pending - {ExitTimer, CompleteTimer} + {Frame};
        start := now;
      }
      StepPreservesInv(old(State()), ProgressRestarted(now));
    }

    method Unmount()
      requires Valid()
      modifies this
      ensures Valid() && Disposed(State())
      ensures State() == Step(old(State()), Unmounted).state
    {
      if !cleanedUp {
        pending := {};
        cleanedUp := true;
      }
      UnmountCancelsAll(old(State()));
    }

    /** The phrase on screen. */
    function CurrentPhrase(): (p: string)
      reads this
      requires Valid()
      ensures p in Phrases
    {
      Phrases[phraseIndex]
    }
  }
}
