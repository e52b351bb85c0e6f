/**
 * The unplug-alarm state machine of PowerStateViewModel, as values.
 *
 * A MonitorState holds the view model's flags, whether the alarm sound is
 * playing, and how many deferred alarm checks (the closures scheduled with
 * asyncAfter) are queued and have not run yet. Each event the view model
 * reacts to is one function from state to state; Next dispatches on the event
 * and Run folds a trace of events, one at a time.
 */
module Transitions {

  datatype MonitorState = MonitorState(
    isPowerConnected: bool,
    isPowerAdapterConnected: bool,
    showUnplugConfirmation: bool,
    unpluggedIntentionally: bool,
    playing: bool,
    pendingChecks: nat)

  /** The state right after the view model is created: its field initialisers, sound stopped, nothing queued. */
  const Initial := MonitorState(true, true, false, false, false, 0)

  /**
   * The events: a power poll with its two readings, a queued alarm check
   * running, the user confirming an intentional unplug, hiding the prompt,
   * and starting or stopping the sound. Hide also stands for the user
   * dismissing the alert, whose binding writes false to the prompt flag.
   */
  datatype Event =
    | Poll(cable: bool, adapter: bool)
    | CheckFires
    | Confirm
    | Hide
    | Play
    | Stop

  /**
   * The invariant the view model keeps: the prompt is only up while the last
   * poll saw no adapter, the unplug has not been confirmed, and a deferred
   * check is queued that will act on the prompt.
   */
  predicate Inv(s: MonitorState)
  {
    s.showUnplugConfirmation ==>
      !s.isPowerAdapterConnected && !s.unpluggedIntentionally && s.pendingChecks > 0
  }

  /** updatePowerState: store both readings, then prompt and queue a check, or hide the prompt and stop the sound. */
  function AfterUpdate(s: MonitorState, cable: bool, adapter: bool): (r: MonitorState)
    ensures r.isPowerConnected == cable && r.isPowerAdapterConnected == adapter
    ensures r.unpluggedIntentionally == s.unpluggedIntentionally
    ensures !adapter && !s.unpluggedIntentionally ==>
              r.showUnplugConfirmation && r.playing == s.playing
              && r.pendingChecks == s.pendingChecks + 1
    ensures adapter || s.unpluggedIntentionally ==>
              !r.showUnplugConfirmation && !r.playing && r.pendingChecks == s.pendingChecks
    ensures Inv(r)
  {
    var read := s.(isPowerConnected := cable, isPowerAdapterConnected := adapter);
    if !adapter && !s.unpluggedIntentionally then
      read.(showUnplugConfirmation := true, pendingChecks := s.pendingChecks + 1)
    else
      AfterStop(AfterHide(read))
  }

  /** The deferred check: if the prompt is still up and the unplug unconfirmed, start the sound and hide the prompt. */
  function AfterAlarmCheck(s: MonitorState): (r: MonitorState)
    requires s.pendingChecks > 0
    ensures r.pendingChecks == s.pendingChecks - 1
    ensures s.showUnplugConfirmation && !s.unpluggedIntentionally ==>
              r.playing && !r.showUnplugConfirmation
    ensures !(s.showUnplugConfirmation && !s.unpluggedIntentionally) ==>
              r == s.(pendingChecks := s.pendingChecks - 1)
    ensures r.(playing := s.playing, showUnplugConfirmation := s.showUnplugConfirmation)
            == s.(pendingChecks := s.pendingChecks - 1)
    ensures Inv(s) ==> Inv(r)
  {
    var consumed := s.(pendingChecks := s.pendingChecks - 1);
    if s.showUnplugConfirmation && !s.unpluggedIntentionally then
      AfterHide(AfterPlay(consumed))
    else
      consumed
  }

  /** confirmUnpluggedIntentionally: hide the prompt and remember the confirmation; a playing sound keeps playing. */
  function AfterConfirm(s: MonitorState): (r: MonitorState)
    ensures r.unpluggedIntentionally && !r.showUnplugConfirmation
    ensures r.playing == s.playing && r.pendingChecks == s.pendingChecks
    ensures r.(unpluggedIntentionally := s.unpluggedIntentionally,
               showUnplugConfirmation := s.showUnplugConfirmation) == s
    ensures Inv(r)
  {
    AfterHide(s).(unpluggedIntentionally := true)
  }

  /** hideUnplugConfirmation: the prompt goes down and nothing else changes. */
  function AfterHide(s: MonitorState): (r: MonitorState)
    ensures !r.showUnplugConfirmation
    ensures r.(showUnplugConfirmation := s.showUnplugConfirmation) == s
    ensures Inv(r)
  {
    s.(showUnplugConfirmation := false)
  }

  /** playSound: afterwards the sound plays; playing when it already plays changes nothing. */
  function AfterPlay(s: MonitorState): (r: MonitorState)
    ensures r.playing
    ensures s.playing ==> r == s
    ensures r.(playing := s.playing) == s
    ensures Inv(s) ==> Inv(r)
  {
    if !s.playing then s.(playing := true) else s
  }

  /** stopSound: afterwards the sound is stopped; stopping when already stopped changes nothing. */
  function AfterStop(s: MonitorState): (r: MonitorState)
    ensures !r.playing
    ensures !s.playing ==> r == s
    ensures r.(playing := s.playing) == s
    ensures Inv(s) ==> Inv(r)
  {
    if s.playing then s.(playing := false) else s
  }

  /** An event can happen in a state: a deferred check can only run while one is queued. */
  predicate Enabled(s: MonitorState, e: Event)
  {
    e.CheckFires? ==> s.pendingChecks > 0
  }

  function Next(s: MonitorState, e: Event): (r: MonitorState)
    requires Enabled(s, e)
    ensures Inv(s) ==> Inv(r)
    ensures r.unpluggedIntentionally <==> s.unpluggedIntentionally || e.Confirm?
    ensures r.playing && !s.playing ==>
              e.Play? || (e.CheckFires? && s.showUnplugConfirmation && !s.unpluggedIntentionally)
    ensures Inv(s) && r.playing && !s.playing && !e.Play? ==>
              !s.isPowerAdapterConnected && !s.unpluggedIntentionally
    ensures r.showUnplugConfirmation && !s.showUnplugConfirmation ==>
              e.Poll? && !e.adapter && !s.unpluggedIntentionally
  {
    match e
    case Poll(cable, adapter) => AfterUpdate(s, cable, adapter)
    case CheckFires => AfterAlarmCheck(s)
    case Confirm => AfterConfirm(s)
    case Hide => AfterHide(s)
    case Play => AfterPlay(s)
    case Stop => AfterStop(s)
  }

  /** Every event of the trace is enabled in the state the earlier ones lead to. */
  predicate Feasible(s: MonitorState, es: seq<Event>)
    decreases |es|
  {
    es == [] || (Enabled(s, es[0]) && Feasible(Next(s, es[0]), es[1..]))
  }

  /** The state after the events of a feasible trace, applied in order. */
  function Run(s: MonitorState, es: seq<Event>): MonitorState
    requires Feasible(s, es)
    decreases |es|
  {
    if es == [] then s else Run(Next(s, es[0]), es[1..])
  }

  /** The invariant holds after every feasible trace that starts where it holds. */
  lemma {:induction false} RunKeepsInv(s: MonitorState, es: seq<Event>)
    requires Inv(s) && Feasible(s, es)
    ensures Inv(Run(s, es))
    decreases |es|
  {
    if es != [] {
      RunKeepsInv(Next(s, es[0]), es[1..]);
    }
  }

  /** The initial state satisfies the invariant, so every reachable state does. */
  lemma {:induction false} ReachableStatesKeepInv(es: seq<Event>)
    requires Feasible(Initial, es)
    ensures Inv(Run(Initial, es))
  {
    RunKeepsInv(Initial, es);
  }

  /**
   * Confirmation is permanent: once the unplug is confirmed, no later event
   * clears the confirmation or raises the prompt, and the sound can only be
   * playing afterwards if it already was or a Play event started it.
   */
  lemma {:induction false} ConfirmationIsPermanent(s: MonitorState, es: seq<Event>)
    requires Inv(s) && s.unpluggedIntentionally && Feasible(s, es)
    ensures Run(s, es).unpluggedIntentionally
    ensures !Run(s, es).showUnplugConfirmation
    ensures Run(s, es).playing ==> s.playing || Play in es
    decreases |es|
  {
    if es != [] {
      var t := Next(s, es[0]);
      ConfirmationIsPermanent(t, es[1..]);
      assert t.playing ==> s.playing || es[0] == Play;
      assert Play in es[1..] ==> Play in es;
    }
  }

  /** n copies of one event. */
  function Repeat(e: Event, n: nat): (es: seq<Event>)
    ensures |es| == n && forall i :: 0 <= i < n ==> es[i] == e
  {
    if n == 0 then [] else [e] + Repeat(e, n - 1)
  }

  /**
   * Nothing deduplicates the deferred checks: each of n polls that see no
   * adapter, before any confirmation, queues one more check, and the prompt
   * stays up.
   */
  lemma {:induction false} DisconnectedPollsQueueOneCheckEach(s: MonitorState, cable: bool, n: nat)
    requires !s.unpluggedIntentionally
    ensures Feasible(s, Repeat(Poll(cable, false), n))
    ensures Run(s, Repeat(Poll(cable, false), n)).pendingChecks == s.pendingChecks + n
    ensures n > 0 ==> Run(s, Repeat(Poll(cable, false), n)).showUnplugConfirmation
    decreases n
  {
    if n > 0 {
      var es := Repeat(Poll(cable, false), n);
      var t := Next(s, Poll(cable, false));
      assert es[1..] == Repeat(Poll(cable, false), n - 1);
      DisconnectedPollsQueueOneCheckEach(t, cable, n - 1);
    }
  }

  /** Two states that differ at most in the stored cable reading. */
  predicate SameExceptCable(a: MonitorState, b: MonitorState)
  {
    a.(isPowerConnected := b.isPowerConnected) == b
  }

  /** Two events that differ at most in the cable reading of a poll. */
  predicate SameEventExceptCable(d: Event, e: Event)
  {
    if d.Poll? then e.Poll? && d.adapter == e.adapter else d == e
  }

  /**
   * The cable (charging) reading is stored but never decides anything: two
   * traces that differ only in the cable readings of their polls lead to
   * states that differ only in the stored cable reading.
   */
  lemma {:induction false} CableReadingNeverDecides(
    s1: MonitorState, s2: MonitorState, es1: seq<Event>, es2: seq<Event>)
    requires SameExceptCable(s1, s2) && Feasible(s1, es1)
    requires |es1| == |es2|
    requires forall i :: 0 <= i < |es1| ==> SameEventExceptCable(es1[i], es2[i])
    ensures Feasible(s2, es2)
    ensures SameExceptCable(Run(s1, es1), Run(s2, es2))
    decreases |es1|
  {
    if es1 != [] {
      assert SameEventExceptCable(es1[0], es2[0]);
      var t1, t2 := Next(s1, es1[0]), Next(s2, es2[0]);
      assert SameExceptCable(t1, t2);
      CableReadingNeverDecides(t1, t2, es1[1..], es2[1..]);
    }
  }

  /**
   * An unplug that goes unconfirmed escalates: after a connected poll and a
   * disconnected one, the queued check starts the sound and hides the prompt;
   * a later connected poll stops the sound.
   */
  lemma UnconfirmedUnplugEscalates()
    ensures Feasible(Initial, [Poll(true, true), Poll(false, false), CheckFires])
    ensures var s := Run(Initial, [Poll(true, true), Poll(false, false), CheckFires]);
            s.playing && !s.showUnplugConfirmation && s.pendingChecks == 0
    ensures Feasible(Initial, [Poll(true, true), Poll(false, false), CheckFires, Poll(true, true)])
    ensures !Run(Initial, [Poll(true, true), Poll(false, false), CheckFires, Poll(true, true)]).playing
  {
  }

  /**
   * A confirmed unplug never escalates, and it is not re-armed by the adapter
   * coming back: a later unplug raises no prompt and queues no check.
   */
  lemma ConfirmedUnplugIsNotRearmed()
    ensures var es := [Poll(true, true), Poll(false, false), Confirm, CheckFires,
                       Poll(true, true), Poll(false, false)];
            Feasible(Initial, es)
            && !Run(Initial, es).playing
            && !Run(Initial, es).showUnplugConfirmation
            && Run(Initial, es).pendingChecks == 0
  {
  }
}
