/** The unpaired display's setup screen (src/screens/Display/DisplaySetupScreen.tsx):
    on mount it requests a pairing code once, then polls the claim-check
    endpoint every 5000 ms with that code until a device token arrives, which
    it hands to the application state. Each code-generation outcome, poll
    tick, button press and unmount is one event. */
module Pairing {
  import opened Types
  import opened JsText
  import AppState
  import Navigation

  const PollPeriodMs: nat := 5000
  const GeneratingStatus := "Generating code..."
  const WaitingStatus := "Waiting for pairing..."
  const GenerationFailedStatus := "Error generating code. Please restart."

  /** The polling interval: never started, live (polling with the captured
      code every `periodMs` milliseconds), or cleared. */
  datatype PollTimer = NotStarted | Polling(pairingCode: string, periodMs: nat) | Cleared(pairingCode: string)

  /** `code` and `status` are the visible state; `setupSettled` records that
      the single code request of the mount effect has completed; `mounted`
      is false after teardown. */
  datatype SetupState = SetupState(
    code: Option<string>,
    status: string,
    timer: PollTimer,
    setupSettled: bool,
    mounted: bool)

  const Mounted := SetupState(None, GeneratingStatus, NotStarted, false, true)

  /** Only the mount effect starts the interval, after its request settles. */
  predicate TimerStartsAfterSetup(s: SetupState) {
    !s.setupSettled ==> s.timer == NotStarted
  }

  /** The code request succeeded: the code is shown and the interval starts,
      polling with this code every 5000 ms. The interval starts even when the screen was
      already torn down, since teardown found nothing to clear. */
  function CodeGenerated(s: SetupState, pairingCode: string): (r: SetupState)
    requires !s.setupSettled
    ensures r.timer == Polling(pairingCode, PollPeriodMs) && r.code == Some(pairingCode) && r.status == WaitingStatus
    ensures r.setupSettled && r.mounted == s.mounted
  {
    SetupState(Some(pairingCode), WaitingStatus, Polling(pairingCode, PollPeriodMs), true, s.mounted)
  }

  /** The code request failed: a terminal message, and no interval ever. */
  function CodeGenerationFailed(s: SetupState): (r: SetupState)
    requires !s.setupSettled
    ensures r.status == GenerationFailedStatus && r.setupSettled
    ensures r.code == s.code && r.timer == s.timer && r.mounted == s.mounted
  {
    s.(status := GenerationFailedStatus, setupSettled := true)
  }

  datatype PollOutcome = Responded(response: PairingResponse) | PollFailed

  /** One tick: the pairing code sent (if the interval is live), the token
      handed to the application state (if one arrived), and the new state. */
  datatype PollStep = PollStep(next: SetupState, request: Option<string>, handoff: Option<string>)

  function Poll(s: SetupState, outcome: PollOutcome): (r: PollStep)
    // a cleared or never-started interval does not fire
    ensures !s.timer.Polling? ==> r == PollStep(s, None, None)
    // a live interval always sends the code it captured, not the code on screen
    ensures s.timer.Polling? ==> r.request == Some(s.timer.pairingCode)
    ensures r.handoff.Some? <==>
      s.timer.Polling? && outcome.Responded? && Truthy(outcome.response.deviceToken)
    // a token stops the interval before it is handed over
    ensures r.handoff.Some? ==>
      r.handoff == outcome.response.deviceToken && r.next == s.(timer := Cleared(s.timer.pairingCode))
    // otherwise the interval keeps running; only a message changes the status
    ensures r.handoff.None? ==> r.next.timer == s.timer && r.next.code == s.code
    ensures r.handoff.None? ==> r.next == s.(status := r.next.status)
    // a message without a token becomes the status
    ensures (s.timer.Polling? && outcome.Responded? && !Truthy(outcome.response.deviceToken)
             && Truthy(outcome.response.message)) ==> r.next.status == outcome.response.message.value
    ensures r.handoff.None? && r.next.status != s.status ==>
      outcome.Responded? && Truthy(outcome.response.message) && r.next.status == outcome.response.message.value
  {
    if !s.timer.Polling? then PollStep(s, None, None)
    else
      var request := Some(s.timer.pairingCode);
      match outcome
      case PollFailed => PollStep(s, request, None)
      case Responded(response) =>
        if Truthy(response.deviceToken) then
          PollStep(s.(timer := Cleared(s.timer.pairingCode)), request, response.deviceToken)
        else if Truthy(response.message) then
          PollStep(s.(status := response.message.value), request, None)
        else
          PollStep(s, request, None)
  }

  /** "Regenerate Code" only resets the visible state: the mount effect has no
      dependencies, so no new code is requested and the interval keeps
      polling with the old code. */
  function Regenerate(s: SetupState): (r: SetupState)
    ensures r.code == None && r.status == GeneratingStatus
    ensures r.timer == s.timer && r.setupSettled == s.setupSettled && r.mounted == s.mounted
  {
    s.(code := None, status := GeneratingStatus)
  }

  /** Teardown clears the interval if one was started. */
  function Teardown(s: SetupState): (r: SetupState)
    ensures !r.mounted && !r.timer.Polling?
    ensures s.timer.Polling? ==> r.timer == Cleared(s.timer.pairingCode)
    ensures !s.timer.Polling? ==> r.timer == s.timer
    ensures r.code == s.code && r.status == s.status && r.setupSettled == s.setupSettled
  {
    s.(mounted := false, timer := if s.timer.Polling? then Cleared(s.timer.pairingCode) else s.timer)
  }

  // ---------------------------------------------------------------------------
  // runs of consecutive poll ticks

  datatype PollRun = PollRun(final: SetupState, requests: seq<string>, handoffs: seq<string>)

  function OptionSeq(o: Option<string>): seq<string> {
    if o.Some? then [o.value] else []
  }

  function PollMany(s: SetupState, outcomes: seq<PollOutcome>): PollRun
    decreases |outcomes|
  {
    if outcomes == [] then PollRun(s, [], [])
    else
      var step := Poll(s, outcomes[0]);
      var rest := PollMany(step.next, outcomes[1..]);
      PollRun(rest.final, OptionSeq(step.request) + rest.requests, OptionSeq(step.handoff) + rest.handoffs)
  }

  predicate CarriesToken(o: PollOutcome) {
    o.Responded? && Truthy(o.response.deviceToken)
  }

  /** Without a live interval, any number of ticks sends nothing and changes
      nothing. */
  lemma {:induction false} IdleTicksDoNothing(s: SetupState, outcomes: seq<PollOutcome>)
    requires !s.timer.Polling?
    ensures PollMany(s, outcomes) == PollRun(s, [], [])
    decreases |outcomes|
  {
    if outcomes != [] {
      IdleTicksDoNothing(s, outcomes[1..]);
    }
  }

  /** Until a token arrives the display stays waiting: each tick sends the
      captured code once, the interval stays live and nothing is handed over. */
  lemma {:induction false} UnclaimedKeepsPolling(s: SetupState, outcomes: seq<PollOutcome>)
    requires s.timer.Polling?
    requires forall i :: 0 <= i < |outcomes| ==> !CarriesToken(outcomes[i])
    ensures PollMany(s, outcomes).final.timer == s.timer
    ensures PollMany(s, outcomes).final.code == s.code
    ensures PollMany(s, outcomes).requests == seq(|outcomes|, _ => s.timer.pairingCode)
    ensures PollMany(s, outcomes).handoffs == []
    decreases |outcomes|
  {
    if outcomes != [] {
      var step := Poll(s, outcomes[0]);
      assert !CarriesToken(outcomes[0]);
      UnclaimedKeepsPolling(step.next, outcomes[1..]);
    }
  }

  /** After a successful code request, and until a token arrives, the live
      interval keeps polling with that code every 5000 ms. */
  lemma UnclaimedPollsEveryPeriod(pairingCode: string, outcomes: seq<PollOutcome>)
    requires forall i :: 0 <= i < |outcomes| ==> !CarriesToken(outcomes[i])
    ensures PollMany(CodeGenerated(Mounted, pairingCode), outcomes).final.timer == Polling(pairingCode, PollPeriodMs)
  {
    UnclaimedKeepsPolling(CodeGenerated(Mounted, pairingCode), outcomes);
  }

  /** Once a token arrives, it is handed over exactly once and no further poll
      request is ever sent. */
  lemma TokenEndsPolling(s: SetupState, response: PairingResponse, later: seq<PollOutcome>)
    requires s.timer.Polling? && Truthy(response.deviceToken)
    ensures var run := PollMany(s, [Responded(response)] + later);
      run.requests == [s.timer.pairingCode] && run.handoffs == [response.deviceToken.value]
      && run.final.timer == Cleared(s.timer.pairingCode)
  {
    var step := Poll(s, Responded(response));
    IdleTicksDoNothing(step.next, later);
    assert ([Responded(response)] + later)[1..] == later;
  }

  /** A failed code request leaves the screen without any poll, whatever
      happens afterwards. */
  lemma FailedGenerationNeverPolls(outcomes: seq<PollOutcome>)
    ensures PollMany(CodeGenerationFailed(Mounted), outcomes).requests == []
    ensures PollMany(CodeGenerationFailed(Mounted), outcomes).final.status == GenerationFailedStatus
  {
    IdleTicksDoNothing(CodeGenerationFailed(Mounted), outcomes);
  }

  /** Leaving the screen while the code request is still pending does not
      prevent the interval: it starts when the request settles and is never
      cleared. */
  lemma EarlyTeardownLeaksPoll(pairingCode: string)
    ensures CodeGenerated(Teardown(Mounted), pairingCode).timer == Polling(pairingCode, PollPeriodMs)
    ensures !CodeGenerated(Teardown(Mounted), pairingCode).mounted
  {
  }

  /** After "Regenerate Code", a tick still polls with the old code. */
  lemma RegenerateKeepsOldCode(s: SetupState, outcome: PollOutcome)
    requires s.timer.Polling?
    ensures Poll(Regenerate(s), outcome).request == Some(s.timer.pairingCode)
    ensures Regenerate(s).code == None
  {
  }

  // ---------------------------------------------------------------------------
  // the screen

  class DisplaySetupScreen {
    var code: Option<string>
    var status: string
    var pollTimer: PollTimer
    var setupSettled: bool
    var mounted: bool

    function State(): SetupState
      reads this
    {
      SetupState(code, status, pollTimer, setupSettled, mounted)
    }

    /** Mounting: the code request is issued and pending. */
    constructor ()
      ensures State() == Mounted && TimerStartsAfterSetup(State())
    {
      code := None;
      status := GeneratingStatus;
      pollTimer := NotStarted;
      setupSettled := false;
      mounted := true;
    }

    method SetupSucceeded(pairingCode: string)
      requires !setupSettled
      modifies this
      ensures State() == CodeGenerated(old(State()), pairingCode)
      ensures TimerStartsAfterSetup(State())
    {
      code := Some(pairingCode);
      status := WaitingStatus;
      pollTimer := Polling(pairingCode, PollPeriodMs);
      setupSettled := true;
    }

    method SetupFailed()
      requires !setupSettled
      modifies this
      ensures State() == CodeGenerationFailed(old(State()))
      ensures TimerStartsAfterSetup(State())
    {
      status := GenerationFailedStatus;
      setupSettled := true;
    }

    /** One tick of the interval; a token is stored in the application state
        after the interval is cleared. */
    method PollTick(ctx: AppState.AppContext, outcome: PollOutcome) returns (request: Option<string>)
      requires TimerStartsAfterSetup(State())
      modifies this, ctx
      ensures State() == Poll(old(State()), outcome).next && TimerStartsAfterSetup(State())
      ensures request == Poll(old(State()), outcome).request
      ensures var handoff := Poll(old(State()), outcome).handoff;
        handoff.Some? ==>
          ctx.deviceToken == handoff && ctx.store == AppState.MirrorInto(old(ctx.store), AppState.DeviceTokenKey, handoff)
      ensures var handoff := Poll(old(State()), outcome).handoff;
        handoff.None? ==> ctx.deviceToken == old(ctx.deviceToken) && ctx.store == old(ctx.store)
      ensures ctx.mode == old(ctx.mode) && ctx.userId == old(ctx.userId) && ctx.isLoading == old(ctx.isLoading)
      ensures ctx.currentPlaylist == old(ctx.currentPlaylist)
      ensures Poll(old(State()), outcome).handoff.Some? && !ctx.isLoading && Navigation.DisplayLike(ctx.mode) ==>
        Navigation.Screens(ctx.isLoading, ctx.mode, ctx.deviceToken, ctx.userId) == Navigation.Stack([Navigation.Player])
    {
      request := None;
      if !pollTimer.Polling? {
        return;
      }
      var captured := pollTimer.pairingCode;
      request := Some(captured);
      match outcome {
        case PollFailed =>
        case Responded(response) =>
          if Truthy(response.deviceToken) {
            pollTimer := Cleared(captured);
            ctx.SetDeviceToken(response.deviceToken);
          } else if Truthy(response.message) {
            status := response.message.value;
          }
      }
    }

    method RegenerateCode()
      modifies this
      ensures State() == Regenerate(old(State()))
    {
      code := None;
      status := GeneratingStatus;
    }

    method Unmount()
      modifies this
      ensures State() == Teardown(old(State()))
    {
      mounted := false;
      if pollTimer.Polling? {
        pollTimer := Cleared(pollTimer.pairingCode);
      }
    }
  }
}
