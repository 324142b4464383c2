/** The display's playback screen (src/screens/Display/PlayerScreen.tsx):
    config refresh, heartbeat, the per-asset advance timer, the cyclic cursor
    and the choice of what to render. Timers and network answers are events:
    each expiry or response is one method call carrying its outcome. */
module Player {
  import opened Types
  import opened JsText
  import AppState
  import Navigation

  const HeartbeatPeriodMs: nat := 30000
  const ConfigRefreshPeriodMs: nat := 60000
  const UnpairDelayMs: nat := 2000
  const DefaultImageSeconds: int := 10
  const HeartbeatStatus := "playing"
  const AppVersion := "1.0.0"

  const NoPlaylistError := "No playlist assigned"
  const UnauthorizedError := "Device unauthorized. Resetting..."
  const LoadFailedError := "Failed to load configuration"
  const WaitingText := "Waiting for content..."

  /** How one config fetch ended: an answer, an HTTP error status, or a
      failure without any response. */
  datatype FetchOutcome = Fetched(response: ConfigResponse) | HttpError(status: int) | NoResponse

  predicate Unauthorized(outcome: FetchOutcome) {
    outcome.HttpError? && (outcome.status == 403 || outcome.status == 404)
  }

  datatype PlayerState = PlayerState(
    playlist: Option<Playlist>,
    currentIndex: nat,
    loading: bool,
    error: Option<string>)

  const Mounted := PlayerState(None, 0, true, None)

  function SequenceLength(s: PlayerState): nat {
    if s.playlist.Some? then |s.playlist.value.displaySequence| else 0
  }

  /** The cursor denotes an asset of the held playlist. */
  predicate CursorInBounds(s: PlayerState) {
    s.playlist.Some? ==> s.currentIndex < |s.playlist.value.displaySequence|
  }

  // ---------------------------------------------------------------------------
  // config refresh

  /** The new state after a fetch, and the delay of the one-shot action that
      clears the device token, when one is scheduled. */
  datatype FetchStep = FetchStep(next: PlayerState, unpairAfterMs: Option<nat>)

  function Fetch(s: PlayerState, token: Option<string>, outcome: FetchOutcome): (r: FetchStep)
    // without a token no request is made and nothing changes
    ensures !Truthy(token) ==> r == FetchStep(s, None)
    // every completed fetch ends loading and leaves the cursor where it was
    ensures Truthy(token) ==> !r.next.loading && r.next.currentIndex == s.currentIndex
    // a playlist replaces the held one and clears the error
    ensures Truthy(token) && outcome.Fetched? && outcome.response.playlistJson.Some? ==>
      r.next.playlist == outcome.response.playlistJson && r.next.error == None && r.unpairAfterMs == None
    // otherwise the held playlist stays and an error is shown
    ensures Truthy(token) && !(outcome.Fetched? && outcome.response.playlistJson.Some?) ==>
      r.next.playlist == s.playlist && Truthy(r.next.error)
    ensures Truthy(token) && outcome.Fetched? && outcome.response.playlistJson.None? ==>
      r.next.error == Some(NoPlaylistError)
    ensures Truthy(token) && outcome.HttpError? && !Unauthorized(outcome) ==> r.next.error == Some(LoadFailedError)
    ensures Truthy(token) && outcome.NoResponse? ==> r.next.error == Some(LoadFailedError)
    // only a 403 or 404 schedules the token clearing, always 2000 ms later
    ensures r.unpairAfterMs.Some? <==> Truthy(token) && Unauthorized(outcome)
    ensures r.unpairAfterMs.Some? ==> r.unpairAfterMs.value == UnpairDelayMs && r.next.error == Some(UnauthorizedError)
  {
    if !Truthy(token) then FetchStep(s, None)
    else
      match outcome
      case Fetched(response) =>
        if response.playlistJson.Some? then
          FetchStep(s.(playlist := response.playlistJson, error := None, loading := false), None)
        else
          FetchStep(s.(error := Some(NoPlaylistError), loading := false), None)
      case HttpError(status) =>
        if status == 403 || status == 404 then
          FetchStep(s.(error := Some(UnauthorizedError), loading := false), Some(UnpairDelayMs))
        else
          FetchStep(s.(error := Some(LoadFailedError), loading := false), None)
      case NoResponse =>
        FetchStep(s.(error := Some(LoadFailedError), loading := false), None)
  }

  /** Nothing sets `loading` back: once a fetch has completed, every later
      fetch leaves it false. */
  lemma LoadingNeverReturns(s: PlayerState, token: Option<string>, outcome: FetchOutcome)
    requires !s.loading
    ensures !Fetch(s, token, outcome).next.loading
  {
  }

  /** A successful fetch does not reset the cursor: when the new playlist is
      shorter than the cursor, the cursor is left outside it, rendering reads
      past the end of the sequence and the advance timer cannot be armed. */
  lemma ShorterPlaylistStrandsCursor(s: PlayerState, token: Option<string>, p: Playlist)
    requires Truthy(token) && 0 < |p.displaySequence| <= s.currentIndex
    ensures var t := Fetch(s, token, Fetched(ConfigResponse(Some(p)))).next;
      !CursorInBounds(t) && Render(t) == RenderFault && AdvanceTimer(t) == EffectFault
  {
  }

  /** The cursor stays in bounds across a fetch exactly when the new playlist
      (if any) still covers it. */
  lemma FetchKeepsCursorInBounds(s: PlayerState, token: Option<string>, outcome: FetchOutcome)
    requires CursorInBounds(s)
    requires outcome.Fetched? && outcome.response.playlistJson.Some? ==>
      s.currentIndex < |outcome.response.playlistJson.value.displaySequence|
    ensures CursorInBounds(Fetch(s, token, outcome).next)
  {
  }

  // ---------------------------------------------------------------------------
  // the cyclic cursor

  /** `(i + 1) % n`. */
  function NextIndex(i: nat, n: nat): (r: nat)
    requires n > 0
    ensures r < n
    ensures i + 1 < n ==> r == i + 1
    ensures i + 1 == n ==> r == 0
  {
    (i + 1) % n
  }

  /** `nextAsset`: with no playlist nothing changes; otherwise the cursor moves
      one position forward, cyclically. Every caller runs with a non-empty
      sequence (an empty one is neither rendered nor given a timer). */
  function NextAsset(s: PlayerState): (r: PlayerState)
    requires s.playlist.Some? ==> |s.playlist.value.displaySequence| > 0
    ensures r.playlist == s.playlist && r.loading == s.loading && r.error == s.error
    ensures s.playlist.None? ==> r.currentIndex == s.currentIndex
    ensures s.playlist.Some? ==> r.currentIndex == NextIndex(s.currentIndex, |s.playlist.value.displaySequence|)
    ensures CursorInBounds(r)
  {
    if s.playlist.None? then s
    else s.(currentIndex := NextIndex(s.currentIndex, |s.playlist.value.displaySequence|))
  }

  /** `k` consecutive advances. */
  function AdvanceTimes(s: PlayerState, k: nat): (r: PlayerState)
    requires s.playlist.Some? ==> |s.playlist.value.displaySequence| > 0
    ensures r.playlist == s.playlist && r.loading == s.loading && r.error == s.error
    ensures k > 0 ==> CursorInBounds(r)
    decreases k
  {
    if k == 0 then s else AdvanceTimes(NextAsset(s), k - 1)
  }

  /** Advancing `a + b` times is advancing `a` times, then `b` times. */
  lemma {:induction false} AdvanceTimesSplit(s: PlayerState, a: nat, b: nat)
    requires s.playlist.Some? ==> |s.playlist.value.displaySequence| > 0
    ensures AdvanceTimes(s, a + b) == AdvanceTimes(AdvanceTimes(s, a), b)
    decreases a
  {
    if a > 0 {
      AdvanceTimesSplit(NextAsset(s), a - 1, b);
    }
  }

  /** Before the end of the sequence is reached the cursor just counts up. */
  lemma {:induction false} AdvanceWithoutWrap(s: PlayerState, k: nat)
    requires s.playlist.Some? && s.currentIndex + k < |s.playlist.value.displaySequence|
    ensures AdvanceTimes(s, k) == s.(currentIndex := s.currentIndex + k)
    decreases k
  {
    if k > 0 {
      AdvanceWithoutWrap(NextAsset(s), k - 1);
    }
  }

  /** From an in-bounds cursor `i`, `n - i` advances wrap around to 0. */
  lemma AdvanceToWrap(s: PlayerState)
    requires s.playlist.Some? && |s.playlist.value.displaySequence| > 0 && CursorInBounds(s)
    ensures AdvanceTimes(s, |s.playlist.value.displaySequence| - s.currentIndex) == s.(currentIndex := 0)
  {
    var n := |s.playlist.value.displaySequence|;
    var k := n - s.currentIndex - 1;
    AdvanceTimesSplit(s, k, 1);
    AdvanceWithoutWrap(s, k);
  }

  /** A full cycle of n advances from an in-bounds cursor returns to the
      starting state; in particular n advances from 0 return to 0. */
  lemma FullCycle(s: PlayerState)
    requires s.playlist.Some? && |s.playlist.value.displaySequence| > 0 && CursorInBounds(s)
    ensures AdvanceTimes(s, |s.playlist.value.displaySequence|) == s
  {
    var n := |s.playlist.value.displaySequence|;
    var i := s.currentIndex;
    AdvanceTimesSplit(s, n - i, i);
    AdvanceToWrap(s);
    AdvanceWithoutWrap(s.(currentIndex := 0), i);
  }

  /** A skipped (failed or finished) asset is left behind: with two or more
      assets one advance always moves the cursor to another index. */
  lemma AdvanceNeverRepeats(s: PlayerState)
    requires s.playlist.Some? && |s.playlist.value.displaySequence| >= 2 && CursorInBounds(s)
    ensures NextAsset(s).currentIndex != s.currentIndex
  {
  }

  // ---------------------------------------------------------------------------
  // timers

  /** The delay of an image's advance timer: `(playback_duration || 10) * 1000`. */
  function ImageDelayMs(a: MediaAsset): (ms: int)
    ensures a.playbackDuration == 0 ==> ms == 10000
    ensures a.playbackDuration != 0 ==> ms == a.playbackDuration * 1000
  {
    (if a.playbackDuration == 0 then DefaultImageSeconds else a.playbackDuration) * 1000
  }

  /** An image whose duration is not negative stays on screen for at least a
      second, so the advance timer never fires at once. */
  lemma ImageDelayPositive(a: MediaAsset)
    requires a.playbackDuration >= 0
    ensures ImageDelayMs(a) >= 1000
  {
  }

  /** What the playlist effect arms: one advance timeout for an image, nothing
      for a video or a missing or empty sequence. An out-of-range cursor makes
      the effect read a field of `undefined`. */
  datatype TimerPlan = NoTimer | AdvanceAfter(ms: int) | EffectFault

  function AdvanceTimer(s: PlayerState): (t: TimerPlan)
    ensures t.AdvanceAfter? <==>
      s.playlist.Some? && s.currentIndex < |s.playlist.value.displaySequence|
      && s.playlist.value.displaySequence[s.currentIndex].kind == Image
    ensures t.AdvanceAfter? ==> t.ms == ImageDelayMs(s.playlist.value.displaySequence[s.currentIndex])
    ensures t.EffectFault? <==> s.playlist.Some? && 0 < |s.playlist.value.displaySequence| <= s.currentIndex
    ensures SequenceLength(s) == 0 ==> t == NoTimer
  {
    if s.playlist.None? || |s.playlist.value.displaySequence| == 0 then NoTimer
    else if s.currentIndex >= |s.playlist.value.displaySequence| then EffectFault
    else
      var asset := s.playlist.value.displaySequence[s.currentIndex];
      if asset.kind == Image then AdvanceAfter(ImageDelayMs(asset)) else NoTimer
  }

  /** The repeating timers the screen keeps: the config refresh always runs
      (a tick without a token does nothing), the heartbeat only with a token. */
  datatype Repeating = HeartbeatEvery(ms: nat) | ConfigRefreshEvery(ms: nat)

  function RepeatingTimers(token: Option<string>): (r: set<Repeating>)
    ensures ConfigRefreshEvery(ConfigRefreshPeriodMs) in r
    ensures HeartbeatEvery(HeartbeatPeriodMs) in r <==> Truthy(token)
    ensures forall x :: x in r ==> x == ConfigRefreshEvery(ConfigRefreshPeriodMs) || x == HeartbeatEvery(HeartbeatPeriodMs)
  {
    if Truthy(token) then {HeartbeatEvery(HeartbeatPeriodMs), ConfigRefreshEvery(ConfigRefreshPeriodMs)}
    else {ConfigRefreshEvery(ConfigRefreshPeriodMs)}
  }

  /** The liveness report sent on each heartbeat tick. */
  datatype Heartbeat = Heartbeat(deviceToken: string, status: string, appVersion: string)

  // ---------------------------------------------------------------------------
  // rendering

  datatype View = LoadingView | MessageView(text: string) | AssetView(asset: MediaAsset) | RenderFault

  function Render(s: PlayerState): (v: View)
    ensures v.LoadingView? <==> s.loading
    ensures v.MessageView? <==> !s.loading && (Truthy(s.error) || SequenceLength(s) == 0)
    ensures v.MessageView? ==> v.text == if Truthy(s.error) then s.error.value else WaitingText
    ensures v.AssetView? <==> !s.loading && !Truthy(s.error) && SequenceLength(s) > 0 && CursorInBounds(s)
    ensures v.AssetView? ==> v.asset == s.playlist.value.displaySequence[s.currentIndex]
    ensures v.RenderFault? <==> !s.loading && !Truthy(s.error) && SequenceLength(s) > 0 && !CursorInBounds(s)
  {
    if s.loading then LoadingView
    else if Truthy(s.error) || s.playlist.None? || |s.playlist.value.displaySequence| == 0 then
      MessageView(if Truthy(s.error) then s.error.value else WaitingText)
    else if s.currentIndex < |s.playlist.value.displaySequence| then
      AssetView(s.playlist.value.displaySequence[s.currentIndex])
    else RenderFault
  }

  /** An error outranks a held playlist: after a failed refresh the last
      content is no longer shown, although it is kept. */
  lemma ErrorHidesHeldPlaylist(s: PlayerState, token: Option<string>, outcome: FetchOutcome)
    requires Truthy(token) && !(outcome.Fetched? && outcome.response.playlistJson.Some?)
    ensures var t := Fetch(s, token, outcome).next;
      t.playlist == s.playlist && Render(t).MessageView? && Render(t).text == t.error.value
  {
  }

  // ---------------------------------------------------------------------------
  // the screen

  /** The media signals that advance playback: the image timer, a video's
      end, and a render error of either kind. */
  datatype MediaSignal = ImageTimerExpired | VideoEnded | VideoFailed | ImageFailed

  class PlayerScreen {
    var playlist: Option<Playlist>
    var currentIndex: nat
    var loading: bool
    var error: Option<string>

    function State(): PlayerState
      reads this
    {
      PlayerState(playlist, currentIndex, loading, error)
    }

    constructor ()
      ensures State() == Mounted
    {
      playlist := None;
      currentIndex := 0;
      loading := true;
      error := None;
    }

    /** `fetchConfig` receiving `outcome`; returns the delay of the scheduled
        token clearing, if any. */
    method FetchConfig(token: Option<string>, outcome: FetchOutcome) returns (unpairAfterMs: Option<nat>)
      modifies this
      ensures State() == Fetch(old(State()), token, outcome).next
      ensures unpairAfterMs == Fetch(old(State()), token, outcome).unpairAfterMs
    {
      unpairAfterMs := None;
      if !Truthy(token) {
        return;
      }
      match outcome {
        case Fetched(response) =>
          if response.playlistJson.Some? {
            playlist := response.playlistJson;
            error := None;
          } else {
            error := Some(NoPlaylistError);
          }
        case HttpError(status) =>
          if status == 403 || status == 404 {
            error := Some(UnauthorizedError);
            unpairAfterMs := Some(UnpairDelayMs);
          } else {
            error := Some(LoadFailedError);
          }
        case NoResponse =>
          error := Some(LoadFailedError);
      }
      loading := false;
    }

    /** Each media signal calls `nextAsset` exactly once. */
    method OnMediaSignal(signal: MediaSignal)
      requires playlist.Some? ==> |playlist.value.displaySequence| > 0
      modifies this
      ensures State() == NextAsset(old(State()))
    {
      if playlist.Some? {
        currentIndex := (currentIndex + 1) % |playlist.value.displaySequence|;
      }
    }

    /** A heartbeat tick: a report is sent only while a token is held, always
        with status "playing" and version "1.0.0". The method modifies
        nothing, so whatever the heartbeat's fate, playback is untouched. */
    method HeartbeatTick(token: Option<string>) returns (report: Option<Heartbeat>)
      ensures report.Some? <==> Truthy(token)
      ensures report.Some? ==> report.value == Heartbeat(token.value, HeartbeatStatus, AppVersion)
    {
      if Truthy(token) {
        report := Some(Heartbeat(token.value, HeartbeatStatus, AppVersion));
      } else {
        report := None;
      }
    }
  }

  /** The scheduled token clearing fires: the token is removed from the
      application state and its store, so a display falls back from the
      player to the pairing screen. */
  method UnpairTimerFired(ctx: AppState.AppContext)
    modifies ctx
    ensures ctx.deviceToken == None && AppState.DeviceTokenKey !in ctx.store
    ensures ctx.store == AppState.MirrorInto(old(ctx.store), AppState.DeviceTokenKey, None)
    ensures ctx.mode == old(ctx.mode) && ctx.userId == old(ctx.userId) && ctx.isLoading == old(ctx.isLoading)
    ensures ctx.currentPlaylist == old(ctx.currentPlaylist)
    ensures !ctx.isLoading && Navigation.DisplayLike(ctx.mode) ==>
      Navigation.Screens(ctx.isLoading, ctx.mode, ctx.deviceToken, ctx.userId) ==
      Navigation.Stack([Navigation.DisplaySetup])
  {
    ctx.SetDeviceToken(None);
  }
}
