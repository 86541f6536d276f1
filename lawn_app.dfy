/** The lawn-state machine of App.tsx. The three `setState` updaters are
    pure functions from the previous state to the next; the component's four
    state cells are the fields of class App, whose methods are the event
    handlers, each asynchronous handler split into the step that starts the
    request and the step that runs when it settles. */
module LawnApp {
  import opened Wrappers
  import opened Types
  import opened Constants
  import GeminiService

  datatype Tab = Dashboard | ProfileTab | HistoryTab

  /** The state a fresh installation starts from. */
  function InitialState(): (s: LawnState)
    ensures s.profile == DefaultProfile && s.history == [] && s.recommendation == None
    ensures s.healthScore == 75 && s.lawnImage == None
    ensures ScoreInRange(s)
  {
    LawnState(DefaultProfile, [], None, 75, None)
  }

  predicate ScoreInRange(s: LawnState)
  {
    0 <= s.healthScore <= 100
  }

  function DigitChar(d: nat): (c: char)
    requires d < 10
    ensures '0' <= c <= '9'
  {
    "0123456789"[d]
  }

  /** `n.toString()` for a non-negative integer: its decimal digits, most
      significant first, without leading zeros. */
  function DecimalText(n: nat): (s: string)
    ensures |s| >= 1
    ensures forall i :: 0 <= i < |s| ==> '0' <= s[i] <= '9'
    ensures s[0] == '0' <==> n == 0
  {
    if n < 10 then [DigitChar(n)] else DecimalText(n / 10) + [DigitChar(n % 10)]
  }

  /** Reads a string of decimal digits back as a number. */
  function DecimalValue(s: string): nat
    requires forall i :: 0 <= i < |s| ==> '0' <= s[i] <= '9'
  {
    if s == [] then 0 else 10 * DecimalValue(s[..|s| - 1]) + (s[|s| - 1] - '0') as nat
  }

  /** The id text loses nothing: it reads back as the clock value. */
  lemma {:induction false} DecimalTextRoundTrip(n: nat)
    ensures DecimalValue(DecimalText(n)) == n
  {
    var s := DecimalText(n);
    if n < 10 {
      assert s[..|s| - 1] == [];
    } else {
      assert s[..|s| - 1] == DecimalText(n / 10);
      DecimalTextRoundTrip(n / 10);
    }
  }

  const AppliedNotes: string := "Applied according to AI schedule."

  /** The log that handleApplyFertilizer creates: `nowMillis` is what
      `Date.now()` returned and `nowIso` what `new Date().toISOString()` did. */
  function NewLog(product: string, nowMillis: nat, nowIso: string): (log: ApplicationLog)
    ensures log.productUsed == product && log.notes == "Applied according to AI schedule."
    ensures log.date == nowIso
    ensures |log.id| >= 1 && forall i :: 0 <= i < |log.id| ==> '0' <= log.id[i] <= '9'
    ensures DecimalValue(log.id) == nowMillis
  {
    DecimalTextRoundTrip(nowMillis);
    ApplicationLog(DecimalText(nowMillis), nowIso, product, AppliedNotes)
  }

  function Min(a: int, b: int): int
  {
    if a <= b then a else b
  }

  /** The apply-fertilizer updater: the log goes in front of the unchanged
      history, the score rises by 5 up to 100, and the profile records the
      log's date as the last fertilization. */
  function ApplyLog(prev: LawnState, log: ApplicationLog): (next: LawnState)
    ensures |next.history| == |prev.history| + 1
    ensures next.history[0] == log && next.history[1..] == prev.history
    ensures next.healthScore == (if prev.healthScore <= 95 then prev.healthScore + 5 else 100)
    ensures prev.healthScore <= 100 ==> prev.healthScore <= next.healthScore <= 100
    ensures next.profile.lastFertilized == Some(log.date)
    ensures next.profile.location == prev.profile.location && next.profile.grassType == prev.profile.grassType
    ensures next.profile.soilType == prev.profile.soilType && next.profile.condition == prev.profile.condition
    ensures next.recommendation == prev.recommendation && next.lawnImage == prev.lawnImage
  {
    prev.(history := [log] + prev.history,
          healthScore := Min(100, prev.healthScore + 5),
          profile := prev.profile.(lastFertilized := Some(log.date)))
  }

  /** The update-profile updater, run when the recommendation request
      succeeds: profile and recommendation are replaced together. */
  function WithProfileAndRecommendation(prev: LawnState, profile: UserProfile, rec: FertilizerRecommendation): (next: LawnState)
    ensures next.profile == profile && next.recommendation == Some(rec)
    ensures next.history == prev.history && next.healthScore == prev.healthScore && next.lawnImage == prev.lawnImage
  {
    prev.(profile := profile, recommendation := Some(rec))
  }

  /** The refresh-image updater: the image is replaced wholesale. */
  function WithImage(prev: LawnState, image: string): (next: LawnState)
    ensures next.lawnImage == Some(image)
    ensures next.profile == prev.profile && next.history == prev.history
    ensures next.recommendation == prev.recommendation && next.healthScore == prev.healthScore
  {
    prev.(lawnImage := Some(image))
  }

  /** JavaScript truthiness of `string | null`: present and non-empty. */
  function Truthy(image: Option<string>): (truthy: bool)
    ensures image.None? ==> !truthy
    ensures image.Some? ==> (truthy <==> |image.value| > 0)
  {
    image.Some? && image.value != ""
  }

  /** Examples of the clamp: 98 becomes 100, not 103, and 100 stays 100. */
  lemma ScoreClampExamples(s: LawnState, log: ApplicationLog)
    ensures s.healthScore == 98 ==> ApplyLog(s, log).healthScore == 100
    ensures s.healthScore == 100 ==> ApplyLog(s, log).healthScore == 100
    ensures s.healthScore == 75 ==> ApplyLog(s, log).healthScore == 80
  {
  }

  /** The image update touches only the image, and the other two updaters
      never touch it, so the image update commutes with both. */
  lemma ImageUpdateCommutes(s: LawnState, image: string, profile: UserProfile,
                            rec: FertilizerRecommendation, log: ApplicationLog)
    ensures WithImage(WithProfileAndRecommendation(s, profile, rec), image)
         == WithProfileAndRecommendation(WithImage(s, image), profile, rec)
    ensures WithImage(ApplyLog(s, log), image) == ApplyLog(WithImage(s, image), log)
  {
  }

  /** Every image the service returns data-URI encoded passes the App's
      `if (img)` guard. */
  lemma ServiceImagesAreTruthy(parts: seq<GeminiService.Part>)
    ensures GeminiService.ImageFromParts(parts).Some? ==> Truthy(GeminiService.ImageFromParts(parts))
  {
  }

  /** A settled state update, in the order the updaters ran. */
  datatype Event =
    | Applied(log: ApplicationLog)
    | ProfileSaved(profile: UserProfile, rec: FertilizerRecommendation)
    | ImageReplaced(image: string)

  function Step(s: LawnState, e: Event): LawnState
  {
    match e
    case Applied(log) => ApplyLog(s, log)
    case ProfileSaved(profile, rec) => WithProfileAndRecommendation(s, profile, rec)
    case ImageReplaced(image) => WithImage(s, image)
  }

  /** The state after the updates `events`, oldest first. */
  function Replay(s: LawnState, events: seq<Event>): LawnState
    decreases |events|
  {
    if events == [] then s else Replay(Step(s, events[0]), events[1..])
  }

  /** The logs of `events`, newest first. */
  function NewestFirst(events: seq<Event>): seq<ApplicationLog>
    decreases |events|
  {
    if events == [] then []
    else NewestFirst(events[1..]) + (if events[0].Applied? then [events[0].log] else [])
  }

  /** How many fertilizer applications `events` hold. */
  function AppliedCount(events: seq<Event>): nat
    decreases |events|
  {
    if events == [] then 0 else (if events[0].Applied? then 1 else 0) + AppliedCount(events[1..])
  }

  lemma {:induction false} NewestFirstLength(events: seq<Event>)
    ensures |NewestFirst(events)| == AppliedCount(events)
    decreases |events|
  {
    if events != [] {
      NewestFirstLength(events[1..]);
    }
  }

  /** History is append-only and newest first: after any run of updates it
      is the new logs, latest first, followed by the old history unchanged. */
  lemma {:induction false} ReplayHistory(s: LawnState, events: seq<Event>)
    ensures Replay(s, events).history == NewestFirst(events) + s.history
    decreases |events|
  {
    if events != [] {
      ReplayHistory(Step(s, events[0]), events[1..]);
    }
  }

  /** The score after any run of updates: 5 per application, clamped at 100;
      no other update moves it. */
  lemma {:induction false} ReplayScore(s: LawnState, events: seq<Event>)
    requires s.healthScore <= 100
    ensures Replay(s, events).healthScore == Min(100, s.healthScore + 5 * AppliedCount(events))
    ensures s.healthScore <= Replay(s, events).healthScore <= 100
    decreases |events|
  {
    if events != [] {
      ReplayScore(Step(s, events[0]), events[1..]);
    }
  }

  /** Logging A, then B, then C leaves [C, B, A] in front of the old history. */
  lemma ThreeApplicationsNewestFirst(s: LawnState, a: ApplicationLog, b: ApplicationLog, c: ApplicationLog)
    ensures Replay(s, [Applied(a), Applied(b), Applied(c)]).history == [c, b, a] + s.history
  {
    var events := [Applied(a), Applied(b), Applied(c)];
    ReplayHistory(s, events);
    assert events[1..][1..][1..] == [];
    assert NewestFirst(events[1..][1..]) == [c];
    assert NewestFirst(events[1..]) == [c, b];
  }

  /** From a fresh installation the score stays between 75 and 100 and
      counts the applications, and the history holds exactly the logs. */
  lemma FromInitialState(events: seq<Event>)
    ensures 75 <= Replay(InitialState(), events).healthScore <= 100
    ensures ScoreInRange(Replay(InitialState(), events))
    ensures Replay(InitialState(), events).healthScore == Min(100, 75 + 5 * AppliedCount(events))
    ensures Replay(InitialState(), events).history == NewestFirst(events)
    ensures |Replay(InitialState(), events).history| == AppliedCount(events)
  {
    ReplayScore(InitialState(), events);
    ReplayHistory(InitialState(), events);
    NewestFirstLength(events);
  }

  /** The component: its persisted state and the three UI state cells. */
  class App {
    var state: LawnState
    var isLoading: bool
    var isGeneratingImage: bool
    var activeTab: Tab

    /** Mounting the component. `saved` is the state read back from local
        storage, when there was one. */
    constructor (saved: Option<LawnState>)
      ensures saved.Some? ==> state == saved.value
      ensures saved.None? ==> state == InitialState()
      ensures !isLoading && !isGeneratingImage && activeTab == Dashboard
    {
      state := if saved.Some? then saved.value else InitialState();
      isLoading := false;
      isGeneratingImage := false;
      activeTab := Dashboard;
    }

    /** handleUpdateProfile up to the awaited request. */
    method BeginUpdateProfile()
      modifies this`isLoading
      ensures isLoading
    {
      isLoading := true;
    }

    /** handleUpdateProfile once the request settles: on success the profile
        and recommendation are replaced and the dashboard is shown; on
        failure nothing but the loading flag changes. */
    method CompleteUpdateProfile(newProfile: UserProfile, outcome: Result<FertilizerRecommendation, string>)
      modifies this`state, this`activeTab, this`isLoading
      ensures !isLoading
      ensures outcome.Success? ==> state == WithProfileAndRecommendation(old(state), newProfile, outcome.value)
      ensures outcome.Success? ==> activeTab == Dashboard
      ensures outcome.Failure? ==> state == old(state) && activeTab == old(activeTab)
    {
      if outcome.Success? {
        state := WithProfileAndRecommendation(state, newProfile, outcome.value);
        activeTab := Dashboard;
      }
      isLoading := false;
    }

    /** handleRefreshImage up to the awaited request; the profile it sends
        is the one current when the handler starts. */
    method BeginRefreshImage() returns (sent: UserProfile)
      modifies this`isGeneratingImage
      ensures isGeneratingImage
      ensures sent == state.profile
    {
      isGeneratingImage := true;
      sent := state.profile;
    }

    /** handleRefreshImage once the request settles: the image is replaced
        only by a non-empty string; a null result or a failure leaves the
        state as it was. */
    method CompleteRefreshImage(outcome: Result<Option<string>, string>)
      modifies this`state, this`isGeneratingImage
      ensures !isGeneratingImage
      ensures outcome.Success? && Truthy(outcome.value) ==> state == WithImage(old(state), outcome.value.value)
      ensures !(outcome.Success? && Truthy(outcome.value)) ==> state == old(state)
    {
      if outcome.Success? && Truthy(outcome.value) {
        state := WithImage(state, outcome.value.value);
      }
      isGeneratingImage := false;
    }

    /** The whole of handleRefreshImage with the image service's
        generateLawnVisualization in place of the awaited call; `call` is
        what the service's own request gave. The service never rejects, so
        the App's catch branch is not taken, and the image changes exactly
        when the response holds an inline image. */
    method RefreshImage(call: Result<GeminiService.GenerateContentResponse, string>) returns (sent: UserProfile)
      modifies this`state, this`isGeneratingImage
      ensures sent == old(state).profile
      ensures !isGeneratingImage
      ensures call.Success? && GeminiService.ImageFromParts(GeminiService.PartsOf(call.value)).Some? ==>
                state == WithImage(old(state), GeminiService.ImageFromParts(GeminiService.PartsOf(call.value)).value)
      ensures call.Failure? || GeminiService.ImageFromParts(GeminiService.PartsOf(call.value)).None? ==>
                state == old(state)
    {
      sent := BeginRefreshImage();
      var image := GeminiService.GenerateLawnVisualization(call);
      if call.Success? {
        ServiceImagesAreTruthy(GeminiService.PartsOf(call.value));
      }
      CompleteRefreshImage(Success(image));
    }

    /** handleApplyFertilizer, with the two clock readings as parameters. */
    method ApplyFertilizer(product: string, nowMillis: nat, nowIso: string)
      modifies this`state
      ensures state == ApplyLog(old(state), NewLog(product, nowMillis, nowIso))
      ensures state.history[1..] == old(state.history)
      ensures state.history[0].productUsed == product && state.profile.lastFertilized == Some(nowIso)
    {
      state := ApplyLog(state, NewLog(product, nowMillis, nowIso));
    }
  }

  /** A fresh installation saves a profile, applies the recommended product
      and refreshes the image; the dashboard then shows the recommendation's
      product name and N-P-K ratio as the service returned them, a score of
      80 and one log. A later failed save changes nothing. */
  method FreshInstallScenario(profile: UserProfile, rec: FertilizerRecommendation, image: string)
    returns (shownProduct: string, shownRatio: string, score: int, logs: nat)
    requires image != ""
    ensures shownProduct == rec.productName && shownRatio == rec.npkRatio
    ensures score == 80 && logs == 1
  {
    var app := new App(None);
    assert app.state.profile == DefaultProfile && app.state.healthScore == 75;
    app.BeginUpdateProfile();
    assert app.isLoading;
    app.CompleteUpdateProfile(profile, Success(rec));
    assert !app.isLoading && app.activeTab == Dashboard;
    app.ApplyFertilizer(app.state.recommendation.value.productName, 1700000000000, "2023-11-14T22:13:20.000Z");
    var sent := app.BeginRefreshImage();
    assert sent.lastFertilized == Some("2023-11-14T22:13:20.000Z");
    app.CompleteRefreshImage(Success(Some(image)));
    assert app.state.lawnImage == Some(image);
    app.BeginUpdateProfile();
    app.CompleteUpdateProfile(DefaultProfile, Failure("network"));
    assert app.state.profile == sent && app.state.lawnImage == Some(image);
    shownProduct := app.state.recommendation.value.productName;
    shownRatio := app.state.recommendation.value.npkRatio;
    score := app.state.healthScore;
    logs := |app.state.history|;
  }
}
