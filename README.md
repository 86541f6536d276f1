# LawnGuardian lawn-state model

A Dafny model of the state logic of the LawnGuardian single-page app. The app
keeps one persisted `LawnState`, which holds a lawn profile, a most-recent-first
history of fertilizer applications, an optional AI recommendation, an integer
health score and an optional AI-generated image. Three user intents update it:

- **apply fertilizer** prepends a log, adds 5 to the score (capped at 100) and stamps the profile's last-fertilized date;
- **save profile** asks the recommendation service for a recommendation and, on success, replaces the profile and the recommendation and shows the dashboard;
- **refresh image** asks the image service for a picture and replaces the stored image only when a non-empty one comes back.

Modules:

- `Wrappers`: `Option` and `Result` (a settled promise: resolved value or rejection).
- `Types`: the enumerations and records of `types.ts`, and the strings the enumeration members carry.
- `Constants`: `DefaultProfile` and the four `Badges`.
- `LawnStats`: the gauge split and the badge unlock flags, as pure functions of history length and score.
- `GeminiService`: the text of both prompts, including the "Unknown" and "Never recorded" fallbacks. It also holds the search of an image response for its first inline image and the data-URI encoding. The remote call is an input: an outcome `Result<GenerateContentResponse, string>`.
- `LawnApp`: the three `setState` updaters as functions `LawnState -> LawnState`. It also holds a replay of any sequence of settled updates, with lemmas about history and score, and class `App`. `App` has the component's four state cells as fields. Each asynchronous handler is split into a `Begin…` step, which sets its loading flag, and a `Complete…` step, which takes the settled outcome.

Inputs the model takes as parameters:

- the clock: `Date.now()` becomes `nowMillis: nat`, rendered in decimal as the log id; `new Date().toISOString()` becomes `nowIso`; the prompt's locale date becomes `today`;
- the state read back from local storage: the constructor's `saved` argument;
- the outcomes of the two remote calls.

Three behaviours of the source worth knowing:

- Loading saved state: App.tsx:14 calls `JSON.parse` on the saved text without a guard, so corrupt saved data throws. The model takes an already-parsed `Option<LawnState>`.
- Image service errors: `generateLawnVisualization` catches every error and returns null (services/geminiService.ts:69-72). So the App's catch at App.tsx:56-57 is never reached through it. `App.RefreshImage` composes the two and states this.
- Score range: the score is only capped at 100 on increment (App.tsx:74). A saved score is taken as is, and a saved score above 100 drops to 100 on the next application. "Never decreases" is therefore stated for scores up to 100.

## Model

| member | source | states |
|---|---|---|
| Types.EnumTextsInjective | types.ts:2-19 | distinct members of each enumeration carry distinct strings |
| Types.EnumTextsRoundTrip | types.ts:2-19 | each enumeration member's string value, read back by value, gives that member |
| Constants.BadgeIdsDistinct | constants.ts:12-17 | there are four badges and no two share an id |
| LawnStats.GaugeData | components/LawnStats.tsx:16-19 | two entries, 'Score' carrying the score and 'Remaining'; their values sum to 100; 'Remaining' is non-negative when score <= 100 and at most 100 when score >= 0 |
| LawnStats.IsUnlocked | components/LawnStats.tsx:102-104 | a badge can be unlocked only if its id is first_step, green_thumb or consistency_king |
| LawnStats.BadgeFlags | components/LawnStats.tsx:101-116 | exactly one flag per badge, in the badges' order, each the unlock test of that badge's id |
| LawnStats.UnlockFlagsAre | components/LawnStats.tsx:101-104 | over the badge constants the flags are [historyLength > 0, score >= 90, false, historyLength >= 3] |
| LawnStats.FirstStepUnlockedIff | components/LawnStats.tsx:102 | first_step unlocked iff historyLength > 0; locked at 0, unlocked at 1 |
| LawnStats.GreenThumbUnlockedIff | components/LawnStats.tsx:103 | green_thumb unlocked iff score >= 90; locked at 89, unlocked at 90 |
| LawnStats.ConsistencyKingUnlockedIff | components/LawnStats.tsx:104 | consistency_king unlocked iff historyLength >= 3; locked at 2, unlocked at 3 |
| LawnStats.EcoWarriorNeverUnlocked | components/LawnStats.tsx:102-104 | eco_warrior is locked for every history length and score |
| LawnStats.ConsistencyKingImpliesFirstStep | components/LawnStats.tsx:102-104 | consistency_king unlocked implies first_step unlocked |
| GeminiService.LocationText | services/geminiService.ts:13 | the text is "Unknown" exactly when there is no location; otherwise "Lat <lat>, Lng <lng>" |
| GeminiService.LastFertilizedText | services/geminiService.ts:14 | never empty; "Never recorded" for null or the empty string; otherwise the stored date |
| GeminiService.LocationLine | services/geminiService.ts:13 | the prompt's location line reads "Unknown" exactly when the profile has no location |
| GeminiService.LastFertilizedLine | services/geminiService.ts:14 | the line reads "Never recorded" exactly when the date is null, empty or the literal text "Never recorded" |
| GeminiService.PromptLines | services/geminiService.ts:8-19 | ten template lines; the interpolated lines carry grass type, soil type, condition, location line, last-fertilized line and today's date |
| GeminiService.PromptLinesDetermineProfile | services/geminiService.ts:10-13 | equal prompt lines imply equal grass type, soil type and condition and the same presence of a location |
| GeminiService.JoinLines | services/geminiService.ts:8-19 | the lines joined by newlines: empty for no lines; otherwise starts with the first line, and its length is the lines' total length plus one per gap |
| GeminiService.SplitJoinLines | services/geminiService.ts:8-19 | splitting the joined text at its newlines gives back exactly the lines, when no line contains a newline |
| GeminiService.RecommendationPrompt | services/geminiService.ts:8-19 | the template text is the newline join of an empty opening line, the ten prompt lines and a closing line of two spaces of indentation |
| GeminiService.RecommendationPromptLines | services/geminiService.ts:8-19 | splitting the prompt at its newlines gives exactly the empty opening line, the ten prompt lines and the two-space closing line, when no interpolated value contains a newline |
| GeminiService.VisualizationPrompt | services/geminiService.ts:50 | the fixed lead text, then the grass type's string, the fixed middle, the condition's string and the fixed tail |
| GeminiService.VisualizationPromptReadsGrassAndCondition | services/geminiService.ts:50 | the image prompt depends only on grass type and condition |
| GeminiService.VisualizationPromptDeterminesGrassAndCondition | services/geminiService.ts:50 | equal image prompts imply equal grass type and condition |
| GeminiService.PartsOf | services/geminiService.ts:63 | missing candidates, an empty candidate list, or missing content or parts give the empty part list; otherwise the first candidate's parts |
| GeminiService.DataUri | services/geminiService.ts:65 | the URI starts with "data:image/png;base64," followed by the payload |
| GeminiService.ImageFromParts | services/geminiService.ts:63-68 | any image found begins with the data-URI prefix |
| GeminiService.ImageFromPartsIsFirstInline | services/geminiService.ts:63-66 | when part k is the first with inline data, the image is the data URI of part k's data; later parts are ignored |
| GeminiService.ImageFromPartsNoneIff | services/geminiService.ts:63-68 | the result is null exactly when no part has inline data |
| GeminiService.MissingPartsYieldNoImage | services/geminiService.ts:63 | a response without candidates, content or parts yields null |
| GeminiService.GenerateLawnVisualization | services/geminiService.ts:52-72 | a failed call gives null, never an error; a successful one gives the first inline image of the first candidate's parts, found by the loop |
| LawnApp.InitialState | App.tsx:15-21 | default profile, empty history, no recommendation, score 75, no image; score in range |
| LawnApp.DecimalText | App.tsx:65 | the log id is a non-empty string of decimal digits with no leading zero |
| LawnApp.DecimalTextRoundTrip | App.tsx:65 | the log id reads back as the clock value it was made from |
| LawnApp.NewLog | App.tsx:64-69 | the log's product is the argument, its notes the fixed text, its date the ISO timestamp, its id the decimal clock value |
| LawnApp.ApplyLog | App.tsx:71-76 | history grows by one with the log in front of the unchanged old history; score becomes min(100, old + 5), never decreasing from a score up to 100 and staying at or below 100; only lastFertilized changes in the profile, to the log's date; recommendation and image unchanged |
| LawnApp.WithProfileAndRecommendation | App.tsx:36-40 | profile and recommendation replaced by the new ones; history, score and image unchanged |
| LawnApp.WithImage | App.tsx:54 | the image is replaced; every other field is unchanged |
| LawnApp.Truthy | App.tsx:53 | null is falsy; a string is truthy exactly when it is non-empty |
| LawnApp.ScoreClampExamples | App.tsx:74 | 98 becomes 100, 100 stays 100, 75 becomes 80 |
| LawnApp.ImageUpdateCommutes | App.tsx:54 | the image update commutes with the profile-and-recommendation update and with applying fertilizer |
| LawnApp.ServiceImagesAreTruthy | App.tsx:53 | every image the service produces passes the `if (img)` guard |
| LawnApp.NewestFirstLength | App.tsx:73 | a run adds exactly one log per application |
| LawnApp.ReplayHistory | App.tsx:73 | after any run of updates the history is the new logs, latest first, followed by the old history unchanged |
| LawnApp.ReplayScore | App.tsx:74 | after any run, starting at or below 100, the score is min(100, old + 5 x applications) and never below the old score |
| LawnApp.ThreeApplicationsNewestFirst | App.tsx:73 | applying A, B, then C yields [C, B, A] before the old history |
| LawnApp.FromInitialState | App.tsx:15-21 | from a fresh install the score stays in [75, 100], equals min(100, 75 + 5 x applications), and the history is exactly the logs, newest first |
| LawnApp.App.constructor | App.tsx:12-26 | state is the saved state if any, else the initial state; both loading flags false; dashboard tab |
| LawnApp.App.BeginUpdateProfile | App.tsx:33 | the loading flag is set while the request is in flight |
| LawnApp.App.CompleteUpdateProfile | App.tsx:34-46 | on success, profile and recommendation are replaced and the dashboard is shown; on failure, state and tab are untouched; in both cases the loading flag is cleared and the image flag is not touched |
| LawnApp.App.BeginRefreshImage | App.tsx:50-52 | the image flag is set, and the current profile is what is sent |
| LawnApp.App.CompleteRefreshImage | App.tsx:52-60 | the image is replaced only by a non-null, non-empty result; otherwise the state is untouched; the image flag is cleared |
| LawnApp.App.RefreshImage | App.tsx:49-61 | with the image service in place of the await: the profile sent is the one at the start; the image changes exactly when the response holds an inline image, to that image's data URI; a failed request leaves the state as it was; the image flag is cleared |
| LawnApp.App.ApplyFertilizer | App.tsx:63-76 | the new state is the apply-fertilizer update of the old one with the log built from the product and the clock readings |
| LawnApp.FreshInstallScenario | App.tsx:12-79 | from a fresh install, a successful save, one application and an image refresh, the dashboard shows the returned product name and N-P-K ratio, a score of 80 and one log; a later failed save changes nothing |

## Left out

- Rendering: JSX, CSS classes, the recharts gauge drawing, icons, `alert` (App.tsx:78) and `console.error`. These are presentation only.
- Persistence: `localStorage` reads and writes and `JSON.parse`/`JSON.stringify` (App.tsx:13-14, 28-30). These are browser I/O and library code. The constructor takes the parsed state as input. No load/save round trip and no corrupt-data fallback is claimed.
- Remote services: the Google GenAI requests (services/geminiService.ts:5, 21-44, 53-61) are foreign calls. Their outcomes are method inputs. `RecommendationPrompt` and `VisualizationPrompt` give the text each request would carry. The response schema (services/geminiService.ts:26-42) is only an option sent with the request. The source itself checks nothing: services/geminiService.ts:46 returns `JSON.parse(response.text)` as it comes.
- LawnApp.App.CompleteUpdateProfile and LawnApp.WithProfileAndRecommendation: assume the parsed response is a well-formed `FertilizerRecommendation` and store `Some(rec)`. In the source, a response text of `null` stores a null recommendation (App.tsx:39), and an object that lacks fields or has fields of other types is stored as it is. Neither case is modelled.
- Image mime type: the inline payload's `mimeType` is ignored, as in the source. Every image is labelled `image/png`.
- Tab switching by the navigation buttons and the "Configure Profile" button: each is a single field assignment, `setActiveTab`, with no logic.
- components/LawnForm.tsx (geolocation and form binding) and components/RecommendationCard.tsx (display; it passes `rec.productName` to the apply handler, which the model takes as the `product` argument) are not part of this model.
- Concurrency: the two async handlers can interleave, and `handleRefreshImage` can capture a stale `state.profile`. Completions are modelled only as sequential steps on the latest state. `BeginRefreshImage` returns the profile captured when the handler starts.
- Log ids: they are not claimed unique. Two applications within one millisecond get the same id.
- Numbers: latitude and longitude are floating point and kept opaque, as the text they print as. The clock is taken as a non-negative integer.
- Date formatting: `toISOString` and `toLocaleDateString` are parameters, not modelled.
