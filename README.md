# Restaurant ad display — pairing, playback and admin screens in Dafny

This project models the core of a React Native application that turns a
screen into a signage display showing a restaurant's playlist of images and
videos, and lets an administrator pair displays and upload media. The
modelled parts are:

- the application state (`AppContext`): the device's role, the signed-in
  admin's id, the display's device token and the last playlist, and how each
  is mirrored into the persistent key-value store (`app_context.dfy`,
  class `AppState.AppContext`);
- the root navigator, which picks the registered screens from that state
  (`navigator.dfy`);
- the display's pairing screen: one code request, then a 5-second poll that
  hands the device token to the application state (`pairing.dfy`: pure
  transition functions plus the class `Pairing.DisplaySetupScreen` whose
  methods are proved to follow them);
- the display's player: config refresh with 403/404 unpairing, the cyclic
  playlist cursor, the image timer, the heartbeat and the rendering choice
  (`player.dfy`, same structure, class `Player.PlayerScreen`);
- the admin screens that sign in, claim a pairing code and upload media
  (`admin_login.dfy`, `add_device.dfy`, `upload_media.dfy`);
- the JavaScript string operations those screens rely on — truthiness,
  `trim`, `split`/`join`, `replace` of the first occurrence, `startsWith`,
  decimal rendering of a timestamp (`js_text.dfy`);
- the shared records (`types.dfy`).

Timers, network answers, picker results and storage reads are not executed:
each timer expiry, response or user action is one method call whose outcome
is a parameter. React state setters become field assignments of the screen's
class, and the application-wide store is a `map<string, string>` field.

`fetchConfig` replaces the playlist without resetting `currentIndex`
(src/screens/Display/PlayerScreen.tsx, lines 36-38). When the new playlist
is shorter than the cursor, rendering and the image-timer effect read past
the end of the sequence (`Player.ShorterPlaylistStrandsCursor`).

## Model

| member | source | states |
|---|---|---|
| JsText.Trim | src/screens/Admin/AdminLoginScreen.tsx:18 | `trim` removes white space only, and only at the two ends: the result is a slice of the text with white space before and after it, and it neither starts nor ends with white space |
| JsText.TrimEmptyIffAllSpace | src/screens/Admin/AdminLoginScreen.tsx:18-23 | trimming leaves nothing exactly when every character is trimmable white space |
| JsText.Blank | src/screens/Admin/AdminLoginScreen.tsx:23 | `!s.trim()` holds exactly when every character of `s` is white space |
| JsText.Split | src/screens/Admin/UploadMediaScreen.tsx:88 | `split` always yields at least one part (its inverse is `Join`; see the next rows) |
| JsText.StartsWith | src/screens/Admin/UploadMediaScreen.tsx:113 | `startsWith` holds exactly when the text is the prefix followed by some text |
| JsText.Utf16Length | src/screens/Admin/AddDeviceScreen.tsx:16 | `length` counts UTF-16 code units: at least the number of characters and at most twice that |
| JsText.Utf16LengthAppend | src/screens/Admin/AddDeviceScreen.tsx:16 | the length of a concatenation is the sum of the lengths |
| JsText.Utf16LengthIsCountIffBasicPlane | src/screens/Admin/AddDeviceScreen.tsx:16 | `length` equals the number of characters exactly when no character needs a surrogate pair |
| JsText.SplitJoin | src/screens/Admin/UploadMediaScreen.tsx:88 | joining the parts of `split('/')` gives the text back, and no part holds the separator |
| JsText.JoinSplit | src/screens/Admin/UploadMediaScreen.tsx:88 | splitting the join of separator-free parts gives the same parts back |
| JsText.SplitAtFirst | src/screens/Admin/UploadMediaScreen.tsx:88 | the text before the first separator is the first part, and the rest is split independently |
| JsText.SplitNoSeparator | src/screens/Admin/UploadMediaScreen.tsx:88 | text without the separator splits into exactly itself |
| JsText.IndexOfFrom | src/screens/Admin/UploadMediaScreen.tsx:85 | the result is an occurrence at or after the start position with none before it, or no result when there is no such occurrence |
| JsText.ReplaceFirst | src/screens/Admin/UploadMediaScreen.tsx:85 | string `replace` changes only the first occurrence, and text without one is left unchanged |
| JsText.Decimal | src/screens/Admin/UploadMediaScreen.tsx:89 | a timestamp renders as a non-empty string of digits with no leading zero |
| JsText.DecimalRoundTrip | src/screens/Admin/UploadMediaScreen.tsx:89 | the rendered digits read back to the same number |
| AppState.MirrorInto | src/context/AppContext.tsx:56-72 | a non-empty value is stored under its key, a null or empty one removes the key, and other keys are untouched |
| AppState.AppContext.constructor | src/context/AppContext.tsx:22-27 | the initial state is mode "unset", no user, no token, no playlist, loading |
| AppState.AppContext.LoadStorage | src/context/AppContext.tsx:33-49 | each field takes a non-empty stored value and keeps its value otherwise; a failed read changes nothing; a malformed playlist keeps the other three fields; loading always ends |
| AppState.AppContext.SetMode | src/context/AppContext.tsx:51-54 | the mode is set and written under "app_mode"; nothing else changes |
| AppState.AppContext.SetUserId | src/context/AppContext.tsx:56-63 | the id is set, the store mirrors it under "user_id", and nothing else changes |
| AppState.AppContext.SetDeviceToken | src/context/AppContext.tsx:65-72 | the token is set, the store mirrors it under "device_token", and nothing else changes |
| AppState.AppContext.SetCurrentPlaylist | src/context/AppContext.tsx:26 | only the in-memory playlist changes; the store does not |
| AppState.AppContext.Logout | src/context/AppContext.tsx:74-80 | the store is emptied, every field is reset, and `isLoading` is kept |
| Navigation.Screens | src/navigation/AppNavigator.tsx:32-73 | a spinner exactly while loading; otherwise the player is registered iff a display holds a token, pairing iff unset or a display without a token, and the dashboard iff admin; never player and pairing together; no screen twice |
| Navigation.RegisteredScreens | src/navigation/AppNavigator.tsx:51-73 | the exact screen list of each role |
| Navigation.UserIdIrrelevant | src/navigation/AppNavigator.tsx:33 | the user id never changes the screen set |
| Navigation.TokenHandoff | src/navigation/AppNavigator.tsx:65-71 | for a display, a token gives exactly the player and no token gives exactly the pairing screen |
| Player.Fetch | src/screens/Display/PlayerScreen.tsx:30-56 | no token: nothing happens. Otherwise loading ends and the cursor stays. A playlist replaces the held one and clears the error. A missing playlist, 403/404 or another failure keeps the held playlist and sets its own message. Only 403/404 schedules token clearing, 2000 ms later |
| Player.LoadingNeverReturns | src/screens/Display/PlayerScreen.tsx:53-55 | once loading has ended, no fetch brings it back |
| Player.ShorterPlaylistStrandsCursor | src/screens/Display/PlayerScreen.tsx:37-70 | a fetched playlist shorter than the cursor leaves the cursor out of bounds, and both rendering and the timer effect fault |
| Player.FetchKeepsCursorInBounds | src/screens/Display/PlayerScreen.tsx:36-41 | the cursor stays in bounds when the new playlist, if any, still covers it |
| Player.NextIndex | src/screens/Display/PlayerScreen.tsx:82 | the next index is in bounds: the successor, or 0 after the last asset |
| Player.NextAsset | src/screens/Display/PlayerScreen.tsx:80-83 | no playlist: nothing changes; otherwise only the cursor moves, cyclically, and ends in bounds |
| Player.AdvanceTimes | src/screens/Display/PlayerScreen.tsx:80-83 | repeated advances keep playlist, loading and error, and leave the cursor in bounds |
| Player.AdvanceTimesSplit | src/screens/Display/PlayerScreen.tsx:80-83 | a+b advances equal a advances followed by b advances |
| Player.AdvanceWithoutWrap | src/screens/Display/PlayerScreen.tsx:82 | before the end is reached, k advances add k to the cursor |
| Player.AdvanceToWrap | src/screens/Display/PlayerScreen.tsx:82 | from cursor i, n-i advances wrap to 0 |
| Player.FullCycle | src/screens/Display/PlayerScreen.tsx:80-83 | n advances through an n-asset playlist return to the starting state |
| Player.AdvanceNeverRepeats | src/screens/Display/PlayerScreen.tsx:111-125 | with two or more assets, a skip or an end always moves to a different asset |
| Player.ImageDelayMs | src/screens/Display/PlayerScreen.tsx:71 | an image with no duration is shown for 10000 ms, otherwise for its duration × 1000 |
| Player.ImageDelayPositive | src/screens/Display/PlayerScreen.tsx:71-74 | an image with a non-negative duration stays on screen for at least 1000 ms |
| Player.AdvanceTimer | src/screens/Display/PlayerScreen.tsx:64-78 | a timer is armed iff the current asset is an image, with that image's delay; nothing for video or an empty playlist; a fault iff the cursor is past the end |
| Player.RepeatingTimers | src/screens/Display/PlayerScreen.tsx:18-62 | the 60 s refresh is always armed; the 30 s heartbeat is armed iff a token is held |
| Player.Render | src/screens/Display/PlayerScreen.tsx:85-106 | loading shows the spinner. An error or an empty playlist shows a message: the error's text, or "Waiting for content...". Otherwise the asset under the cursor is shown, or the screen faults when the cursor is past the end |
| Player.ErrorHidesHeldPlaylist | src/screens/Display/PlayerScreen.tsx:94-100 | after a failed refresh the kept playlist is not shown; the error message is |
| Player.PlayerScreen.constructor | src/screens/Display/PlayerScreen.tsx:12-15 | the player starts with no playlist, cursor 0, loading, and no error |
| Player.PlayerScreen.FetchConfig | src/screens/Display/PlayerScreen.tsx:31-56 | the new state and the scheduled unpairing are those of `Fetch` |
| Player.PlayerScreen.OnMediaSignal | src/screens/Display/PlayerScreen.tsx:111-125 | each media signal (image timer, video end, either render error) advances the state as `NextAsset` does |
| Player.PlayerScreen.HeartbeatTick | src/screens/Display/PlayerScreen.tsx:21-24 | a report goes out iff a token is held, with status "playing" and version "1.0.0"; playback is untouched |
| Player.UnpairTimerFired | src/screens/Display/PlayerScreen.tsx:47-49 | the token is cleared from the state and its key removed from the store; the other keys, the mode, the user id, the playlist and `isLoading` are unchanged; a display falls back to the pairing screen |
| Pairing.CodeGenerated | src/screens/Display/DisplaySetupScreen.tsx:26-46 | the code is shown, the status is "Waiting for pairing...", and an interval starts that polls with that code every 5000 ms |
| Pairing.CodeGenerationFailed | src/screens/Display/DisplaySetupScreen.tsx:48-51 | the status becomes the error message and no timer is started |
| Pairing.Poll | src/screens/Display/DisplaySetupScreen.tsx:32-46 | an idle timer does nothing. A live one sends the captured code. A token stops the interval and is handed over. Otherwise a message becomes the status, nothing else changes it, and errors are swallowed |
| Pairing.Regenerate | src/screens/Display/DisplaySetupScreen.tsx:79-85 | the code and status are reset while the timer is left as it was |
| Pairing.Teardown | src/screens/Display/DisplaySetupScreen.tsx:56-58 | unmounting clears a live interval and nothing else |
| Pairing.IdleTicksDoNothing | src/screens/Display/DisplaySetupScreen.tsx:36-37 | with no live interval, any number of ticks sends nothing and changes nothing |
| Pairing.UnclaimedKeepsPolling | src/screens/Display/DisplaySetupScreen.tsx:32-46 | until a token arrives, each tick sends the captured code once, the interval stays live, and nothing is handed over |
| Pairing.UnclaimedPollsEveryPeriod | src/screens/Display/DisplaySetupScreen.tsx:26-46 | after a successful code request and until a token arrives, the interval keeps polling with that code every 5000 ms |
| Pairing.TokenEndsPolling | src/screens/Display/DisplaySetupScreen.tsx:36-38 | a token is handed over exactly once, and no request follows it |
| Pairing.FailedGenerationNeverPolls | src/screens/Display/DisplaySetupScreen.tsx:48-51 | after a failed code request no poll is ever sent and the error status stays |
| Pairing.EarlyTeardownLeaksPoll | src/screens/Display/DisplaySetupScreen.tsx:54-58 | leaving the screen before the code arrives does not stop the interval from starting |
| Pairing.RegenerateKeepsOldCode | src/screens/Display/DisplaySetupScreen.tsx:79-85 | after "Regenerate Code" the poll still sends the old code |
| Pairing.DisplaySetupScreen.constructor | src/screens/Display/DisplaySetupScreen.tsx:16-17 | the screen starts with no code, status "Generating code...", and no timer |
| Pairing.DisplaySetupScreen.SetupSucceeded | src/screens/Display/DisplaySetupScreen.tsx:26-32 | the new state is `CodeGenerated`'s, and the timer starts only after the code request |
| Pairing.DisplaySetupScreen.SetupFailed | src/screens/Display/DisplaySetupScreen.tsx:48-51 | the new state is `CodeGenerationFailed`'s |
| Pairing.DisplaySetupScreen.PollTick | src/screens/Display/DisplaySetupScreen.tsx:33-45 | the step is `Poll`'s; a token is mirrored into the application state and store, after which a display shows the player; otherwise the token and store are untouched; mode, user id, playlist and `isLoading` never change |
| Pairing.DisplaySetupScreen.RegenerateCode | src/screens/Display/DisplaySetupScreen.tsx:79-85 | the new state is `Regenerate`'s |
| Pairing.DisplaySetupScreen.Unmount | src/screens/Display/DisplaySetupScreen.tsx:56-58 | the new state is `Teardown`'s |
| AddDevice.ClaimGuard | src/screens/Admin/AddDeviceScreen.tsx:16-21 | a code is rejected iff its length in UTF-16 code units is not 6; with no user the claim stops silently; otherwise the code is claimed for that user |
| AddDevice.OnlyLengthIsChecked | src/screens/Admin/AddDeviceScreen.tsx:16 | six non-digit characters pass the guard, and five digits do not |
| AddDevice.SurrogatePairsCountTwice | src/screens/Admin/AddDeviceScreen.tsx:16 | a character outside the Basic Multilingual Plane counts twice: three such characters pass, as does one followed by four digits, and one followed by five digits is rejected |
| AddDevice.AddDeviceScreen.constructor | src/screens/Admin/AddDeviceScreen.tsx:12-13 | the screen starts with an empty code, not loading |
| AddDevice.AddDeviceScreen.EditCode | src/screens/Admin/AddDeviceScreen.tsx:56 | the input replaces the code |
| AddDevice.AddDeviceScreen.HandleClaim | src/screens/Admin/AddDeviceScreen.tsx:15-23 | the step is the guard's, and loading starts only when a claim is sent |
| AddDevice.AddDeviceScreen.ClaimSettled | src/screens/Admin/AddDeviceScreen.tsx:24-34 | the success or failure alert is shown, and loading ends either way |
| AdminLogin.Validate | src/screens/Admin/AdminLoginScreen.tsx:18-37 | the submission is rejected iff a field the form uses is blank after trimming, with the matching alert; otherwise a login or registration request carries the untrimmed fields |
| AdminLogin.LoginIgnoresName | src/screens/Admin/AdminLoginScreen.tsx:32-33 | in login mode the name never matters |
| AdminLogin.SpacesAreBlank | src/screens/Admin/AdminLoginScreen.tsx:18-21 | an email of spaces only is rejected as "fill in all fields" |
| AdminLogin.Decide | src/screens/Admin/AdminLoginScreen.tsx:39-49 | access is granted iff the answer says `isAdmin`, and the answer's id is then used; otherwise "Authentication failed", or the server's message when one is sent |
| AdminLogin.AdminLoginScreen.constructor | src/screens/Admin/AdminLoginScreen.tsx:9-13 | the screen starts in login mode with empty fields, not loading |
| AdminLogin.AdminLoginScreen.EditFields | src/screens/Admin/AdminLoginScreen.tsx:63-88 | the three inputs replace the fields |
| AdminLogin.AdminLoginScreen.ToggleForm | src/screens/Admin/AdminLoginScreen.tsx:105 | the login/register switch flips the mode and nothing else |
| AdminLogin.AdminLoginScreen.Submit | src/screens/Admin/AdminLoginScreen.tsx:17-28 | the step is `Validate`'s, and loading starts only when a request is sent |
| AdminLogin.AdminLoginScreen.SubmitSettled | src/screens/Admin/AdminLoginScreen.tsx:39-52 | an admin answer stores the id and mode "admin" (token, playlist and `isLoading` kept), which brings up the dashboard; any other answer shows an alert and leaves the context unchanged; loading ends |
| UploadMedia.AfterPick | src/screens/Admin/UploadMediaScreen.tsx:34-52 | a cancel is ignored and a picker error is reported with its message or a default. A throw gives the generic alert. The first asset is uploaded iff there is one; with no asset nothing happens |
| UploadMedia.Extension | src/screens/Admin/UploadMediaScreen.tsx:88 | the extension is never empty and holds no "/"; a type without "/" gives "jpg" |
| UploadMedia.ExtensionOfMimeType | src/screens/Admin/UploadMediaScreen.tsx:88 | "top/sub" and "top/sub/…" give "sub", or "jpg" when "sub" is empty |
| UploadMedia.FileName | src/screens/Admin/UploadMediaScreen.tsx:89 | the asset's own name wins; otherwise the name starts with "upload_" and ends with "." and the extension |
| UploadMedia.GeneratedNameHoldsTimestamp | src/screens/Admin/UploadMediaScreen.tsx:89 | the generated name embeds the timestamp's digits, which read back to the timestamp |
| UploadMedia.CleanUri | src/screens/Admin/UploadMediaScreen.tsx:82-85 | Android keeps the URI; elsewhere the first "file://" is removed |
| UploadMedia.CleanUriDropsLeadingScheme | src/screens/Admin/UploadMediaScreen.tsx:85 | off Android, a leading "file://" is removed and the rest is kept verbatim, later occurrences included |
| UploadMedia.ResourceType | src/screens/Admin/UploadMediaScreen.tsx:113 | "video" iff the type starts with "video", otherwise "image" |
| UploadMedia.UploadUrl | src/screens/Admin/UploadMediaScreen.tsx:114 | the upload URL starts with the Cloudinary API base |
| UploadMedia.UploadUrlJoins | src/screens/Admin/UploadMediaScreen.tsx:114 | the URL is its seven path segments joined by "/" |
| UploadMedia.UploadUrlSegments | src/screens/Admin/UploadMediaScreen.tsx:114 | the cloud name and resource type are recovered as the URL's fifth and sixth segments |
| UploadMedia.NamesAgreeIffAssetNamed | src/screens/Admin/UploadMediaScreen.tsx:89-151 | the metadata's original file name equals the uploaded file's name exactly when the asset has its own name; otherwise it reads "unknown" and the file is named `upload_<timestamp>.<extension>` |
| UploadMedia.ProgressPercent | src/screens/Admin/UploadMediaScreen.tsx:123 | the percentage is the exact ratio `loaded/total × 100` rounded to the nearest integer, halves upwards |
| UploadMedia.ProgressBounds | src/screens/Admin/UploadMediaScreen.tsx:121-125 | nothing sent is 0%, everything sent is 100%, and the percentage never exceeds 100 |
| UploadMedia.PlanUpload | src/screens/Admin/UploadMediaScreen.tsx:77-89 | an asset without URI or type is rejected; otherwise every derived name comes from it |
| UploadMedia.UploadMediaScreen.constructor | src/screens/Admin/UploadMediaScreen.tsx:13-15 | the screen starts not loading, at 0%, with no uploaded asset |
| UploadMedia.UploadMediaScreen.HandleUpload | src/screens/Admin/UploadMediaScreen.tsx:21-25 | the picker opens iff a user is signed in; with no user an alert is shown instead; the screen does not change |
| UploadMedia.UploadMediaScreen.BeginUpload | src/screens/Admin/UploadMediaScreen.tsx:72-79 | loading starts at 0%; an invalid asset shows the upload-failed alert and resets at once |
| UploadMedia.UploadMediaScreen.OnProgress | src/screens/Admin/UploadMediaScreen.tsx:121-125 | only an event of known length sets the rounded percentage |
| UploadMedia.UploadMediaScreen.UploadSettled | src/screens/Admin/UploadMediaScreen.tsx:155-163 | success keeps the asset and says so; failure gives the failed alert; loading ends and progress returns to 0 either way |
| UploadMedia.UploadMediaScreen.UploadAnother | src/screens/Admin/UploadMediaScreen.tsx:188 | "Upload Another" forgets the uploaded asset and nothing else |

## Left out

- Timers, promises and concurrency: each timer expiry, response or event is one atomic method call, applied in the order the caller chooses. Interleavings, such as two config fetches in flight at once or a state update after unmount (which React drops), are not modelled.
- The network layer (`src/api/endpoints.ts`) is not part of this model. Each request is reduced to its outcome: a response, an HTTP status, or a failure without a response.
- The persistent store is an in-memory map. Its writes are assumed to succeed. Its reads fail only as a whole (`LoadStorage`'s `readFailed`). `JSON.parse` of the stored playlist is a parameter: a value, or malformed text.
- `AppState.AppContext.LoadStorage`: the four awaited reads are collapsed into one step. All four reads come before any assignment, so a failing read (`readFailed`) changes no field. The only failure after a field was set is a malformed stored playlist, which the model covers.
- `Player.NextAsset` requires a non-empty sequence when a playlist is held. With an empty sequence `% 0` yields NaN, but no caller can reach that case: the screen neither renders nor arms a timer for an empty sequence.
- `Player.ImageDelayMs`: `playback_duration` is an integer. A missing, NaN or fractional duration is not modelled; the `|| 10` fallback is taken only for 0.
- Heartbeat timestamps, the heartbeat's failure logging and its answer: the heartbeat is modelled as the report it sends.
- The upload request itself: the signature request, the form data and the saved metadata are reduced to a single success or failure. The file sent is a fixed placeholder image URL (src/screens/Admin/UploadMediaScreen.tsx:107), so the clean URI and the file name are computed but only logged. The model computes them all the same.
- UploadMedia.ProgressPercent: rounds the exact ratio, while the code rounds the floating-point value `(loaded / total) * 100`. Near a half the two can differ: for 23 of 40 the double is 57.49999999999999, so the code shows 57 and the model 58. The bounds in `UploadMedia.ProgressBounds` hold for both.
- UploadMedia.UploadMediaScreen.OnProgress: stores `ProgressPercent`, so it inherits that near-half rounding difference.
- `UploadMedia.UploadMediaScreen.OnProgress` requires a positive total whenever the length is known. The code does not guard against a zero total.
- Media permission requests (`requestMediaPermissions`), rendering and styling, navigation `goBack` calls, and the disabled state of buttons while loading.
- The screens outside the core are not part of this model: role selection, the admin dashboard, playlist creation and playlist assignment.
- Alerts are values returned to the caller. Alert buttons, including the success alert's back navigation, are not modelled.
