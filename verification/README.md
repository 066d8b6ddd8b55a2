# Text-to-speech app: home screen, synthesis handler and onboarding pager in Dafny

This project models the three pieces of logic in a React Native text-to-speech
app and its AWS Lambda. Everything else in the app is presentation.

- **Home screen** (`module Home`, `home.dfy`). A state machine over the
  record `{text, loading, audioAvailable, language, isPlaying, ticks, timerLive}`.
  - The events are typing, picking a language, pressing convert, the end of
    the simulated conversion, pressing play, and the progress interval firing.
  - Progress is a whole tick count `ticks` in `0..50`, and
    `Progress(s) = ticks / 50` as an exact `real`. Each firing of the 30 ms
    interval adds 0.02.
  - `timerLive` records that the interval is scheduled and has not been
    cleared.
  - The views are the enablement of the convert and play buttons, the spinner,
    the audio box and the empty-state hint. The 48-bar waveform is in
    `module Waveform` (`waveform.dfy`).
  - `Next` applies an event only when the screen can produce it in that state:
    - a disabled button cannot be pressed;
    - the conversion timeout is pending exactly while `loading`, because
      convert is ignored while loading and only the timeout clears it;
    - the interval fires only while scheduled.
  - `Run` folds a sequence of events over the state.
- **Synthesis handler** (`module Handler`, `handler.dfy`). `Handle` is a total
  function. It returns the HTTP response and the ordered list of external calls
  issued (`Synthesize`, `Put`). Its inputs are:
  - the parsed body, or the message of the exception that parsing threw;
  - the speech provider and the object store, as functions from a request to
    its outcome;
  - the bucket name;
  - the clock reading.

  `OrElse` models JavaScript's `||` over a small `JsValue` type. The object key
  and the public URL come with parse-back functions (`KeyTimestamp`,
  `LastSegment`), and the lemmas prove round trips through them.
- **Onboarding pager** (`module Onboarding`, `onboarding.dfy`). It covers the
  slide index, the "Next" handler, the dots, and the choice between "Next" and
  "Get Started".
- **Shared helpers.** `module Text` (`text.dfy`) holds `trim` over a small
  white-space predicate and the decimal rendering of a timestamp.
  `module Outcomes` (`outcomes.dfy`) holds the `Option`/`Result`/`Outcome`
  values used for absent values, return values and thrown errors.

Where the design description of the app and its code disagree, the model
follows the code:

- The handler does no empty-text validation. An empty `text` is forwarded to
  the provider (`Handler.EmptyTextIsForwarded`). Every failure maps to the same
  500 envelope, with no distinct error kinds.
- The client's conversion is a fixed-delay mock that always succeeds, so there
  is no failed state.
- Pressing convert while audio plays does not stop playback or its interval.
  Convert changes only `loading` and `audioAvailable` (`Home.Convert`).
- There is no request token. A second convert while loading is ignored instead,
  so at most one conversion is ever pending.

## Model

| member | source | states |
|---|---|---|
| Home.ReachableStatesAreGood | src/screens/HomeScreen.tsx:19-67 | For any sequence of events from the mounted screen: never `loading && audioAvailable`, progress within [0, 1], and the interval is live exactly while playing |
| Home.RunKeepsInv | src/screens/HomeScreen.tsx:28-72 | Any sequence of events keeps the screen invariant: ticks at most 50, interval live iff playing, never loading with audio ready |
| Home.NextKeepsInv | src/screens/HomeScreen.tsx:28-72 | Each single event (typing, language, convert, conversion end, play, tick) keeps the invariant |
| Home.InvBoundsProgress | src/screens/HomeScreen.tsx:25-38 | Under the invariant, progress lies in [0, 1] |
| Home.ConvertDisabled | src/screens/HomeScreen.tsx:159-162 | The convert button is disabled iff the text is all white space (its trim is empty) or a conversion is loading |
| Home.Convert | src/screens/HomeScreen.tsx:57-61 | Convert is a no-op on all-white-space text or while loading. Otherwise it sets loading, clears audioAvailable, and leaves text, language, playing, progress and interval unchanged |
| Home.ConversionDone | src/screens/HomeScreen.tsx:64-67 | The end of the conversion clears loading and makes audio available, changing nothing else |
| Home.Play | src/screens/HomeScreen.tsx:28-31 | After play the screen is playing. Starting from stopped, progress resets to 0 and the interval is scheduled. Play while already playing changes nothing |
| Home.Tick | src/screens/HomeScreen.tsx:31-40 | Below 1, a firing adds exactly 0.02 to progress. At 1, progress stays 1, playback stops and the interval is cleared. With no interval, nothing happens |
| Home.Teardown | src/screens/HomeScreen.tsx:44-46 | Unmount cleanup clears the interval, so no tick can change the state afterwards |
| Home.SelectLanguage | src/screens/HomeScreen.tsx:53-55 | Picking a language sets it and changes nothing else |
| Home.EditText | src/screens/HomeScreen.tsx:117-118 | Typing replaces the text and changes nothing else |
| Home.StatusAreasExclusive | src/screens/HomeScreen.tsx:166-208 | Spinner, audio box and empty-state hint are pairwise exclusive. The hint implies convert is enabled. The caption reads "Converting..." iff the spinner shows |
| Home.PlayStartsOnlyWhenReady | src/screens/HomeScreen.tsx:178-180 | A play press starts playback only when audio is available and not loading (and not already playing), and playback starts at progress 0 |
| Home.TickMonotone | src/screens/HomeScreen.tsx:32-38 | Under the invariant, a firing never lowers progress and never lifts it above 1 |
| Home.TicksAdvance | src/screens/HomeScreen.tsx:32-38 | While the end is not passed, n firings add exactly n ticks and change nothing else |
| Home.FullPlayback | src/screens/HomeScreen.tsx:29-40 | After play, 50 firings reach progress exactly 1 while still playing. The 51st stops playback, clears the interval and re-enables play |
| Home.ConvertThenDoneShowsPlayer | src/screens/HomeScreen.tsx:57-67 | An enabled convert shows the spinner and hides the player. The conversion end then shows the player with the text unchanged |
| Waveform.BarActiveMeansPastBar | src/screens/HomeScreen.tsx:76-80 | The whole-number test `48 * ticks > 50 * i` holds exactly when progress `> i/48` in exact arithmetic |
| Waveform.ActiveBarsArePrefix | src/screens/HomeScreen.tsx:76-80 | Bar i is active iff i is below `ceil(48 * ticks / 50)` (capped at 48), so the active bars form a prefix |
| Waveform.RenderWaveform | src/screens/HomeScreen.tsx:74-97 | Draws 48 flags. Flag i is set iff progress > i/48, iff i is within the active prefix |
| Waveform.StartAndEnd | src/screens/HomeScreen.tsx:76-80 | No bar is active at progress 0 and all 48 are active at progress 1 |
| Waveform.ActiveBarsMonotone | src/screens/HomeScreen.tsx:76-80 | More progress never lowers the number of active bars |
| Waveform.TickNeverDarkens | src/screens/HomeScreen.tsx:31-40 | An interval firing never turns a bar off |
| Text.Trim | src/screens/HomeScreen.tsx:58 | The trimmed text is a slice of the input with only white space cut from both ends, and it neither starts nor ends with white space |
| Text.TrimEmptyIffAllSpace | src/screens/HomeScreen.tsx:58 | The trimmed text is empty (falsy) iff every character is white space |
| Text.Decimal | TTS-Project/my_lambda/index.js:24 | The rendering of a timestamp is a non-empty digit string without a leading zero |
| Text.DecimalRoundTrip | TTS-Project/my_lambda/index.js:24 | Reading the decimal rendering back yields the timestamp |
| Text.DecimalInjective | TTS-Project/my_lambda/index.js:24 | Distinct timestamps render differently |
| Handler.OrElse | TTS-Project/my_lambda/index.js:16-17 | The or-default of a body field is the field when it is truthy and the fallback otherwise (an empty string falls back). It is always truthy for a non-empty fallback |
| Handler.Params | TTS-Project/my_lambda/index.js:13-18 | Text is forwarded unchanged and the format is `mp3`. Voice defaults to `Joanna` and language to `en-US` unless the body's field is truthy, so both are always truthy |
| Handler.ObjectKey | TTS-Project/my_lambda/index.js:24 | `tts-output-<ms>.mp3` parses back to the timestamp it was built from |
| Handler.ObjectKeyInjective | TTS-Project/my_lambda/index.js:24 | Distinct timestamps give distinct object keys |
| Handler.UrlNamesKey | TTS-Project/my_lambda/index.js:34 | The last path segment of `https://<bucket>.s3.amazonaws.com/<key>` is the key, and it gives back the timestamp |
| Handler.Handle | TTS-Project/my_lambda/index.js:6-56 | Both envelopes carry the same CORS headers. Status is 200 or 500. Calls are synthesis and then a put with content type `audio/mpeg`, and the put happens only if synthesis succeeded. 200 means every step succeeded, and the body is the object's URL. Each failure gives 500 with the failing step's message and no URL |
| Handler.HandleWritesAtMostOnce | TTS-Project/my_lambda/index.js:21-32 | At most one store write per invocation: exactly one, with `audio/mpeg`, on success, and none when synthesis failed |
| Handler.DistinctTimesDistinctUrls | TTS-Project/my_lambda/index.js:24-34 | Two successful invocations at different times return different URLs, so the handler is not idempotent |
| Handler.EmptyTextIsForwarded | TTS-Project/my_lambda/index.js:13-15 | An empty text is not rejected. It reaches the provider unchanged |
| Onboarding.PressesStayInRange | src/screens/OnboardingScreen.tsx:9-34 | From slide 0, n presses of Next show slide min(n, 2): each press advances by one until the last slide and is a no-op there, so the slide stays in [0, 2] |
| Onboarding.ExactlyOneActiveDot | src/screens/OnboardingScreen.tsx:36-46 | On every slide exactly one dot is active, and it is the current slide's dot |
| Onboarding.GetStartedOnlyOnLastSlide | src/screens/OnboardingScreen.tsx:72-87 | "Get Started" is shown iff on the last slide, which is the only slide where Next would do nothing. Otherwise "Next" is shown |

## Left out

- Home.Tick: progress is exact (`ticks / 50`), not the floating-point sum of `0.02` steps, so the step at which `prev >= 1` first holds is the exact one.
- Waveform.RenderWaveform: the random bar heights (`Math.random() * 18 + 10`) are cosmetic and not modelled. Only the active flag is.
- Text.Trim: white space is a small fixed set (space, tab, line feed, carriage return, vertical tab, form feed, no-break space, byte order mark), not ECMAScript's full set.
- Real timers: the 2000 ms conversion timeout and the 30 ms interval are the discrete events `ConversionFinished` and `IntervalFires`, with no clock. The conversion timeout is not cleared on unmount, and a late firing after teardown is not modelled.
- The text box's height (`inputHeight`), layout, styles, images, fade animations and navigation (including "Get Started" navigating to the home screen, and all of `App.tsx`) are presentation only.
- `handleDownload` is a logging stub, and the "01:10" duration label is a fixed string. Neither is modelled.
- Handler inputs: `JSON.parse` and destructuring are the parsed-body input, and their exceptions are its failure message. `JSON.stringify` is replaced by structured bodies. The AWS SDK calls are function parameters. `process.env.BUCKET_NAME` is a string parameter, so an unset variable (rendered `undefined`) is not modelled. `Date.now()` is a natural-number parameter. Console logging is dropped.
- Handler.OrElse: JSON numbers are integers, so `NaN` and `-0` (both falsy) are not modelled.
- Handler.Handle: a thrown value without a `message` (which would give `{}` as the body) is not modelled. Every error carries a string message.
- React details such as strict-mode double invocation of state updaters, and the order of renders between state updates, are not modelled. Each handler is one atomic step.
