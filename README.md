# Text-to-speech playback core, modelled in Dafny

The application is a browser front end over the Web Speech API: the user types
text, picks a voice, sets rate and pitch, and plays, pauses, resumes or stops
speech while a progress bar follows the spoken text. This project models the
logic under that front end:

- the speech-synthesis hook (`hooks/useSpeechSynthesis.ts`). It keeps five pieces of
  state: `isSpeaking`, `isPaused`, `supportedVoices`, `currentUtterance` and
  `currentBoundaryInfo`. These are driven by three kinds of input:
  - the user commands `speak`, `pause`, `resume` and `cancel`;
  - the six callbacks the engine fires on an utterance;
  - a reconciliation tick that polls the engine's `speaking` and `paused` flags.
- the application component (`App.tsx`). It holds the default-voice policy, the play
  handler with its blank-text guard and voice lookup, the cancel-on-edit rule
  and the progress percentage.

Files:

- `js.dfy` (module `Js`) holds the JavaScript built-ins the code relies on:
  - `Array.prototype.find` as `FindIndex`/`Find`;
  - `startsWith`;
  - `trim` with the ECMAScript white-space set;
  - `Math.min`/`Math.max`;
  - string truthiness.
- `engine.dfy` (module `Engine`) models the synthesis engine as an abstract
  object. It has a live voice list, the `speaking` and `paused` flags, and a log
  of the commands issued to it (`Speak`, `Cancel`, `Pause`, `Resume`).
  `Report` and `ChangeVoices` stand for the engine changing on its own.
- `types.dfy` (module `Types`) holds `VoiceOption`, the voice record of `types.ts`.
- `speech_synthesis.dfy` (module `SpeechSynthesisHook`) holds the hook.
  - `HookState` is its state as a value.
  - `Step` gives the effect of every input on that value, and `Tick` is the
    interval callback.
  - The class `SpeechSynthesis` keeps the same state in fields. Each of its
    methods that changes state is proved to change it exactly as `Step` says
    and to issue exactly the listed engine commands. `Pause` and `Resume`
    match no `Step` event: they are proved to leave the state unchanged and
    only to issue their engine command.
  - `SpeakScenario` and `SilentStopScenario` are client runs. They use the
    engine's `ChangeVoices` and `Report` together with the hook's methods.
  - Lemmas about `Step` state the machine's properties. The main one: speaking
    and paused are never both set (`Valid`, `StepExclusive`, `RunExclusive`).
- `app.dfy` (module `App`) holds the selection policy, the progress function
  and the class `AppComponent`, which models the component's handlers and its
  voice-selection effect.

Behaviour of the code that the model keeps as it is:

- Callbacks are not tied to the utterance that registered them. A late
  `onend`/`onerror` also clears an utterance stored by a later `speak`
  (`LateEndClearsNewUtterance`).
- The tick only ever lowers `isSpeaking` and `isPaused`, each from its own
  engine flag. It never raises either.
- `speak` issues `cancel` only when the engine reports `speaking`.

## Model

| member | source | states |
|---|---|---|
| Js.FindIndex | hooks/useSpeechSynthesis.ts:138 | `find` yields the first index whose element satisfies the predicate, and none exactly when no element does |
| Js.Find | App.tsx:51 | `find` yields an element of the list satisfying the predicate exactly when one exists, and it is the first such element |
| Js.TrimStart | hooks/useSpeechSynthesis.ts:54 | drops only leading white space and stops at the first non-white-space character |
| Js.TrimEnd | hooks/useSpeechSynthesis.ts:54 | drops only trailing white space and stops at the last non-white-space character |
| Js.BlankIff | App.tsx:47 | `!text.trim()` holds exactly when every character of the text is white space |
| SpeechSynthesisHook.VoiceOptions | hooks/useSpeechSynthesis.ts:33-38 | the published voice list has the engine list's length and order, and copies `name`, `lang`, `voiceURI` and `default` field for field |
| SpeechSynthesisHook.ClampPitch | hooks/useSpeechSynthesis.ts:144 | pitch always lies in [0, 2]; an in-range pitch passes unchanged; below and above go to the bounds |
| SpeechSynthesisHook.ClampRate | hooks/useSpeechSynthesis.ts:145 | rate always lies in [0.1, 10]; an in-range rate passes unchanged; below and above go to the bounds |
| SpeechSynthesisHook.ResolveLang | hooks/useSpeechSynthesis.ts:143 | the language is the voice's when non-empty, else the document's when non-empty, else "en-US"; it is never empty |
| SpeechSynthesisHook.ResolveVoice | hooks/useSpeechSynthesis.ts:137-142 | the bound voice is the first live engine voice with the requested `voiceURI`; none when no voice was requested or none matches |
| SpeechSynthesisHook.MakeUtterance | hooks/useSpeechSynthesis.ts:60-145 | the utterance carries the text, the resolved language and voice, and pitch and rate equal to their clamps (so in [0, 2] and [0.1, 10]) |
| SpeechSynthesisHook.CatalogVoiceBinds | hooks/useSpeechSynthesis.ts:137-142 | a voice looked up in an up-to-date published list always binds to a live voice, and that voice is the one the list showed |
| SpeechSynthesisHook.Classify | hooks/useSpeechSynthesis.ts:75-115 | an absent or empty error code is "unspecified"; any other code is classified so that its code is recovered from the category |
| SpeechSynthesisHook.ClassifyCodeOf | hooks/useSpeechSynthesis.ts:76-112 | each of the eleven named error categories, and every unknown code, is recovered from its code |
| SpeechSynthesisHook.StepExclusive | hooks/useSpeechSynthesis.ts:62-188 | every command, callback and tick keeps speaking and paused mutually exclusive |
| SpeechSynthesisHook.RunExclusive | hooks/useSpeechSynthesis.ts:23-24 | any sequence of inputs from a state where speaking and paused are exclusive keeps them exclusive |
| SpeechSynthesisHook.TerminalStatesAgree | hooks/useSpeechSynthesis.ts:67-72 | `onend`, `onerror` with any code and `cancel` give the same idle state and keep the voice list |
| SpeechSynthesisHook.CancelIdempotent | hooks/useSpeechSynthesis.ts:163-172 | cancelling twice leaves the same state as cancelling once |
| SpeechSynthesisHook.BoundaryFilter | hooks/useSpeechSynthesis.ts:130-135 | a `word` or `sentence` boundary records its index and length; any other kind changes nothing; nothing else ever changes |
| SpeechSynthesisHook.TickLowers | hooks/useSpeechSynthesis.ts:176-188 | the tick never sets speaking or paused. With an idle engine it drops the utterance and ends neither speaking nor paused. It clears boundary info when the hook was speaking or held an utterance |
| SpeechSynthesisHook.TickIdempotent | hooks/useSpeechSynthesis.ts:176-189 | two ticks over the same engine flags change nothing beyond the first |
| SpeechSynthesisHook.TickAgreeing | hooks/useSpeechSynthesis.ts:177-188 | when the engine reports the local flags and one is set, the tick changes nothing |
| SpeechSynthesisHook.LateEndClearsNewUtterance | hooks/useSpeechSynthesis.ts:67-72 | an `onend` arriving after cancel and a new `speak` still clears the new utterance |
| SpeechSynthesisHook.SpeechSynthesis.constructor | hooks/useSpeechSynthesis.ts:23-29 | the hook starts idle with an empty voice list, bound to the host's engine or to none |
| SpeechSynthesisHook.SpeechSynthesis.PopulateVoiceList | hooks/useSpeechSynthesis.ts:31-40 | with an engine, the voice list is replaced by the engine's voices; without one, nothing changes |
| SpeechSynthesisHook.SpeechSynthesis.Speak | hooks/useSpeechSynthesis.ts:53-149 | blank text or no engine changes nothing and issues nothing. Otherwise it stores the new utterance as current and issues `cancel` only if the engine reported `speaking`, then `speak`. Speaking and paused stay exclusive |
| SpeechSynthesisHook.SpeechSynthesis.Pause | hooks/useSpeechSynthesis.ts:151-155 | issues a pause exactly when the engine is speaking and not paused; local state is unchanged |
| SpeechSynthesisHook.SpeechSynthesis.Resume | hooks/useSpeechSynthesis.ts:157-161 | issues a resume exactly when the engine is paused; local state is unchanged |
| SpeechSynthesisHook.SpeechSynthesis.Cancel | hooks/useSpeechSynthesis.ts:163-172 | with an engine, issues `cancel` and leaves the hook idle at once; without one, nothing changes |
| SpeechSynthesisHook.SpeechSynthesis.OnStart | hooks/useSpeechSynthesis.ts:62-66 | speaking, not paused, boundary info cleared, utterance kept |
| SpeechSynthesisHook.SpeechSynthesis.OnEnd | hooks/useSpeechSynthesis.ts:67-72 | the hook becomes idle whatever the utterance |
| SpeechSynthesisHook.SpeechSynthesis.OnError | hooks/useSpeechSynthesis.ts:73-120 | reports the code's category; the hook becomes idle, whatever the code |
| SpeechSynthesisHook.SpeechSynthesis.OnPause | hooks/useSpeechSynthesis.ts:121-124 | paused and not speaking |
| SpeechSynthesisHook.SpeechSynthesis.OnResume | hooks/useSpeechSynthesis.ts:125-128 | speaking and not paused |
| SpeechSynthesisHook.SpeechSynthesis.OnBoundary | hooks/useSpeechSynthesis.ts:130-135 | records the boundary only for `word` and `sentence` events |
| SpeechSynthesisHook.SpeechSynthesis.ReconcileTick | hooks/useSpeechSynthesis.ts:174-191 | one interval run moves the state as `Tick` over the engine's current flags; without an engine no interval runs |
| App.DefaultVoiceIndex | App.tsx:33-39 | the first `en*` voice, else the first default voice, else the first voice; none only for an empty list |
| App.SelectedVoice | App.tsx:51 | the voice found is the first in the list with the selected identifier; none when nothing is selected or nothing matches |
| App.DefaultSelectionFound | App.tsx:40-41 | after the default is chosen, the play handler's lookup always finds a voice |
| App.DefaultVoiceExamples | App.tsx:33-39 | with French, British-English and default German voices the British one wins; without it the default German one does |
| App.Progress | App.tsx:62-75 | progress lies in [0, 100]; it is 0 when neither speaking nor paused, or with no boundary, an empty text or a negative index |
| App.ProgressFormula | App.tsx:66-75 | while playing with a usable boundary, progress is min(100, 100 × index / length); it reaches 100 exactly when the index reaches the length |
| App.ProgressMonotone | App.tsx:66-75 | a boundary at a later index never shows less progress |
| App.ProgressZeroWhenIdle | App.tsx:71-75 | every idle state shows 0 progress |
| App.AppComponent.constructor | App.tsx:13-16 | the component starts with the initial text, no selected voice, rate 1 and pitch 1 |
| App.AppComponent.SelectDefaultVoice | App.tsx:31-44 | fires only with a non-empty list and no selected voice (an empty identifier counts as none). It then selects the policy's voice; otherwise the selection stays |
| App.AppComponent.ChooseVoice | App.tsx:102 | the user's choice becomes the selection |
| App.AppComponent.SetRate | App.tsx:104 | the slider's rate becomes the rate passed to `speak` |
| App.AppComponent.SetPitch | App.tsx:106 | the slider's pitch becomes the pitch passed to `speak` |
| App.AppComponent.HandlePlay | App.tsx:46-53 | blank text alerts and never reaches `speak`. Otherwise `speak` receives the text, the selected voice (if the list has it), the rate and the pitch |
| App.AppComponent.HandleTextChange | App.tsx:55-60 | the text is replaced; `cancel` is called exactly when the hook is speaking or paused |

## Left out

- Rendering, layout and styling (`components/`, the JSX of `App.tsx`), `constants.ts` and the text-generation service `services/geminiService.ts` are not part of this model. None of them is on the playback path.
- The browser engine is not modelled. Its voice list and its `speaking`/`paused` flags are plain fields. What it does in reply to a command shows up only through the callback methods and `Report`.
- The `onvoiceschanged` subscription and the mount effect (hooks/useSpeechSynthesis.ts:42-50) are not modelled. They only arrange for `PopulateVoiceList` to be called.
- The `setInterval` timing of the tick is not modelled; `ReconcileTick` is one run of its callback.
- React's asynchronous, batched `useState` updates are not modelled. Each command and callback is one atomic step. Within a step every test reads the state as it was when the step began.
- The `document.documentElement.lang` value is read from the host page. It is a parameter of `Speak` and `HandlePlay`.
- The console messages of the error callback and the text of the `alert` are not modelled. `OnError` returns the category it would log, and `HandlePlay` returns whether it alerts.
- `speak`'s default arguments `rate = 1` and `pitch = 1` are not modelled: the only caller always passes both.
- Floating-point arithmetic is not modelled. Rate, pitch and progress are exact reals, so rounding and `NaN` are absent.
- `SpokenLength` counts Unicode scalar values, while JavaScript's `length` counts UTF-16 code units. Texts with characters outside the Basic Multilingual Plane differ.
- The optional `default` field of `VoiceOption` is modelled as a boolean. The engine always supplies one.
