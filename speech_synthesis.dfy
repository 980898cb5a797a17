/** The speech-synthesis hook: the playback state it keeps, the commands the
    user interface calls (`speak`, `pause`, `resume`, `cancel`), the callbacks
    the engine fires on the current utterance, the refresh of the voice list
    and the reconciliation tick that polls the engine's flags.

    `HookState` is the hook's local state as a value and `Step` gives its
    effect for every input; the class `SpeechSynthesis` keeps the same state in
    fields and each of its methods is proved to move it as `Step` says. */
module SpeechSynthesisHook {
  import opened Js
  import opened Types
  import opened Engine

  datatype BoundaryInfo = BoundaryInfo(charIndex: int, charLength: int)

  datatype HookState = HookState(
    isSpeaking: bool,
    isPaused: bool,
    supportedVoices: seq<VoiceOption>,
    currentUtterance: Option<Utterance>,
    currentBoundaryInfo: Option<BoundaryInfo>)

  const Initial := HookState(false, false, [], None, None)

  /** The state-machine invariant: never speaking and paused at once. */
  predicate Exclusive(s: HookState) {
    !(s.isSpeaking && s.isPaused)
  }

  /** Idle: not speaking, not paused, no utterance and no boundary info. */
  predicate IsIdle(s: HookState) {
    !s.isSpeaking && !s.isPaused && s.currentUtterance == None && s.currentBoundaryInfo == None
  }

  // ---------------------------------------------------------------------------
  // Voice list

  function ToVoiceOption(v: EngineVoice): VoiceOption {
    VoiceOption(v.name, v.lang, v.voiceURI, v.isDefault)
  }

  /** `populateVoiceList`'s `map`: one voice option per engine voice, in order. */
  function VoiceOptions(vs: seq<EngineVoice>): (r: seq<VoiceOption>)
    ensures |r| == |vs|
    ensures forall i :: 0 <= i < |vs| ==>
      r[i].name == vs[i].name && r[i].lang == vs[i].lang
      && r[i].voiceURI == vs[i].voiceURI && r[i].isDefault == vs[i].isDefault
  {
    if vs == [] then [] else [ToVoiceOption(vs[0])] + VoiceOptions(vs[1..])
  }

  // ---------------------------------------------------------------------------
  // Building the utterance

  /** `Math.max(0, Math.min(2, pitch))`. */
  function ClampPitch(pitch: real): (r: real)
    ensures 0.0 <= r <= 2.0
    ensures 0.0 <= pitch <= 2.0 ==> r == pitch
    ensures pitch < 0.0 ==> r == 0.0
    ensures pitch > 2.0 ==> r == 2.0
  {
    Max(0.0, Min(2.0, pitch))
  }

  /** `Math.max(0.1, Math.min(10, rate))`. */
  function ClampRate(rate: real): (r: real)
    ensures 0.1 <= r <= 10.0
    ensures 0.1 <= rate <= 10.0 ==> r == rate
    ensures rate < 0.1 ==> r == 0.1
    ensures rate > 10.0 ==> r == 10.0
  {
    Max(0.1, Min(10.0, rate))
  }

  /** `voice?.lang || document.documentElement.lang || 'en-US'`. */
  function ResolveLang(voice: Option<VoiceOption>, documentLang: string): (r: string)
    ensures r != ""
    ensures voice.Some? && voice.value.lang != "" ==> r == voice.value.lang
    ensures (voice.None? || voice.value.lang == "") && documentLang != "" ==> r == documentLang
    ensures (voice.None? || voice.value.lang == "") && documentLang == "" ==> r == "en-US"
  {
    if voice.Some? && voice.value.lang != "" then voice.value.lang
    else if documentLang != "" then documentLang
    else "en-US"
  }

  /** The live engine voice bound to the utterance: the first whose `voiceURI`
      equals the requested one, or none. */
  function ResolveVoice(voice: Option<VoiceOption>, live: seq<EngineVoice>): (r: Option<EngineVoice>)
    ensures voice.None? ==> r.None?
    ensures r.Some? ==> r.value in live && r.value.voiceURI == voice.value.voiceURI
    ensures voice.Some? && r.None? ==> forall i :: 0 <= i < |live| ==> live[i].voiceURI != voice.value.voiceURI
    ensures r.Some? ==> exists j :: 0 <= j < |live| && live[j] == r.value
                          && forall k :: 0 <= k < j ==> live[k].voiceURI != voice.value.voiceURI
  {
    if voice.None? then None
    else Find(live, (v: EngineVoice) => v.voiceURI == voice.value.voiceURI)
  }

  /** The utterance `speak` configures and hands to the engine. */
  function MakeUtterance(text: string, voice: Option<VoiceOption>, rate: real, pitch: real,
                         live: seq<EngineVoice>, documentLang: string): (u: Utterance)
    ensures u.text == text
    ensures 0.0 <= u.pitch <= 2.0 && 0.1 <= u.rate <= 10.0
    ensures u.pitch == ClampPitch(pitch) && u.rate == ClampRate(rate)
    ensures u.lang == ResolveLang(voice, documentLang) && u.voice == ResolveVoice(voice, live)
  {
    Utterance(text, ResolveLang(voice, documentLang), ResolveVoice(voice, live), ClampPitch(pitch), ClampRate(rate))
  }

  /** A voice chosen from an up-to-date catalog is always found in the live list
      at call time, and it is the very voice the catalog listed. */
  lemma CatalogVoiceBinds(live: seq<EngineVoice>, uri: string)
    ensures var chosen := Find(VoiceOptions(live), (v: VoiceOption) => v.voiceURI == uri);
            (chosen.Some? <==> ResolveVoice(chosen, live).Some?)
            && (chosen.Some? ==> ToVoiceOption(ResolveVoice(chosen, live).value) == chosen.value)
  {
    var opts := VoiceOptions(live);
    var p := (v: VoiceOption) => v.voiceURI == uri;
    var q := (v: EngineVoice) => v.voiceURI == uri;
    FindIndexTransfer(opts, p, live, q);
    match FindIndex(opts, p)
    case None =>
    case Some(i) =>
      var q' := (v: EngineVoice) => v.voiceURI == opts[i].voiceURI;
      FindIndexTransfer(live, q, live, q');
  }

  // ---------------------------------------------------------------------------
  // Error classification (it decides only the message that is logged)

  datatype ErrorKind =
    | Canceled | Interrupted | AudioBusy | AudioHardware | Network
    | SynthesisUnavailable | LanguageUnavailable | VoiceUnavailable
    | TextTooLong | InvalidArgument | SynthesisFailed
    | Unrecognized(code: string)  // a non-empty code outside the list above
    | Unspecified                 // no code, or an empty one

  /** The `event.error` code each kind stands for. */
  function CodeOf(k: ErrorKind): Option<string> {
    match k
    case Canceled => Some("canceled")
    case Interrupted => Some("interrupted")
    case AudioBusy => Some("audio-busy")
    case AudioHardware => Some("audio-hardware")
    case Network => Some("network")
    case SynthesisUnavailable => Some("synthesis-unavailable")
    case LanguageUnavailable => Some("language-unavailable")
    case VoiceUnavailable => Some("voice-unavailable")
    case TextTooLong => Some("text-too-long")
    case InvalidArgument => Some("invalid-argument")
    case SynthesisFailed => Some("synthesis-failed")
    case Unrecognized(c) => Some(c)
    case Unspecified => None
  }

  /** The `switch` on `event.error` in the error callback. */
  function Classify(code: Option<string>): (k: ErrorKind)
    ensures k == Unspecified <==> !Truthy(code)
    ensures k != Unspecified ==> CodeOf(k) == code
  {
    if !Truthy(code) then Unspecified
    else match code.value
      case "canceled" => Canceled
      case "interrupted" => Interrupted
      case "audio-busy" => AudioBusy
      case "audio-hardware" => AudioHardware
      case "network" => Network
      case "synthesis-unavailable" => SynthesisUnavailable
      case "language-unavailable" => LanguageUnavailable
      case "voice-unavailable" => VoiceUnavailable
      case "text-too-long" => TextTooLong
      case "invalid-argument" => InvalidArgument
      case "synthesis-failed" => SynthesisFailed
      case _ => Unrecognized(code.value)
  }

  /** Every kind but a mislabelled `Unrecognized` is recovered from its code. */
  lemma ClassifyCodeOf(k: ErrorKind)
    requires k.Unrecognized? ==> k.code != "" && Classify(Some(k.code)).Unrecognized?
    ensures Classify(CodeOf(k)) == k
  {
  }

  // ---------------------------------------------------------------------------
  // The state machine

  datatype Event =
    | Spoken(utterance: Utterance)            // `speak` stored a new utterance
    | Started                                 // `onstart`
    | Ended                                   // `onend`
    | Errored(code: Option<string>)           // `onerror`
    | Paused                                  // `onpause`
    | Resumed                                 // `onresume`
    | BoundaryReached(name: string, charIndex: int, charLength: int)  // `onboundary`
    | Cancelled                               // `cancel`, local part
    | Polled(speaking: bool, paused: bool)    // the reconciliation tick
    | VoicesRefreshed(voices: seq<VoiceOption>)  // `populateVoiceList`

  /** The reconciliation tick, given the engine's `speaking` and `paused` flags.
      Every test reads the state as it was when the tick began. */
  function Tick(s: HookState, speaking: bool, paused: bool): HookState {
    var s1 := if !speaking && s.isSpeaking
              then s.(isSpeaking := false,
                      currentBoundaryInfo := if !paused then None else s.currentBoundaryInfo)
              else s;
    var s2 := if !paused && s.isPaused then s1.(isPaused := false) else s1;
    if !speaking && !paused && s.currentUtterance.Some?
    then s2.(currentUtterance := None, currentBoundaryInfo := None)
    else s2
  }

  function Step(s: HookState, e: Event): HookState {
    match e
    case Spoken(u) => s.(currentUtterance := Some(u))
    case Started => s.(isSpeaking := true, isPaused := false, currentBoundaryInfo := None)
    case Ended =>
      s.(isSpeaking := false, isPaused := false, currentUtterance := None, currentBoundaryInfo := None)
    case Errored(_) =>
      s.(isSpeaking := false, isPaused := false, currentUtterance := None, currentBoundaryInfo := None)
    case Paused => s.(isPaused := true, isSpeaking := false)
    case Resumed => s.(isPaused := false, isSpeaking := true)
    case BoundaryReached(name, ci, cl) =>
      if name == "word" || name == "sentence"
      then s.(currentBoundaryInfo := Some(BoundaryInfo(ci, cl)))
      else s
    case Cancelled =>
      s.(isSpeaking := false, isPaused := false, currentUtterance := None, currentBoundaryInfo := None)
    case Polled(speaking, paused) => Tick(s, speaking, paused)
    case VoicesRefreshed(vs) => s.(supportedVoices := vs)
  }

  function Run(s: HookState, es: seq<Event>): HookState
    decreases |es|
  {
    if es == [] then s else Run(Step(s, es[0]), es[1..])
  }

  /** Every input keeps speaking and paused mutually exclusive. */
  lemma StepExclusive(s: HookState, e: Event)
    requires Exclusive(s)
    ensures Exclusive(Step(s, e))
  {
  }

  /** From the initial state, no sequence of inputs reaches speaking and paused at once. */
  lemma {:induction false} RunExclusive(s: HookState, es: seq<Event>)
    requires Exclusive(s)
    ensures Exclusive(Run(s, es))
    decreases |es|
  {
    if es != [] {
      StepExclusive(s, es[0]);
      RunExclusive(Step(s, es[0]), es[1..]);
    }
  }

  /** `onend`, `onerror` with any code, and `cancel` all end in the same idle
      state, keeping only the voice list. */
  lemma TerminalStatesAgree(s: HookState, code: Option<string>)
    ensures Step(s, Ended) == Step(s, Errored(code)) == Step(s, Cancelled)
    ensures IsIdle(Step(s, Cancelled)) && Step(s, Cancelled).supportedVoices == s.supportedVoices
  {
  }

  /** `cancel` is idempotent. */
  lemma CancelIdempotent(s: HookState)
    ensures Step(Step(s, Cancelled), Cancelled) == Step(s, Cancelled)
  {
  }

  /** Boundary info changes only on `word` and `sentence` events; nothing else changes. */
  lemma BoundaryFilter(s: HookState, name: string, ci: int, cl: int)
    ensures var r := Step(s, BoundaryReached(name, ci, cl));
            r.(currentBoundaryInfo := s.currentBoundaryInfo) == s
            && ((name == "word" || name == "sentence") ==> r.currentBoundaryInfo == Some(BoundaryInfo(ci, cl)))
            && (!(name == "word" || name == "sentence") ==> r == s)
  {
  }

  /** The tick only ever clears flags; with an idle engine it drops the
      utterance and ends idle, except that boundary info recorded while neither
      speaking nor holding an utterance is left in place. */
  lemma TickLowers(s: HookState, speaking: bool, paused: bool)
    ensures var r := Tick(s, speaking, paused);
            (r.isSpeaking ==> s.isSpeaking) && (r.isPaused ==> s.isPaused)
            && r.supportedVoices == s.supportedVoices
            && (!speaking && !paused ==>
                  !r.isSpeaking && !r.isPaused && r.currentUtterance == None
                  && (s.isSpeaking || s.currentUtterance.Some? ==> r.currentBoundaryInfo == None))
  {
  }

  /** Polling the same flags twice changes nothing more than polling once. */
  lemma TickIdempotent(s: HookState, speaking: bool, paused: bool)
    ensures Tick(Tick(s, speaking, paused), speaking, paused) == Tick(s, speaking, paused)
  {
  }

  /** When the engine reports the same flags as the local state and one of
      them is set, the tick changes nothing. */
  lemma TickAgreeing(s: HookState)
    requires s.isSpeaking || s.isPaused
    ensures Tick(s, s.isSpeaking, s.isPaused) == s
  {
  }

  /** Callbacks are not tied to their utterance: a late `onend` from a cancelled
      utterance also clears the utterance a later `speak` stored. */
  lemma LateEndClearsNewUtterance(s: HookState, u: Utterance)
    ensures Run(s, [Cancelled, Spoken(u), Ended]).currentUtterance == None
  {
    var s1 := Step(s, Cancelled);
    var s2 := Step(s1, Spoken(u));
    assert [Cancelled, Spoken(u), Ended][1..] == [Spoken(u), Ended];
    assert [Spoken(u), Ended][1..] == [Ended];
    assert Run(s2, [Ended]) == Run(Step(s2, Ended), []);
    assert Run(s1, [Spoken(u), Ended]) == Run(s2, [Ended]);
  }

  // ---------------------------------------------------------------------------
  // The hook

  class SpeechSynthesis {
    /** `window.speechSynthesis`, or null where the host has none. */
    const synth: SpeechEngine?

    var isSpeaking: bool
    var isPaused: bool
    var supportedVoices: seq<VoiceOption>
    var currentUtterance: Option<Utterance>
    var currentBoundaryInfo: Option<BoundaryInfo>

    function State(): HookState
      reads this
    {
      HookState(isSpeaking, isPaused, supportedVoices, currentUtterance, currentBoundaryInfo)
    }

    ghost predicate Valid()
      reads this
    {
      Exclusive(State())
    }

    constructor (synth: SpeechEngine?)
      ensures this.synth == synth && State() == Initial && Valid()
    {
      this.synth := synth;
      isSpeaking, isPaused := false, false;
      supportedVoices := [];
      currentUtterance, currentBoundaryInfo := None, None;
    }

    /** Replaces the voice list with the engine's current voices. */
    method PopulateVoiceList()
      requires Valid()
      modifies this
      ensures Valid()
      ensures synth != null ==> State() == Step(old(State()), VoicesRefreshed(VoiceOptions(synth.voices)))
      ensures synth == null ==> State() == old(State())
    {
      if synth == null { return; }
      supportedVoices := VoiceOptions(synth.voices);
    }

    method Speak(text: string, voice: Option<VoiceOption>, rate: real, pitch: real, documentLang: string)
      requires Valid()
      modifies this, synth
      ensures Valid()
      ensures synth == null || Trim(text) == [] ==> State() == old(State())
      ensures synth != null && Trim(text) == [] ==> synth.log == old(synth.log)
      ensures synth != null && Trim(text) != [] ==>
        var u := MakeUtterance(text, voice, rate, pitch, old(synth.voices), documentLang);
        State() == Step(old(State()), Spoken(u))
        && synth.log == old(synth.log) + (if old(synth.speaking) then [Command.Cancel] else []) + [Command.Speak(u)]
      ensures synth != null ==>
        synth.speaking == old(synth.speaking) && synth.paused == old(synth.paused) && synth.voices == old(synth.voices)
    {
      if synth == null || Trim(text) == [] { return; }
      if synth.speaking {
        synth.Issue(Command.Cancel);
      }
      var u := MakeUtterance(text, voice, rate, pitch, synth.voices, documentLang);
      currentUtterance := Some(u);
      synth.Issue(Command.Speak(u));
    }

    method Pause()
      modifies synth
      ensures State() == old(State())
      ensures synth != null ==>
        synth.log == old(synth.log) + (if old(synth.speaking) && !old(synth.paused) then [Command.Pause] else [])
        && synth.speaking == old(synth.speaking) && synth.paused == old(synth.paused) && synth.voices == old(synth.voices)
    {
      if synth != null && synth.speaking && !synth.paused {
        synth.Issue(Command.Pause);
      }
    }

    method Resume()
      modifies synth
      ensures State() == old(State())
      ensures synth != null ==>
        synth.log == old(synth.log) + (if old(synth.paused) then [Command.Resume] else [])
        && synth.speaking == old(synth.speaking) && synth.paused == old(synth.paused) && synth.voices == old(synth.voices)
    {
      if synth != null && synth.paused {
        synth.Issue(Command.Resume);
      }
    }

    method Cancel()
      requires Valid()
      modifies this, synth
      ensures Valid()
      ensures synth == null ==> State() == old(State())
      ensures synth != null ==>
        State() == Step(old(State()), Cancelled) && IsIdle(State())
        && synth.log == old(synth.log) + [Command.Cancel]
        && synth.speaking == old(synth.speaking) && synth.paused == old(synth.paused) && synth.voices == old(synth.voices)
    {
      if synth != null {
        synth.Issue(Command.Cancel);
        isSpeaking, isPaused := false, false;
        currentUtterance, currentBoundaryInfo := None, None;
      }
    }

    method OnStart()
      requires Valid()
      modifies this
      ensures Valid() && State() == Step(old(State()), Started)
    {
      isSpeaking, isPaused := true, false;
      currentBoundaryInfo := None;
    }

    method OnEnd()
      requires Valid()
      modifies this
      ensures Valid() && State() == Step(old(State()), Ended) && IsIdle(State())
    {
      isSpeaking, isPaused := false, false;
      currentUtterance, currentBoundaryInfo := None, None;
    }

    /** Returns the category the callback reports; the state change ignores it. */
    method OnError(code: Option<string>) returns (reported: ErrorKind)
      requires Valid()
      modifies this
      ensures reported == Classify(code)
      ensures Valid() && State() == Step(old(State()), Errored(code)) && IsIdle(State())
    {
      reported := Classify(code);
      isSpeaking, isPaused := false, false;
      currentUtterance, currentBoundaryInfo := None, None;
    }

    method OnPause()
      requires Valid()
      modifies this
      ensures Valid() && State() == Step(old(State()), Paused)
    {
      isPaused, isSpeaking := true, false;
    }

    method OnResume()
      requires Valid()
      modifies this
      ensures Valid() && State() == Step(old(State()), Resumed)
    {
      isPaused, isSpeaking := false, true;
    }

    method OnBoundary(name: string, charIndex: int, charLength: int)
      requires Valid()
      modifies this
      ensures Valid() && State() == Step(old(State()), BoundaryReached(name, charIndex, charLength))
    {
      if name == "word" || name == "sentence" {
        currentBoundaryInfo := Some(BoundaryInfo(charIndex, charLength));
      }
    }

    /** One run of the interval callback: polls the engine and clears what it no
        longer reports. No interval runs where the host has no engine. */
    method ReconcileTick()
      requires Valid()
      modifies this
      ensures Valid()
      ensures synth != null ==> State() == Step(old(State()), Polled(synth.speaking, synth.paused))
      ensures synth == null ==> State() == old(State())
    {
      if synth == null { return; }
      if !synth.speaking && isSpeaking {
        isSpeaking := false;
        if !synth.paused { currentBoundaryInfo := None; }
      }
      if !synth.paused && isPaused {
        isPaused := false;
      }
      if !synth.speaking && !synth.paused && currentUtterance.Some? {
        currentUtterance, currentBoundaryInfo := None, None;
      }
    }
  }

  /** A client run: voices arrive, a text is spoken, the engine starts and
      reports a word boundary. */
  method SpeakScenario(voices: seq<EngineVoice>, text: string, documentLang: string)
    requires Trim(text) != []
  {
    var engine := new SpeechEngine([]);
    var hook := new SpeechSynthesis(engine);
    engine.ChangeVoices(voices);
    hook.PopulateVoiceList();
    assert hook.supportedVoices == VoiceOptions(voices);
    hook.Speak(text, None, 1.0, 1.0, documentLang);
    assert hook.currentUtterance.Some?;
    engine.Report(true, false);
    hook.OnStart();
    hook.OnBoundary("word", 0, 4);
    assert hook.isSpeaking && hook.currentBoundaryInfo == Some(BoundaryInfo(0, 4));
  }

  /** A client run: the engine stops without firing `onend`, and the next tick
      brings a speaking hook back to idle. */
  method SilentStopScenario(hook: SpeechSynthesis)
    requires hook.Valid() && hook.synth != null && hook.isSpeaking
    modifies hook, hook.synth
  {
    hook.synth.Report(false, false);
    hook.ReconcileTick();
    assert IsIdle(hook.State());
  }
}
