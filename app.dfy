/** The application component's own logic on top of the hook: choosing a
    default voice once the voice list arrives, the play handler with its
    empty-text guard and voice lookup, cancelling playback when the text is
    edited, and the progress percentage shown while speaking or paused. */
module App {
  import opened Js
  import opened Types
  import opened Engine
  import opened SpeechSynthesisHook

  predicate IsEnglish(v: VoiceOption) {
    StartsWith(v.lang, "en")
  }

  predicate IsDefault(v: VoiceOption) {
    v.isDefault
  }

  /** The default-voice policy: the first English voice, else the first voice
      flagged as default, else the first voice; none only for an empty list. */
  function DefaultVoiceIndex(vs: seq<VoiceOption>): (r: Option<nat>)
    ensures r.None? <==> vs == []
    ensures r.Some? ==> r.value < |vs|
    ensures (exists i :: 0 <= i < |vs| && IsEnglish(vs[i])) ==>
      r.Some? && IsEnglish(vs[r.value]) && forall j :: 0 <= j < r.value ==> !IsEnglish(vs[j])
    ensures (forall i :: 0 <= i < |vs| ==> !IsEnglish(vs[i])) && (exists i :: 0 <= i < |vs| && IsDefault(vs[i])) ==>
      r.Some? && IsDefault(vs[r.value]) && forall j :: 0 <= j < r.value ==> !IsDefault(vs[j])
    ensures (forall i :: 0 <= i < |vs| ==> !IsEnglish(vs[i]) && !IsDefault(vs[i])) && vs != [] ==>
      r == Some(0)
  {
    match FindIndex(vs, IsEnglish)
    case Some(i) => Some(i)
    case None =>
      match FindIndex(vs, IsDefault)
      case Some(i) => Some(i)
      case None => if |vs| > 0 then Some(0) else None
  }

  /** `supportedVoices.find(v => v.voiceURI === selectedVoiceURI)`; an unset
      selection matches nothing. */
  function SelectedVoice(vs: seq<VoiceOption>, selected: Option<string>): (r: Option<VoiceOption>)
    ensures r.Some? ==> r.value in vs && selected == Some(r.value.voiceURI)
    ensures r.None? ==> selected.None? || forall i :: 0 <= i < |vs| ==> vs[i].voiceURI != selected.value
    ensures r.Some? ==> exists j :: 0 <= j < |vs| && vs[j] == r.value
                          && forall k :: 0 <= k < j ==> vs[k].voiceURI != selected.value
  {
    if selected.None? then None
    else Find(vs, (v: VoiceOption) => v.voiceURI == selected.value)
  }

  /** Once the policy has chosen a voice, the play handler always finds a voice
      with the chosen identifier. */
  lemma DefaultSelectionFound(vs: seq<VoiceOption>)
    requires vs != []
    ensures SelectedVoice(vs, Some(vs[DefaultVoiceIndex(vs).value].voiceURI)).Some?
  {
    var i := DefaultVoiceIndex(vs).value;
    var p := (v: VoiceOption) => v.voiceURI == vs[i].voiceURI;
    assert p(vs[i]);
  }

  /** Two sample catalogs: an `en-GB` voice wins over a later default voice;
      without it, the default voice wins. */
  lemma DefaultVoiceExamples()
    ensures var fr := VoiceOption("French", "fr-FR", "fr", false);
            var gb := VoiceOption("British", "en-GB", "gb", false);
            var de := VoiceOption("German", "de-DE", "de", true);
            DefaultVoiceIndex([fr, gb, de]) == Some(1) && DefaultVoiceIndex([fr, de]) == Some(1)
  {
    var fr := VoiceOption("French", "fr-FR", "fr", false);
    var gb := VoiceOption("British", "en-GB", "gb", false);
    var de := VoiceOption("German", "de-DE", "de", true);
    assert fr.lang[0] == 'f' && de.lang[0] == 'd';
    assert IsEnglish(gb) && !IsEnglish(fr) && !IsEnglish(de);
    assert [fr, gb, de][1] == gb;
    assert IsDefault(de) && !IsDefault(fr);
    assert [fr, de][1] == de;
  }

  /** `currentUtterance?.text?.length || 0`. */
  function SpokenLength(u: Option<Utterance>): nat {
    if u.Some? then |u.value.text| else 0
  }

  /** The progress bar's percentage, computed from the hook's state. */
  function Progress(s: HookState): (r: real)
    ensures 0.0 <= r <= 100.0
    ensures !s.isSpeaking && !s.isPaused ==> r == 0.0
    ensures s.currentBoundaryInfo.None? || SpokenLength(s.currentUtterance) == 0 ==> r == 0.0
    ensures s.currentBoundaryInfo.Some? && s.currentBoundaryInfo.value.charIndex < 0 ==> r == 0.0
  {
    var len := SpokenLength(s.currentUtterance);
    var raw :=
      if (s.isSpeaking || s.isPaused) && s.currentBoundaryInfo.Some? && len > 0 then
        var charIndex := s.currentBoundaryInfo.value.charIndex;
        if charIndex >= 0 then (charIndex as real / len as real) * 100.0 else 0.0
      else 0.0;
    Min(100.0, Max(0.0, raw))
  }

  /** While playing, with a boundary at a non-negative index in a non-empty
      text, progress is the index as a share of the text, capped at 100. */
  lemma ProgressFormula(s: HookState)
    requires s.isSpeaking || s.isPaused
    requires s.currentBoundaryInfo.Some? && s.currentBoundaryInfo.value.charIndex >= 0
    requires SpokenLength(s.currentUtterance) > 0
    ensures var ci := s.currentBoundaryInfo.value.charIndex as real;
            var len := SpokenLength(s.currentUtterance) as real;
            Progress(s) == Min(100.0, 100.0 * ci / len)
            && (Progress(s) == 100.0 <==> ci >= len)
  {
    var ci := s.currentBoundaryInfo.value.charIndex as real;
    var len := SpokenLength(s.currentUtterance) as real;
    assert (ci / len) * 100.0 == 100.0 * ci / len;
    var x := 100.0 * ci / len;
    assert x * len == 100.0 * ci;
    if ci >= len {
      assert x * len >= 100.0 * len;
    } else {
      assert x * len < 100.0 * len;
    }
  }

  /** A later boundary never shows less progress. */
  lemma ProgressMonotone(s: HookState, ci: int, cl: int)
    requires s.currentBoundaryInfo.Some? && s.currentBoundaryInfo.value.charIndex <= ci
    ensures Progress(s) <= Progress(s.(currentBoundaryInfo := Some(BoundaryInfo(ci, cl))))
  {
    var len := SpokenLength(s.currentUtterance);
    var old_ci := s.currentBoundaryInfo.value.charIndex;
    if (s.isSpeaking || s.isPaused) && len > 0 && old_ci >= 0 {
      assert (old_ci as real / len as real) <= (ci as real / len as real) by {
        assert ci as real / len as real - old_ci as real / len as real == (ci - old_ci) as real / len as real;
      }
    }
  }

  /** Every terminal input leaves nothing to show. */
  lemma ProgressZeroWhenIdle(s: HookState)
    requires IsIdle(s)
    ensures Progress(s) == 0.0
  {
  }

  class AppComponent {
    const hook: SpeechSynthesis

    var text: string
    /** The chosen voice's identifier; unset until a voice is chosen. */
    var selectedVoiceURI: Option<string>
    var rate: real
    var pitch: real

    ghost predicate Valid()
      reads this, hook
    {
      hook.Valid()
    }

    constructor (hook: SpeechSynthesis, initialText: string)
      requires hook.Valid()
      ensures this.hook == hook && Valid()
      ensures text == initialText && selectedVoiceURI == None && rate == 1.0 && pitch == 1.0
    {
      this.hook := hook;
      text := initialText;
      selectedVoiceURI := None;
      rate, pitch := 1.0, 1.0;
    }

    /** The effect that picks a default voice: it fires only when the list is
        non-empty and no voice is selected, and never overrides a selection. */
    method SelectDefaultVoice()
      modifies this`selectedVoiceURI
      ensures var vs := hook.supportedVoices;
              if vs != [] && !Truthy(old(selectedVoiceURI))
              then selectedVoiceURI == Some(vs[DefaultVoiceIndex(vs).value].voiceURI)
              else selectedVoiceURI == old(selectedVoiceURI)
    {
      var vs := hook.supportedVoices;
      if |vs| > 0 && !Truthy(selectedVoiceURI) {
        var i := DefaultVoiceIndex(vs);
        if i.Some? {
          selectedVoiceURI := Some(vs[i.value].voiceURI);
        }
      }
    }

    /** The user picks a voice in the settings panel. */
    method ChooseVoice(uri: string)
      modifies this`selectedVoiceURI
      ensures selectedVoiceURI == Some(uri)
    {
      selectedVoiceURI := Some(uri);
    }

    method SetRate(rate: real)
      modifies this`rate
      ensures this.rate == rate
    {
      this.rate := rate;
    }

    method SetPitch(pitch: real)
      modifies this`pitch
      ensures this.pitch == pitch
    {
      this.pitch := pitch;
    }

    /** The play button. Blank text raises an alert (`alerted`) and never
        reaches `speak`; otherwise `speak` receives the selected voice, if the
        list holds one with the selected identifier. */
    method HandlePlay(documentLang: string) returns (alerted: bool)
      requires Valid()
      modifies hook, hook.synth
      ensures Valid()
      ensures alerted <==> Trim(text) == []
      ensures alerted ==> hook.State() == old(hook.State())
      ensures alerted && hook.synth != null ==> hook.synth.log == old(hook.synth.log)
      ensures !alerted && hook.synth == null ==> hook.State() == old(hook.State())
      ensures !alerted && hook.synth != null ==>
        var u := MakeUtterance(text, SelectedVoice(old(hook.supportedVoices), selectedVoiceURI),
                               rate, pitch, old(hook.synth.voices), documentLang);
        hook.State() == Step(old(hook.State()), Spoken(u))
        && hook.synth.log == old(hook.synth.log) + (if old(hook.synth.speaking) then [Command.Cancel] else []) + [Command.Speak(u)]
      ensures hook.synth != null ==>
        hook.synth.speaking == old(hook.synth.speaking) && hook.synth.paused == old(hook.synth.paused)
        && hook.synth.voices == old(hook.synth.voices)
    {
      if Trim(text) == [] {
        return true;
      }
      var voice := SelectedVoice(hook.supportedVoices, selectedVoiceURI);
      hook.Speak(text, voice, rate, pitch, documentLang);
      return false;
    }

    /** Editing the text cancels playback exactly when the hook is speaking or paused. */
    method HandleTextChange(newText: string)
      requires Valid()
      modifies this`text, hook, hook.synth
      ensures Valid() && text == newText
      ensures !(old(hook.isSpeaking) || old(hook.isPaused)) || hook.synth == null ==> hook.State() == old(hook.State())
      ensures !(old(hook.isSpeaking) || old(hook.isPaused)) && hook.synth != null ==> hook.synth.log == old(hook.synth.log)
      ensures (old(hook.isSpeaking) || old(hook.isPaused)) && hook.synth != null ==>
        hook.State() == Step(old(hook.State()), Cancelled) && hook.synth.log == old(hook.synth.log) + [Command.Cancel]
      ensures hook.synth != null ==>
        hook.synth.speaking == old(hook.synth.speaking) && hook.synth.paused == old(hook.synth.paused)
        && hook.synth.voices == old(hook.synth.voices)
    {
      text := newText;
      if hook.isSpeaking || hook.isPaused {
        hook.Cancel();
      }
    }
  }
}
