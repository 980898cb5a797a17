/** The Web Speech synthesis engine as the playback core sees it: a live voice
    list, the `speaking` and `paused` flags it reports, and the log of commands
    issued to it. What the engine does with a command happens outside the core
    and reaches it only through the flags and the utterance callbacks. */
module Engine {
  import opened Js

  /** A `SpeechSynthesisVoice` as the engine lists it. */
  datatype EngineVoice = EngineVoice(name: string, lang: string, voiceURI: string, isDefault: bool, localService: bool)

  /** A `SpeechSynthesisUtterance` once `speak` has configured it; `voice` stays
      unset when no live voice matched the requested one. */
  datatype Utterance = Utterance(text: string, lang: string, voice: Option<EngineVoice>, pitch: real, rate: real)

  datatype Command = Speak(utterance: Utterance) | Cancel | Pause | Resume

  class SpeechEngine {
    var speaking: bool
    var paused: bool
    var voices: seq<EngineVoice>
    var log: seq<Command>

    constructor (voices: seq<EngineVoice>)
      ensures !speaking && !paused && this.voices == voices && log == []
    {
      speaking, paused := false, false;
      this.voices := voices;
      log := [];
    }

    /** Records that the core issued `c`; the engine's flags react later, on its own. */
    method Issue(c: Command)
      modifies this
      ensures log == old(log) + [c]
      ensures speaking == old(speaking) && paused == old(paused) && voices == old(voices)
    {
      log := log + [c];
    }

    /** The engine's own progress, as the next poll of its flags observes it. */
    method Report(speaking: bool, paused: bool)
      modifies this
      ensures this.speaking == speaking && this.paused == paused
      ensures voices == old(voices) && log == old(log)
    {
      this.speaking, this.paused := speaking, paused;
    }

    /** The engine's voice set changed (the `voiceschanged` event). */
    method ChangeVoices(voices: seq<EngineVoice>)
      modifies this
      ensures this.voices == voices
      ensures speaking == old(speaking) && paused == old(paused) && log == old(log)
    {
      this.voices := voices;
    }
  }
}
