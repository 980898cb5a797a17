/** The voice record the user interface works with. */
module Types {
  /** A voice as the hook publishes it: the engine's voice without its
      engine-only attributes. */
  datatype VoiceOption = VoiceOption(name: string, lang: string, voiceURI: string, isDefault: bool)
}
