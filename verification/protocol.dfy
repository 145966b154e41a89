/** The outbound socket messages of server.js, one constructor per `type`. */
module Protocol {
  import opened JsText

  /** Every `detectedLanguage` field is optional, as JSON may carry `null`. */
  datatype Message =
    | RegisteredCaller(callId: string)
    | RegisteredOperator(callId: string, detectedLanguage: Option<string>)
    | Error(message: string)
    | Transcription(callId: string, text: string, detectedLanguage: Option<string>, translation: string)
    | LanguageChanged(callId: string, detectedLanguage: Option<string>)
    | LanguageUpdated(callId: string, detectedLanguage: Option<string>)
    | OperatorReply(text: string, language: string, audio: Option<string>, mime: string)

  const MissingCallId := "missing callId"
  const UnknownCallId := "Unknown callId"
  const NoAudioData := "No audio data"
  const TranscriptionFailed := "Transcription failed"

  /** `language || 'unknown'`: how a session language is shown to operators.
      It is never empty; it is the language itself whenever that is truthy,
      and `unknown` for a null or empty language. */
  function ShownLanguage(language: Option<string>): (shown: string)
    ensures shown != ""
    ensures Truthy(language) ==> shown == language.value
    ensures !Truthy(language) ==> shown == "unknown"
  {
    if Truthy(language) then language.value else "unknown"
  }
}
