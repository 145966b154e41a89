/** The branch choice of the `operator-reply` handler in server.js: which
    text, language tag and synthesised audio the caller receives. The chat
    translation and the speech synthesis are inputs; synthesis never fails
    outright, it may only come back without audio. */
module Reply {
  import opened JsText
  import opened Protocol

  /** What `textToSpeech` resolves to: base64 audio or null, and a media type. */
  datatype Speech = Speech(base64: Option<string>, mime: string)

  /** The translation request: it failed (threw), or it answered with a
      message content that may be missing. */
  datatype Translation = TranslationFailed | Translated(content: Option<string>)

  /** The language operators write in, and the tag of untranslated replies. */
  const DisplayLanguage := "ar"

  /** `!targetLang || String(targetLang).startsWith('ar')`: the reply is
      spoken as written when the caller's language is unknown or Arabic. */
  predicate SpeaksAsWritten(detected: Option<string>): (asWritten: bool)
    ensures asWritten <==> detected.None? || detected.value == ""
                           || (|detected.value| >= 2 && detected.value[0] == 'a' && detected.value[1] == 'r')
  {
    !Truthy(detected) || IsPrefix(DisplayLanguage, detected.value)
  }

  /** `content?.trim() || text` */
  function TranslatedText(content: Option<string>, text: string): (r: string)
    ensures content.Some? && !AllSpace(content.value) ==> r == Trim(content.value) && r != ""
    ensures content.None? || AllSpace(content.value) ==> r == text
  {
    if content.Some? && Trim(content.value) != "" then Trim(content.value) else text
  }

  /** The message the caller is sent for an operator reply. When the session
      language is null, empty or starts with `ar`, or when the translation
      request fails, the caller gets the operator's own text tagged `ar`;
      otherwise the trimmed translation (the operator's text if that is
      empty) tagged with the session language. The audio is always the
      synthesis of exactly the text sent, and a non-empty reply never turns
      into an empty one. */
  function ReplyToCaller(detected: Option<string>, text: string, translation: Translation,
                         tts: string -> Speech): (m: Message)
    ensures m.OperatorReply?
    ensures m.audio == tts(m.text).base64 && m.mime == tts(m.text).mime
    ensures SpeaksAsWritten(detected) || translation.TranslationFailed? ==> m.text == text && m.language == DisplayLanguage
    ensures !SpeaksAsWritten(detected) && translation.Translated? ==>
              && m.language == detected.value
              && m.text == TranslatedText(translation.content, text)
              && (translation.content.Some? && Trim(translation.content.value) != "" ==> !IsSpace(m.text[0]) && !IsSpace(m.text[|m.text| - 1]))
    ensures m.language == DisplayLanguage || (Truthy(detected) && m.language == detected.value && !IsPrefix(DisplayLanguage, m.language))
    ensures text != "" ==> m.text != ""
  {
    if SpeaksAsWritten(detected) then
      var audio := tts(text);
      OperatorReply(text, DisplayLanguage, audio.base64, audio.mime)
    else
      match translation
      case TranslationFailed =>
        var audio := tts(text);
        OperatorReply(text, DisplayLanguage, audio.base64, audio.mime)
      case Translated(content) =>
        var translated := TranslatedText(content, text);
        var audio := tts(translated);
        OperatorReply(translated, detected.value, audio.base64, audio.mime)
  }
}
