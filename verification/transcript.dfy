/** The steps of `processAudioFile` in server.js that come after the
    transcript is known: the exact-phrase spam test, the interpretation of the
    chat reply, and the language update with its events. As the source is
    written, control never gets past the undeclared `isSpam` (server.js:189),
    so these are modelled standalone, as they would run if it did. */
module Transcript {
  import opened JsText
  import opened Lang
  import opened Protocol

  /** Broadcast and sign-off phrases and broadcaster names; a transcript
      equal to one of them (after trimming and lowercasing) is exact spam. */
  const ExactSpamPhrases: seq<string> := SignOffPhrases + ChannelNames

  const SignOffPhrases: seq<string> := [
    "thank you for watching", "thanks for watching", "please subscribe",
    "subscribe to my channel", "like and subscribe", "don't forget to subscribe",
    "hit the bell icon", "smash that like button", "see you in the next video",
    "see you next time", "catch you in the next one", "until next time",
    "see you soon", "thanks for tuning in", "stay tuned", "coming up next",
    "i am from mbc", "i'm from mbc", "this is mbc", "you're watching",
    "you are watching", "welcome back", "coming up"
  ]

  const ChannelNames: seq<string> := [
    "mbc", "mbc1", "mbc2", "mbc3", "mbc4", "al arabiya", "alarabiya",
    "aljazeera", "al jazeera", "bbc arabic", "france 24", "dw arabic",
    "rt arabic", "sputnik", "cnbc arabia", "sky news arabia", "alhurra",
    "al hurra", "dubai tv", "abu dhabi tv", "saudi tv", "lbc", "mtv lebanon",
    "al mayadeen", "alhayat", "al hayat"
  ]

  /** `isExactSpam`: the trimmed, lowercased transcript is one of the phrases. */
  predicate IsExactSpam(transcription: string): (spam: bool)
    ensures spam ==> !AllSpace(transcription)
  {
    BlankNotSpam(transcription);
    Canonical(transcription) in ExactSpamPhrases
  }

  lemma BlankNotSpam(transcription: string)
    ensures AllSpace(transcription) ==> Canonical(transcription) !in ExactSpamPhrases
  {
    NoEmptyPhrase();
    if AllSpace(transcription) {
      assert Trim(transcription) == "";
    }
  }

  lemma NoEmptyPhrase()
    ensures "" !in ExactSpamPhrases
  {
    NoEmptySignOff();
    NoEmptyChannel();
  }

  lemma NoEmptySignOff()
    ensures "" !in SignOffPhrases
  {
  }

  lemma NoEmptyChannel()
    ensures "" !in ChannelNames
  {
  }

  /** A listed broadcaster name is detected, whatever its case and the white
      space around it: `" MBC\n"` is exact spam. */
  lemma ChannelNameIsSpam(before: string, after: string)
    requires AllSpace(before) && AllSpace(after)
    ensures IsExactSpam(before + "MBC" + after)
  {
    MbcIsSpam();
    ExactSpamIgnoresPaddingAndCase(before, "MBC", after);
  }

  lemma MbcIsSpam()
    ensures IsExactSpam("MBC")
  {
    CanonicalMbc();
    MbcListed();
  }

  lemma MbcListed()
    ensures "mbc" in ExactSpamPhrases
  {
    assert ChannelNames[0] == "mbc";
    assert ExactSpamPhrases[|SignOffPhrases|] == "mbc";
  }

  lemma CanonicalMbc()
    ensures Canonical("MBC") == "mbc"
  {
    TrimUntouched("MBC");
  }

  /** The exact-phrase test ignores white space around the transcript and the
      case of its ASCII letters. */
  lemma ExactSpamIgnoresPaddingAndCase(before: string, transcription: string, after: string)
    requires AllSpace(before) && AllSpace(after)
    ensures IsExactSpam(before + transcription + after) == IsExactSpam(transcription)
    ensures IsExactSpam(Lower(transcription)) == IsExactSpam(transcription)
  {
    TrimIgnoresPadding(before, transcription, after);
    assert Canonical(before + transcription + after) == Canonical(transcription);
    var t := Trim(transcription);
    TrimLowerCommute(transcription);
    LowerIdempotent(t);
    assert Canonical(Lower(transcription)) == Canonical(transcription);
  }

  /** What the chat service answered. `Parsed` is a reply that `JSON.parse`
      turns into a non-null value, with the four fields it may carry (absent
      or falsy fields are `None`); `Unparsed` is any other reply text, the
      empty text standing for a missing `content`. */
  datatype ChatReply =
    | Parsed(detectedLanguage: Option<string>, language: Option<string>, lang: Option<string>, translation: Option<string>)
    | Unparsed(text: string)

  /** The language and translation the pipeline takes from a chat reply. */
  datatype Reading = Reading(language: Option<string>, translation: string)

  /** `text.trim().split(/\s+/)[0]` */
  function FirstToken(text: string): (token: string)
    ensures IsPrefix(token, Trim(text))
    ensures forall i :: 0 <= i < |token| ==> !IsSpace(token[i])
    ensures |token| == |Trim(text)| || IsSpace(Trim(text)[|token|])
  {
    TakeWhile(Trim(text), c => !IsSpace(c))
  }

  /** The JSON-or-fallback interpretation of the chat reply. A parsed reply
      gives the normalised first truthy one of `detectedLanguage`, `language`
      and `lang`, and its `translation` or else the transcript. Otherwise the
      language is the normalised first word of the reply and the translation
      is the raw reply, or the transcript when the reply is empty. Either way
      the language is null or a code, and the translation is non-empty
      whenever the transcript is. */
  function InterpretReply(reply: ChatReply, transcription: string): (r: Reading)
    ensures IsLangState(r.language)
    ensures transcription != "" ==> r.translation != ""
    ensures reply.Parsed? ==>
              && (Truthy(reply.detectedLanguage) ==> r.language == NormalizeLang(reply.detectedLanguage))
              && (!Truthy(reply.detectedLanguage) && Truthy(reply.language) ==> r.language == NormalizeLang(reply.language))
              && (!Truthy(reply.detectedLanguage) && !Truthy(reply.language) ==> r.language == NormalizeLang(reply.lang))
              && r.translation == (if Truthy(reply.translation) then reply.translation.value else transcription)
    ensures reply.Unparsed? ==>
              && r.language == NormalizeLang(Some(FirstToken(reply.text)))
              && r.translation == (if reply.text != "" then reply.text else transcription)
  {
    match reply
    case Parsed(detectedLanguage, language, lang, translation) =>
      Reading(NormalizeLang(Or(Or(detectedLanguage, language), lang)),
              if Truthy(translation) then translation.value else transcription)
    case Unparsed(text) =>
      Reading(NormalizeLang(Some(FirstToken(text))), if text != "" then text else transcription)
  }

  lemma PrefixTransitive(a: string, b: string, c: string)
    requires IsPrefix(a, b) && IsPrefix(b, c)
    ensures IsPrefix(a, c)
  {
    assert c[..|a|] == c[..|b|][..|a|];
  }

  lemma LowerPrefix(a: string, b: string)
    requires IsPrefix(a, b)
    ensures IsPrefix(Lower(a), Lower(b))
  {
  }

  /** When the reply is not JSON, the language guess is read off the start
      of the reply itself: it is a prefix of the reply's trimmed, lowercased
      text. */
  lemma FallbackGuessIsPrefix(text: string, transcription: string)
    ensures var r := InterpretReply(Unparsed(text), transcription);
            r.language.Some? ==> IsPrefix(r.language.value, Canonical(text))
  {
    var token := FirstToken(text);
    var r := InterpretReply(Unparsed(text), transcription);
    if r.language.Some? {
      assert token != [];
      assert Trim(token) == token by {
        assert TrimStart(token) == token;
        assert TrimEnd(token) == token;
      }
      LowerPrefix(token, Trim(text));
      PrefixTransitive(r.language.value, Lower(token), Canonical(text));
    }
  }

  /** The events sent after a successful pipeline: a transcription event
      carrying `language || 'unknown'`, then a language-changed event exactly
      when the stored language differs from the previous one. */
  function TranscriptionEvents(callId: string, previous: Option<string>, language: Option<string>,
                               text: string, translation: string): (events: seq<Message>)
    ensures 1 <= |events| <= 2
    ensures events[0] == Transcription(callId, text, Some(ShownLanguage(language)), translation)
    ensures |events| == 2 <==> previous != language
    ensures |events| == 2 ==> events[1] == LanguageChanged(callId, Some(ShownLanguage(language)))
  {
    [Transcription(callId, text, Some(ShownLanguage(language)), translation)]
      + (if previous != language then [LanguageChanged(callId, Some(ShownLanguage(language)))] else [])
  }

  /** The comparison is on stored values, not shown ones: a change from null
      to the empty code announces a change although operators see
      `'unknown'` both before and after. */
  lemma ChangeBetweenTwoUnknowns(callId: string)
    ensures TranscriptionEvents(callId, None, Some(""), "hello", "hello")
            == [Transcription(callId, "hello", Some("unknown"), "hello"), LanguageChanged(callId, Some("unknown"))]
  {
  }

  /** How the rest of the pipeline ends for one transcript. */
  datatype Tail =
    | Filtered                                                  // a spam pattern matched; nothing is sent
    | Failed                                                    // the chat request failed; an error is broadcast
    | Delivered(language: Option<string>, events: seq<Message>) // the session language is set and the events are broadcast

  /** The steps from server.js:194 on. The regular-expression stages are the
      abstract predicates `originalSpam` (on the trimmed, lowercased
      transcript) and `translationSpam` (on the translation); `chat` is the
      chat reply, or `None` when the request failed. A spam match before
      translation ends the pipeline whatever the chat service would say; a
      delivered result passed both stages, stores the interpreted language,
      reports the transcript with a non-empty translation, and announces a
      language change exactly when the language changed. */
  function TranscriptionTail(callId: string, previous: Option<string>, transcription: string,
                             originalSpam: string -> bool, chat: Option<ChatReply>,
                             translationSpam: string -> bool): (r: Tail)
    requires transcription != ""
    ensures originalSpam(Canonical(transcription)) ==> r == Filtered
    ensures r == Failed <==> !originalSpam(Canonical(transcription)) && chat.None?
    ensures r.Delivered? <==>
              && !originalSpam(Canonical(transcription))
              && chat.Some?
              && !translationSpam(InterpretReply(chat.value, transcription).translation)
    ensures r.Delivered? ==>
              && var reading := InterpretReply(chat.value, transcription);
              && r.language == reading.language
              && IsLangState(r.language)
              && reading.translation != ""
              && r.events == TranscriptionEvents(callId, previous, r.language, transcription, reading.translation)
  {
    if originalSpam(Canonical(transcription)) then Filtered
    else
      match chat
      case None => Failed
      case Some(reply) =>
        var reading := InterpretReply(reply, transcription);
        if translationSpam(reading.translation) then Filtered
        else Delivered(reading.language,
                       TranscriptionEvents(callId, previous, reading.language, transcription, reading.translation))
  }
}
