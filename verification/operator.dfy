/** The operator page (public/operator.js): how the messages it receives
    and its clear button change the three strings it shows, the caller's
    original text, its translation, and the language label. */
module OperatorView {
  import opened JsText
  import opened Protocol
  import Lang

  /** The placeholder an empty pane or label shows. */
  const Dash := "\U{2014}"

  /** `LANGS[code]`: the Arabic name of a listed language code. */
  function LangName(code: string): (name: Option<string>)
    ensures name.Some? ==> 2 <= |code| <= 3 && name.value != ""
  {
    match code
    case "ar" => Some("العربية")
    case "en" => Some("الإنجليزية")
    case "es" => Some("الإسبانية")
    case "fr" => Some("الفرنسية")
    case "de" => Some("الألمانية")
    case "it" => Some("الإيطالية")
    case "pt" => Some("البرتغالية")
    case "ru" => Some("الروسية")
    case "zh" => Some("الصينية")
    case "ja" => Some("اليابانية")
    case "ko" => Some("الكورية")
    case "hi" => Some("الهندية")
    case "ur" => Some("الأردية")
    case "sw" => Some("السواحيلية")
    case "ha" => Some("الهاوسا")
    case "am" => Some("الأمهرية")
    case "bn" => Some("البنغالية")
    case "ta" => Some("التاميلية")
    case "te" => Some("التيلوغوية")
    case "mr" => Some("الماراثية")
    case "tr" => Some("التركية")
    case "vi" => Some("الفيتنامية")
    case "th" => Some("التايلاندية")
    case "pl" => Some("البولندية")
    case "nl" => Some("الهولندية")
    case "ro" => Some("الرومانية")
    case "el" => Some("اليونانية")
    case "cs" => Some("التشيكية")
    case "sv" => Some("السويدية")
    case "hu" => Some("الهنغارية")
    case "fi" => Some("الفنلندية")
    case "no" => Some("النرويجية")
    case "da" => Some("الدنماركية")
    case "sk" => Some("السلوفاكية")
    case "bg" => Some("البلغارية")
    case "hr" => Some("الكرواتية")
    case "sr" => Some("الصربية")
    case "uk" => Some("الأوكرانية")
    case "he" => Some("العبرية")
    case "id" => Some("الإندونيسية")
    case "ms" => Some("الماليزية")
    case "fil" => Some("الفلبينية")
    case "fa" => Some("الفارسية")
    case "ps" => Some("الباشتو")
    case "ku" => Some("الكردية")
    case "so" => Some("الصومالية")
    case "yo" => Some("اليوروبا")
    case "ig" => Some("الإيغبو")
    case "zu" => Some("الزولو")
    case "xh" => Some("الخوسا")
    case "af" => Some("الأفريقانية")
    case "sq" => Some("الألبانية")
    case "hy" => Some("الأرمينية")
    case "az" => Some("الأذربيجانية")
    case "eu" => Some("الباسكية")
    case "be" => Some("البيلاروسية")
    case "bs" => Some("البوسنية")
    case "ca" => Some("الكتالانية")
    case "et" => Some("الإستونية")
    case "tl" => Some("التاغالوغية")
    case "ka" => Some("الجورجية")
    case "gu" => Some("الغوجاراتية")
    case "ht" => Some("الكريولية الهايتية")
    case "is" => Some("الآيسلندية")
    case "ga" => Some("الأيرلندية")
    case "kn" => Some("الكانادا")
    case "kk" => Some("الكازاخستانية")
    case "km" => Some("الخميرية")
    case "lo" => Some("اللاوية")
    case "lv" => Some("اللاتفية")
    case "lt" => Some("الليتوانية")
    case "lb" => Some("اللوكسمبورغية")
    case "mk" => Some("المقدونية")
    case "mg" => Some("المالاغاشية")
    case "ml" => Some("المالايالامية")
    case "mt" => Some("المالطية")
    case "mi" => Some("الماورية")
    case "mn" => Some("المنغولية")
    case "ne" => Some("النيبالية")
    case "pa" => Some("البنجابية")
    case "si" => Some("السنهالية")
    case "sl" => Some("السلوفينية")
    case "su" => Some("السوندانية")
    case "tg" => Some("الطاجيكية")
    case "uz" => Some("الأوزبكية")
    case "cy" => Some("الويلزية")
    case "yi" => Some("اليديشية")
    case "la" => Some("اللاتينية")
    case "eo" => Some("الإسبرانتو")
    case _ => None
  }

  /** `displayLang(code)`: the placeholder for a falsy code, the Arabic name
      followed by the code in parentheses for a listed code, and any other
      code as it is. What it shows is never empty. */
  function DisplayLang(code: Option<string>): (shown: string)
    ensures shown != ""
    ensures !Truthy(code) ==> shown == Dash
    ensures Truthy(code) && LangName(code.value).Some? ==>
              var name := LangName(code.value).value;
              IsPrefix(name, shown) && shown[|name|..] == " (" + code.value + ")"
    ensures Truthy(code) && LangName(code.value).None? ==> shown == code.value
  {
    if !Truthy(code) then Dash
    else
      match LangName(code.value)
      case Some(name) =>
        var tail := " (" + code.value + ")";
        assert (name + tail)[..|name|] == name && (name + tail)[|name|..] == tail;
        name + tail
      case None => code.value
  }

  /** `v || ''` */
  function TextOf(v: Option<string>): (t: string)
    ensures v.Some? ==> t == v.value
    ensures v.None? ==> t == ""
  {
    if v.Some? then v.value else ""
  }

  /** The new content of a pane that receives `t`: a pane showing the
      placeholder is replaced, any other keeps its text and gets `t` after
      one space. */
  function AppendPane(pane: string, t: string): (r: string)
    ensures pane == Dash ==> r == t
    ensures pane != Dash ==> |r| == |pane| + 1 + |t| && IsPrefix(pane, r) && r[|pane|] == ' ' && r[|pane| + 1..] == t
  {
    if pane == Dash then t
    else
      var r := pane + " " + t;
      assert r[..|pane|] == pane && r[|pane| + 1..] == t;
      r
  }

  /** What the page shows. */
  datatype Screen = Screen(original: string, translated: string, languageLabel: string)

  /** The screen after a `transcription` message. */
  function AfterTranscription(s: Screen, text: Option<string>, detected: Option<string>,
                              translation: Option<string>): (r: Screen)
    ensures r.languageLabel == DisplayLang(Or(detected, Some("unknown")))
    ensures r.original == AppendPane(s.original, TextOf(text))
    ensures r.translated == AppendPane(s.translated, TextOf(translation))
  {
    Screen(AppendPane(s.original, TextOf(text)), AppendPane(s.translated, TextOf(translation)),
           DisplayLang(Or(detected, Some("unknown"))))
  }

  /** The screen after a `language-changed` or `language-updated` message:
      a falsy value or the text `null` resets the label; the panes keep
      their text. */
  function AfterLanguage(s: Screen, value: Option<string>): (r: Screen)
    ensures r.original == s.original && r.translated == s.translated
    ensures !Truthy(value) || value.value == "null" ==> r.languageLabel == Dash
    ensures Truthy(value) && value.value != "null" ==> r.languageLabel == DisplayLang(value)
  {
    if !Truthy(value) || value.value == "null" then s.(languageLabel := Dash)
    else s.(languageLabel := DisplayLang(value))
  }

  /** The screen after a `registered` message: only a truthy language
      changes the label. */
  function AfterRegistered(s: Screen, value: Option<string>): (r: Screen)
    ensures r.original == s.original && r.translated == s.translated
    ensures !Truthy(value) ==> r == s
    ensures Truthy(value) ==> r.languageLabel == DisplayLang(value)
  {
    if Truthy(value) then s.(languageLabel := DisplayLang(value)) else s
  }

  /** The screen after the clear button: both panes show the placeholder,
      the label is kept. */
  function Cleared(s: Screen): (r: Screen)
    ensures r.original == Dash && r.translated == Dash && r.languageLabel == s.languageLabel
  {
    s.(original := Dash, translated := Dash)
  }

  /** The screen after any message from the server. An `error` only raises
      an alert, and a message of any other type is ignored. */
  function Receive(s: Screen, m: Message): (r: Screen)
    ensures !m.Transcription? ==> r.original == s.original && r.translated == s.translated
    ensures m.Error? || m.OperatorReply? || m.RegisteredCaller? ==> r == s
  {
    match m
    case Transcription(_, text, detected, translation) =>
      AfterTranscription(s, Some(text), detected, Some(translation))
    case LanguageChanged(_, value) => AfterLanguage(s, value)
    case LanguageUpdated(_, value) => AfterLanguage(s, value)
    case RegisteredOperator(_, value) => AfterRegistered(s, value)
    case RegisteredCaller(_) => AfterRegistered(s, None)
    case Error(_) => s
    case OperatorReply(_, _, _, _) => s
  }

  /** The screen after a run of messages, in order. */
  function ReceiveAll(s: Screen, ms: seq<Message>): Screen
  {
    if ms == [] then s else Receive(ReceiveAll(s, ms[..|ms| - 1]), ms[|ms| - 1])
  }

  /** The page's three displayed strings, overwritten by its handlers. */
  class OperatorPage {
    var original: string
    var translated: string
    var languageLabel: string

    function View(): Screen
      reads this
    {
      Screen(original, translated, languageLabel)
    }

    /** The page as loaded, showing what its markup puts in the panes and
        the label. */
    constructor(original0: string, translated0: string, languageLabel0: string)
      ensures View() == Screen(original0, translated0, languageLabel0)
    {
      original, translated, languageLabel := original0, translated0, languageLabel0;
    }

    method OnTranscription(text: Option<string>, detected: Option<string>, translation: Option<string>)
      modifies this
      ensures View() == AfterTranscription(old(View()), text, detected, translation)
    {
      languageLabel := DisplayLang(Or(detected, Some("unknown")));
      if original == Dash {
        original := TextOf(text);
      } else {
        original := original + " " + TextOf(text);
      }
      if translated == Dash {
        translated := TextOf(translation);
      } else {
        translated := translated + " " + TextOf(translation);
      }
    }

    method OnLanguage(value: Option<string>)
      modifies this
      ensures View() == AfterLanguage(old(View()), value)
    {
      if !Truthy(value) || value.value == "null" {
        languageLabel := Dash;
      } else {
        languageLabel := DisplayLang(value);
      }
    }

    method OnRegistered(value: Option<string>)
      modifies this
      ensures View() == AfterRegistered(old(View()), value)
    {
      if Truthy(value) {
        languageLabel := DisplayLang(value);
      }
    }

    method Clear()
      modifies this
      ensures View() == Cleared(old(View()))
    {
      original := Dash;
      translated := Dash;
    }

    /** `ws.onmessage` for a parsed message. */
    method OnMessage(m: Message)
      modifies this
      ensures View() == Receive(old(View()), m)
    {
      match m {
        case Transcription(_, text, detected, translation) =>
          OnTranscription(Some(text), detected, Some(translation));
        case LanguageChanged(_, value) => OnLanguage(value);
        case LanguageUpdated(_, value) => OnLanguage(value);
        case RegisteredOperator(_, value) => OnRegistered(value);
        case RegisteredCaller(_) => OnRegistered(None);
        case Error(_) =>
        case OperatorReply(_, _, _, _) =>
      }
    }
  }

  /** The server's "no language" values are not listed codes, so they are
      shown as they are; `unknown`, which transcriptions carry for an
      undetected language, is one of them. */
  lemma SentinelsShownAsIs(code: string)
    requires code in Lang.Sentinels
    ensures LangName(code).None? && DisplayLang(Some(code)) == code
  {
  }

  /** A listed code is shown with its Arabic name. */
  lemma ListedCodeShown()
    ensures DisplayLang(Some("en")) == "الإنجليزية (en)"
  {
  }

  /** After the clear button, a transcription shows exactly its own text
      and translation, whatever the panes held before. */
  lemma TranscriptionAfterClear(s: Screen, id: string, text: string, detected: Option<string>, translation: string)
    ensures var r := Receive(Cleared(s), Transcription(id, text, detected, translation));
            r.original == text && r.translated == translation
  {
  }

  /** Errors, operator replies and a `registered` message without a language
      leave the screen as it was. */
  lemma IgnoredMessages(s: Screen, m: Message)
    requires m.Error? || m.OperatorReply? || m.RegisteredCaller?
    ensures Receive(s, m) == s
  {
  }

  /** Texts joined with one space between neighbours. */
  function JoinSpaced(ts: seq<string>): string
    requires |ts| > 0
  {
    if |ts| == 1 then ts[0] else JoinSpaced(ts[..|ts| - 1]) + " " + ts[|ts| - 1]
  }

  /** A pane after receiving the texts `ts` in order. */
  function FeedPane(pane: string, ts: seq<string>): string
  {
    if ts == [] then pane else AppendPane(FeedPane(pane, ts[..|ts| - 1]), ts[|ts| - 1])
  }

  /** A pane that starts at the placeholder ends up showing all the texts
      it received, joined by single spaces, as long as no text is itself
      the placeholder. */
  lemma {:induction false} FeedFromPlaceholder(ts: seq<string>)
    requires |ts| > 0 && forall i :: 0 <= i < |ts| ==> ts[i] != Dash
    ensures FeedPane(Dash, ts) == JoinSpaced(ts)
    decreases |ts|
  {
    if |ts| > 1 {
      var init := ts[..|ts| - 1];
      FeedFromPlaceholder(init);
      var shown := JoinSpaced(init);
      if |init| > 1 {
        var j := JoinSpaced(init[..|init| - 1]);
        assert shown[|j|] == ' ';
      }
      assert shown != Dash;
    }
  }

  predicate Transcriptions(ms: seq<Message>)
  {
    forall i :: 0 <= i < |ms| ==> ms[i].Transcription?
  }

  /** The texts of a run of transcriptions, in order. */
  function Texts(ms: seq<Message>): seq<string>
    requires Transcriptions(ms)
  {
    seq(|ms|, i requires 0 <= i < |ms| => ms[i].text)
  }

  /** The translations of a run of transcriptions, in order. */
  function TranslationsOf(ms: seq<Message>): seq<string>
    requires Transcriptions(ms)
  {
    seq(|ms|, i requires 0 <= i < |ms| => ms[i].translation)
  }

  lemma DropLast(ms: seq<Message>)
    requires Transcriptions(ms) && ms != []
    ensures Transcriptions(ms[..|ms| - 1])
    ensures Texts(ms[..|ms| - 1]) == Texts(ms)[..|ms| - 1]
    ensures TranslationsOf(ms[..|ms| - 1]) == TranslationsOf(ms)[..|ms| - 1]
  {
  }

  /** A run of transcriptions feeds each pane its texts, and the label ends
      up naming the language of the last one (`unknown` when it has none). */
  lemma {:induction false} ReceiveTranscriptions(s: Screen, ms: seq<Message>)
    requires Transcriptions(ms)
    ensures var r := ReceiveAll(s, ms);
            && r.original == FeedPane(s.original, Texts(ms))
            && r.translated == FeedPane(s.translated, TranslationsOf(ms))
            && r.languageLabel == if ms == [] then s.languageLabel
                                  else DisplayLang(Or(ms[|ms| - 1].detectedLanguage, Some("unknown")))
    decreases |ms|
  {
    if ms != [] {
      DropLast(ms);
      ReceiveTranscriptions(s, ms[..|ms| - 1]);
    }
  }

  /** After the clear button, the panes show every transcription received
      since, joined by single spaces (none of them being the placeholder). */
  lemma PanesAfterClear(s: Screen, ms: seq<Message>)
    requires |ms| > 0 && Transcriptions(ms)
    requires forall i :: 0 <= i < |ms| ==> ms[i].text != Dash && ms[i].translation != Dash
    ensures var r := ReceiveAll(Cleared(s), ms);
            && r.original == JoinSpaced(Texts(ms))
            && r.translated == JoinSpaced(TranslationsOf(ms))
  {
    ReceiveTranscriptions(Cleared(s), ms);
    FeedFromPlaceholder(Texts(ms));
    FeedFromPlaceholder(TranslationsOf(ms));
  }
}
