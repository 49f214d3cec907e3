/** The input state of components/ChatInterface.tsx: the text box, the
    submit rule with its language instruction, the speech transcript append
    and the microphone toggle. Whether the browser offers a speech
    recogniser is the constant `hasRecognizer`; the recogniser's callbacks
    are methods. */
module ChatInterface {
  import opened Wrappers
  import opened Language

  // ---------------------------------------------------------------------
  // String.prototype.trim

  /** The characters `trim` removes: the ECMAScript WhiteSpace and
      LineTerminator code points. */
  predicate IsJsSpace(c: char) {
    ('\U{9}' <= c <= '\U{D}') || c == '\U{20}' || c == '\U{A0}' || c == '\U{1680}'
    || ('\U{2000}' <= c <= '\U{200A}') || c == '\U{2028}' || c == '\U{2029}'
    || c == '\U{202F}' || c == '\U{205F}' || c == '\U{3000}' || c == '\U{FEFF}'
  }

  function TrimStart(s: string): (r: string)
    ensures |r| <= |s| && r == s[|s| - |r|..]
    ensures r != [] ==> !IsJsSpace(r[0])
    ensures forall i :: 0 <= i < |s| - |r| ==> IsJsSpace(s[i])
  {
    if s != [] && IsJsSpace(s[0]) then TrimStart(s[1..]) else s
  }

  function TrimEnd(s: string): (r: string)
    ensures |r| <= |s| && r == s[..|r|]
    ensures r != [] ==> !IsJsSpace(r[|r| - 1])
    ensures forall i :: |r| <= i < |s| ==> IsJsSpace(s[i])
  {
    if s != [] && IsJsSpace(s[|s| - 1]) then TrimEnd(s[..|s| - 1]) else s
  }

  function Trim(s: string): string {
    TrimEnd(TrimStart(s))
  }

  /** `input.trim()` is truthy exactly when the input holds a character
      that is not white space. */
  lemma TrimNonEmpty(s: string)
    ensures Trim(s) != "" <==> exists i :: 0 <= i < |s| && !IsJsSpace(s[i])
  {
    var a := TrimStart(s);
    var b := TrimEnd(a);
    if b != "" {
      assert !IsJsSpace(b[0]) && b[0] == s[|s| - |a|];
    }
  }

  // ---------------------------------------------------------------------
  // Submitting

  /** The name in the language instruction. */
  function LanguageName(lang: Language): string {
    match lang
    case Hi => "Hindi"
    case Mr => "Marathi"
    case En => "English"
  }

  /** `[Respond in <language>] `. */
  function Instruction(lang: Language): string {
    "[Respond in " + LanguageName(lang) + "] "
  }

  /** `langMap`: the recogniser's language tag. */
  function LangTag(lang: Language): string {
    match lang
    case En => "en-US"
    case Hi => "hi-IN"
    case Mr => "mr-IN"
  }

  /** The three languages get three different instructions and three
      different recogniser tags, so the language is recoverable from each. */
  lemma LanguageTextsDistinct(a: Language, b: Language)
    requires a != b
    ensures Instruction(a) != Instruction(b) && LangTag(a) != LangTag(b)
  {
    var ia, ib := Instruction(a), Instruction(b);
    assert ia[12] != ib[12];
  }

  /** The text after a speech transcript: one separating space only when
      the input was non-empty. */
  function AppendTranscript(input: string, transcript: string): (r: string)
    ensures input == "" ==> r == transcript
    ensures input != "" ==> (|r| == |input| + 1 + |transcript| && r[..|input|] == input
                              && r[|input|] == ' ' && r[|input| + 1..] == transcript)
  {
    input + (if input != "" then " " else "") + transcript
  }

  // ---------------------------------------------------------------------
  // The microphone toggle

  /** What the toggle asks of the recogniser. `?.` makes a call on a
      missing recogniser a no-op. */
  datatype RecognizerCall = Start | Stop | NoCall

  /** `toggleRecording` as written: from not-recording the flag is raised
      whether or not a recogniser exists. */
  function ToggleAsWritten(hasRecognizer: bool, isRecording: bool): (bool, RecognizerCall) {
    if isRecording then (true, if hasRecognizer then Stop else NoCall)
    else (true, if hasRecognizer then Start else NoCall)
  }

  /** Without a recogniser the flag is raised by one click and then no
      click lowers it, and nothing else can: the recogniser's `onend` and
      `onerror` callbacks, which alone clear it, do not exist. The
      microphone button stays in its recording look. */
  lemma ToggleAsWrittenSticks()
    ensures ToggleAsWritten(false, false) == (true, NoCall)
    ensures ToggleAsWritten(false, true) == (true, NoCall)
  {
  }

  /** The toggle as evidently intended: recording starts only when there
      is a recogniser to start. */
  function ToggleGuarded(hasRecognizer: bool, isRecording: bool): (r: (bool, RecognizerCall))
    ensures r.0 ==> hasRecognizer
    ensures hasRecognizer && !isRecording ==> r == (true, Start)
    ensures hasRecognizer && isRecording ==> r == (true, Stop)
    ensures !hasRecognizer ==> r == (false, NoCall)
  {
    if !hasRecognizer then (false, NoCall)
    else if isRecording then (true, Stop)
    else (true, Start)
  }

  /** With a recogniser the two toggles agree; they differ only where the
      written one raises a flag nothing can lower. */
  lemma ToggleGuardedAgrees(hasRecognizer: bool, isRecording: bool)
    ensures hasRecognizer ==> ToggleGuarded(hasRecognizer, isRecording) == ToggleAsWritten(hasRecognizer, isRecording)
    ensures !hasRecognizer ==> ToggleGuarded(hasRecognizer, isRecording) != ToggleAsWritten(hasRecognizer, isRecording)
  {
  }

  class ChatBox {
    var input: string
    var isRecording: bool
    /** Whether the browser offers a speech recogniser. */
    const hasRecognizer: bool
    /** The `lang` of the recogniser, once the language effect has run. */
    var recognizerLang: Option<string>

    /** The flag is raised only while a recogniser can lower it again. */
    predicate Valid()
      reads this
    {
      isRecording ==> hasRecognizer
    }

    constructor (hasRecognizer: bool)
      ensures this.hasRecognizer == hasRecognizer
      ensures input == "" && !isRecording && recognizerLang == None && Valid()
    {
      this.hasRecognizer := hasRecognizer;
      input := "";
      isRecording := false;
      recognizerLang := None;
    }

    /** Typing in the text box. */
    method Edit(text: string)
      requires Valid()
      modifies this
      ensures input == text && isRecording == old(isRecording) && recognizerLang == old(recognizerLang)
      ensures Valid()
    {
      input := text;
    }

    /** `handleSubmit`: with some non-space text and no request in flight,
        the instruction and the untrimmed input are sent and the box is
        cleared; otherwise nothing happens. */
    method Submit(isLoading: bool, lang: Language) returns (sent: Option<string>)
      requires Valid()
      modifies this
      ensures sent.Some? <==> Trim(old(input)) != "" && !isLoading
      ensures sent.Some? ==> sent.value == Instruction(lang) + old(input) && input == ""
      ensures sent.None? ==> input == old(input)
      ensures isRecording == old(isRecording) && recognizerLang == old(recognizerLang)
      ensures Valid()
    {
      if Trim(input) != "" && !isLoading {
        sent := Some(Instruction(lang) + input);
        input := "";
      } else {
        sent := None;
      }
    }

    /** `onresult`: the transcript is appended and recording stops. */
    method OnResult(transcript: string)
      requires Valid() && hasRecognizer
      modifies this
      ensures input == AppendTranscript(old(input), transcript) && !isRecording
      ensures recognizerLang == old(recognizerLang)
      ensures Valid()
    {
      input := AppendTranscript(input, transcript);
      isRecording := false;
    }

    /** `onend` and `onerror`. */
    method OnEnd()
      requires Valid() && hasRecognizer
      modifies this
      ensures !isRecording && input == old(input) && recognizerLang == old(recognizerLang)
      ensures Valid()
    {
      isRecording := false;
    }

    /** The microphone button, in the guarded form. */
    method ToggleRecording() returns (call: RecognizerCall)
      requires Valid()
      modifies this
      ensures (isRecording, call) == ToggleGuarded(hasRecognizer, old(isRecording))
      ensures old(isRecording) ==> isRecording && call == Stop
      ensures input == old(input) && recognizerLang == old(recognizerLang)
      ensures Valid()
    {
      if !hasRecognizer {
        call := NoCall;
      } else if isRecording {
        call := Stop;
      } else {
        isRecording := true;
        call := Start;
      }
    }

    /** The language effect: only an existing recogniser gets a language. */
    method ApplyLanguage(lang: Language)
      requires Valid()
      modifies this
      ensures hasRecognizer ==> recognizerLang == Some(LangTag(lang))
      ensures !hasRecognizer ==> recognizerLang == old(recognizerLang)
      ensures input == old(input) && isRecording == old(isRecording)
      ensures Valid()
    {
      if hasRecognizer {
        recognizerLang := Some(LangTag(lang));
      }
    }
  }
}
