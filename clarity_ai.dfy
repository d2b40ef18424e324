/** The `ClarityAI` component: its state record and the handlers that update it.
    Timers, the `/analyze` request, the speech recognizer and the speech engines
    are outside the model; each of their callbacks is a method here, and what the
    browser would report (is an engine present, did a call throw) is a parameter. */
module ClarityComponent {
  import opened Wrappers
  import opened Strings
  import Voices
  import Recognition
  import opened Analysis

  datatype Screen = Intro | Input | Loading | Results

  /** How the `/analyze` request ended: an ok response with its parsed body, a
      response that is not ok, or an exception (a network failure, or a body that
      does not parse). */
  datatype AnalysisOutcome = Ok(result: AnalysisResult) | NotOk | Thrown

  /** What a playback handed to a speech engine: ResponsiveVoice is given the
      text and a voice name, the browser's speech synthesis only the text. */
  datatype SpeechRequest =
    | ResponsiveVoiceSpeak(text: string, voiceName: string)
    | SynthesisSpeak(text: string)

  const EmptyInputError := "Please enter some text or use voice input"
  const NotOkError := "Analysis failed. Please check your connection and try again."
  const ThrownError := "Analysis failed. Server might be starting up, please try again."
  const RecognitionUnsupportedError := "Speech recognition not supported in this browser"
  const StartFailedError := "Could not start speech recognition"
  const RecognitionErrorPrefix := "Speech recognition error: "
  const SpeechFailedError := "Text-to-speech failed"
  const SpeechUnsupportedError := "Text-to-speech not supported in this browser"

  /** The component's state fields, as one value. */
  datatype Snapshot = Snapshot(
    currentScreen: Screen,
    speechText: string,
    analysisResult: Option<AnalysisResult>,
    isLoading: bool,
    error: string,
    isListening: bool,
    isTranscribing: bool,
    isPlayingAudio: Option<nat>)

  const Initial := Snapshot(Intro, "", None, false, "", false, false, None)

  class ClarityAI {
    var currentScreen: Screen
    var speechText: string
    var analysisResult: Option<AnalysisResult>
    var isLoading: bool
    var error: string
    var isListening: bool
    var isTranscribing: bool
    var isPlayingAudio: Option<nat>
    /** Whether the browser offered a speech recognizer when the component mounted. */
    const recognitionSupported: bool

    function State(): Snapshot
      reads this
    {
      Snapshot(currentScreen, speechText, analysisResult, isLoading, error,
        isListening, isTranscribing, isPlayingAudio)
    }

    /** The results screen always has a result to show, and the two recognition
        flags are always set and cleared together. */
    ghost predicate Valid()
      reads this
    {
      (currentScreen == Results ==> analysisResult.Some?)
      && isListening == isTranscribing
    }

    constructor (recognitionSupported: bool)
      ensures Valid()
      ensures State() == Initial
      ensures this.recognitionSupported == recognitionSupported
    {
      currentScreen := Intro;
      speechText := "";
      analysisResult := None;
      isLoading := false;
      error := "";
      isListening := false;
      isTranscribing := false;
      isPlayingAudio := None;
      this.recognitionSupported := recognitionSupported;
    }

    /** The analyze button exists only on the input screen; it is enabled when
        the text has a visible character and the component is neither loading
        nor listening. */
    function AnalyzeEnabled(): (enabled: bool)
      reads this
      ensures enabled <==>
        currentScreen == Input
        && (exists i :: 0 <= i < |speechText| && !IsWhitespace(speechText[i]))
        && !isLoading && !isListening
    {
      currentScreen == Input && Trim(speechText) != "" && !isLoading && !isListening
    }

    /** The clear button sits beside the microphone button on the input
        screen, so it exists only there and with a recognizer; it is enabled
        when the text has a visible character and the component is not listening. */
    function ClearEnabled(): (enabled: bool)
      reads this
      ensures enabled <==>
        currentScreen == Input && recognitionSupported
        && (exists i :: 0 <= i < |speechText| && !IsWhitespace(speechText[i]))
        && !isListening
    {
      currentScreen == Input && recognitionSupported && Trim(speechText) != "" && !isListening
    }

    /** The microphone button exists only on the input screen and when the
        browser has a recognizer, and is disabled while an analysis is loading. */
    function MicrophoneEnabled(): (enabled: bool)
      reads this
      ensures enabled <==> currentScreen == Input && recognitionSupported && !isLoading
    {
      currentScreen == Input && recognitionSupported && !isLoading
    }

    /** Every play button is disabled while some slot is playing. */
    function PlayEnabled(): (enabled: bool)
      reads this
      ensures enabled <==> isPlayingAudio == None
    {
      isPlayingAudio.None?
    }

    /** The intro timer fires: the input screen is shown. */
    method IntroTimerFired()
      requires Valid()
      modifies this
      ensures Valid()
      ensures State() == old(State()).(currentScreen := Input)
    {
      currentScreen := Input;
    }

    /** The textarea's `onChange`. */
    method EditText(value: string)
      requires Valid()
      modifies this
      ensures Valid()
      ensures State() == old(State()).(speechText := value)
    {
      speechText := value;
    }

    /** `clearText`. */
    method ClearText()
      requires Valid()
      modifies this
      ensures Valid()
      ensures State() == old(State()).(speechText := "")
    {
      speechText := "";
    }

    /** The part of `analyzeSpeech` that runs before the request is awaited.
        Blank text is refused with an error and no request; otherwise the
        loading screen is shown and the current text is sent. `analyzeSpeech` tests
        `!speechText.trim()`; by the contract of `Trim` that is `AllWhitespace`. */
    method Submit() returns (request: Option<string>)
      requires Valid()
      modifies this
      ensures Valid()
      ensures AllWhitespace(old(speechText)) ==>
        request == None && State() == old(State()).(error := EmptyInputError)
      ensures !AllWhitespace(old(speechText)) ==>
        request == Some(old(speechText))
        && State() == old(State()).(currentScreen := Loading, isLoading := true)
    {
      if AllWhitespace(speechText) {
        error := EmptyInputError;
        return None;
      }
      currentScreen := Loading;
      isLoading := true;
      request := Some(speechText);
    }

    /** The rest of `analyzeSpeech`, once the request has ended. Success stores
        the result and shows it; either kind of failure reports it and goes back
        to the input screen, keeping the previous result. Loading always ends. */
    method ReceiveAnalysis(outcome: AnalysisOutcome)
      requires Valid()
      modifies this
      ensures Valid()
      ensures !isLoading
      ensures outcome.Ok? ==> State() == old(State()).(
        analysisResult := Some(outcome.result), currentScreen := Results, isLoading := false)
      ensures outcome.NotOk? ==> State() == old(State()).(
        error := NotOkError, currentScreen := Input, isLoading := false)
      ensures outcome.Thrown? ==> State() == old(State()).(
        error := ThrownError, currentScreen := Input, isLoading := false)
    {
      match outcome {
        case Ok(result) =>
          analysisResult := Some(result);
          currentScreen := Results;
        case NotOk =>
          error := NotOkError;
          currentScreen := Input;
        case Thrown =>
          error := ThrownError;
          currentScreen := Input;
      }
      isLoading := false;
    }

    /** `resetApp`: clears the text, the result and the error and shows the
        input screen; loading, listening and playback are left as they are. */
    method ResetApp()
      requires Valid()
      modifies this
      ensures Valid()
      ensures State() == old(State()).(
        speechText := "", analysisResult := None, error := "", currentScreen := Input)
    {
      speechText := "";
      analysisResult := None;
      error := "";
      currentScreen := Input;
    }

    /** `startListening`: reports a missing recognizer, or a `start()` that
        throws; otherwise the recognizer is started and nothing changes until
        its `onstart` arrives. */
    method StartListening(startThrows: bool) returns (started: bool)
      requires Valid()
      modifies this
      ensures Valid()
      ensures started <==> recognitionSupported && !startThrows
      ensures !recognitionSupported ==>
        State() == old(State()).(error := RecognitionUnsupportedError)
      ensures recognitionSupported && startThrows ==>
        State() == old(State()).(error := StartFailedError)
      ensures started ==> State() == old(State())
    {
      if !recognitionSupported {
        error := RecognitionUnsupportedError;
        return false;
      }
      if startThrows {
        error := StartFailedError;
        return false;
      }
      started := true;
    }

    /** `stopListening`: asks the recognizer to stop only while it listens;
        the flags change when its `onend` arrives. */
    method StopListening() returns (stopRequested: bool)
      ensures stopRequested <==> recognitionSupported && isListening
    {
      stopRequested := recognitionSupported && isListening;
    }

    /** The microphone button: stops while listening, starts otherwise. Only an
        enabled button can be clicked, so a click always finds a recognizer:
        it never reports a missing one, and a stop is always requested. */
    method MicrophoneClicked(startThrows: bool) returns (started: bool, stopRequested: bool)
      requires Valid()
      requires MicrophoneEnabled()
      modifies this
      ensures Valid()
      ensures old(isListening) ==> !started && stopRequested && State() == old(State())
      ensures !old(isListening) ==> !stopRequested && (started <==> !startThrows)
      ensures !old(isListening) && startThrows ==>
        State() == old(State()).(error := StartFailedError)
      ensures started ==> State() == old(State())
      ensures error != RecognitionUnsupportedError || error == old(error)
    {
      if isListening {
        stopRequested := StopListening();
        started := false;
      } else {
        started := StartListening(startThrows);
        stopRequested := false;
      }
    }

    /** The recognizer's `onstart`. */
    method RecognitionStarted()
      requires Valid()
      modifies this
      ensures Valid()
      ensures State() == old(State()).(isListening := true, isTranscribing := true)
    {
      isListening := true;
      isTranscribing := true;
    }

    /** The recognizer's `onend`. */
    method RecognitionEnded()
      requires Valid()
      modifies this
      ensures Valid()
      ensures State() == old(State()).(isListening := false, isTranscribing := false)
    {
      isListening := false;
      isTranscribing := false;
    }

    /** The recognizer's `onerror`, with the event's error name. */
    method RecognitionFailed(errorName: string)
      requires Valid()
      modifies this
      ensures Valid()
      ensures State() == old(State()).(isListening := false, isTranscribing := false,
        error := RecognitionErrorPrefix + errorName)
    {
      isListening := false;
      isTranscribing := false;
      error := RecognitionErrorPrefix + errorName;
    }

    /** The recognizer's `onresult`: the final transcripts from `resultIndex`
        on are appended to the text; when there are none the text is unchanged. */
    method RecognitionResult(results: seq<Recognition.SpeechResult>, resultIndex: nat)
      requires Valid()
      modifies this
      ensures Valid()
      ensures State() == old(State()).(
        speechText := old(speechText) + Recognition.FinalText(results, resultIndex))
    {
      var finalTranscript := Recognition.FinalTranscript(results, resultIndex);
      if finalTranscript != "" {
        speechText := speechText + finalTranscript;
      }
    }

    /** A pending `showError` timer fires and hides the message. */
    method ErrorTimerFired()
      requires Valid()
      modifies this
      ensures Valid()
      ensures State() == old(State()).(error := "")
    {
      error := "";
    }

    /** `playTextToSpeech` for the alternative at `speechIndex`. The slot is
        marked as playing and the text goes to ResponsiveVoice with the voice
        for `voiceType`, or, without it, to speech synthesis. With neither, or
        when handing it over throws, the slot is cleared and an error shown. */
    method PlayTextToSpeech(text: string, voiceType: string, speechIndex: nat,
                            hasResponsiveVoice: bool, hasSpeechSynthesis: bool,
                            speakThrows: bool)
      returns (request: Option<SpeechRequest>)
      requires Valid()
      modifies this
      ensures Valid()
      ensures request.Some? ==> State() == old(State()).(isPlayingAudio := Some(speechIndex))
      ensures hasResponsiveVoice && !speakThrows ==>
        request == Some(ResponsiveVoiceSpeak(text, Voices.VoiceName(voiceType)))
      ensures !hasResponsiveVoice && hasSpeechSynthesis && !speakThrows ==>
        request == Some(SynthesisSpeak(text))
      ensures (hasResponsiveVoice || hasSpeechSynthesis) && speakThrows ==>
        request == None && State() == old(State()).(isPlayingAudio := None, error := SpeechFailedError)
      ensures !hasResponsiveVoice && !hasSpeechSynthesis ==>
        request == None && State() == old(State()).(isPlayingAudio := None, error := SpeechUnsupportedError)
    {
      isPlayingAudio := Some(speechIndex);
      var voiceName := Voices.VoiceName(voiceType);
      if hasResponsiveVoice {
        request := Some(ResponsiveVoiceSpeak(text, voiceName));
      } else {
        request := FallbackToSpeechSynthesis(text, hasSpeechSynthesis);
      }
      if request.Some? && speakThrows {
        isPlayingAudio := None;
        error := SpeechFailedError;
        request := None;
      }
    }

    /** A play button on the results screen, for the alternative at `index`:
        only an enabled button can be clicked, and it plays that alternative's
        speech in the voice chosen for its demographic. */
    method PlayClicked(index: nat, hasResponsiveVoice: bool, hasSpeechSynthesis: bool,
                       speakThrows: bool)
      returns (request: Option<SpeechRequest>)
      requires Valid() && currentScreen == Results
      requires index < |analysisResult.value.alternateSpeeches|
      requires PlayEnabled()
      modifies this
      ensures Valid()
      ensures var alt := old(analysisResult).value.alternateSpeeches[index];
        hasResponsiveVoice && !speakThrows ==>
          request == Some(ResponsiveVoiceSpeak(alt.speech, Voices.VoiceName(Voices.GetVoiceType(alt.demographic))))
      ensures var alt := old(analysisResult).value.alternateSpeeches[index];
        !hasResponsiveVoice && hasSpeechSynthesis && !speakThrows ==>
          request == Some(SynthesisSpeak(alt.speech))
      ensures request.Some? ==>
        State() == old(State()).(isPlayingAudio := Some(index)) && !PlayEnabled()
      ensures (hasResponsiveVoice || hasSpeechSynthesis) && speakThrows ==>
        request == None && State() == old(State()).(error := SpeechFailedError)
      ensures !hasResponsiveVoice && !hasSpeechSynthesis ==>
        request == None && State() == old(State()).(error := SpeechUnsupportedError)
    {
      var alt := analysisResult.value.alternateSpeeches[index];
      request := PlayTextToSpeech(alt.speech, Voices.GetVoiceType(alt.demographic), index,
        hasResponsiveVoice, hasSpeechSynthesis, speakThrows);
    }

    /** The copy button on the results screen: there is always a result, so
        there is always text to copy, and it begins with the result's header. */
    method CopyClicked() returns (text: string)
      requires Valid() && currentScreen == Results
      ensures CopyResults(analysisResult) == Some(text)
      ensures |Header(analysisResult.value)| <= |text|
      ensures text[..|Header(analysisResult.value)|] == Header(analysisResult.value)
    {
      var copied := CopyResults(analysisResult);
      text := copied.value;
    }

    /** `fallbackToSpeechSynthesis`: speak with the browser's synthesis if it is
        there; otherwise clear the slot and report the missing engine. */
    method FallbackToSpeechSynthesis(text: string, hasSpeechSynthesis: bool)
      returns (request: Option<SpeechRequest>)
      requires Valid()
      modifies this
      ensures Valid()
      ensures hasSpeechSynthesis ==> request == Some(SynthesisSpeak(text)) && State() == old(State())
      ensures !hasSpeechSynthesis ==>
        (request == None
         && State() == old(State()).(isPlayingAudio := None, error := SpeechUnsupportedError))
    {
      if hasSpeechSynthesis {
        request := Some(SynthesisSpeak(text));
      } else {
        isPlayingAudio := None;
        error := SpeechUnsupportedError;
        request := None;
      }
    }

    /** The `onend` of either engine. */
    method PlaybackEnded()
      requires Valid()
      modifies this
      ensures Valid()
      ensures State() == old(State()).(isPlayingAudio := None)
    {
      isPlayingAudio := None;
    }

    /** ResponsiveVoice's `onerror`: the slot is cleared and the text handed to
        the fallback, which then plays without any slot marked as playing. This
        callback runs outside the `try` of `playTextToSpeech`, so a `speak` that
        throws here ends the callback with no message and no request. */
    method ResponsiveVoiceFailed(text: string, hasSpeechSynthesis: bool, speakThrows: bool)
      returns (request: Option<SpeechRequest>)
      requires Valid()
      modifies this
      ensures Valid()
      ensures hasSpeechSynthesis && !speakThrows ==>
        (request == Some(SynthesisSpeak(text)) && State() == old(State()).(isPlayingAudio := None))
      ensures hasSpeechSynthesis && speakThrows ==>
        (request == None && State() == old(State()).(isPlayingAudio := None))
      ensures !hasSpeechSynthesis ==>
        (request == None
         && State() == old(State()).(isPlayingAudio := None, error := SpeechUnsupportedError))
    {
      isPlayingAudio := None;
      request := FallbackToSpeechSynthesis(text, hasSpeechSynthesis);
      if request.Some? && speakThrows {
        request := None;
      }
    }

    /** The speech synthesis utterance's `onerror`. */
    method SynthesisFailed()
      requires Valid()
      modifies this
      ensures Valid()
      ensures State() == old(State()).(isPlayingAudio := None, error := SpeechFailedError)
    {
      isPlayingAudio := None;
      error := SpeechFailedError;
    }
  }

  /** A session up to the request: the intro passes, a text is typed and
      submitted. */
  method ExampleSubmission()
  {
    var app := new ClarityAI(true);
    app.IntroTimerFired();
    app.EditText("Taxes should be lower");
    assert !IsWhitespace(app.speechText[0]);
    assert app.AnalyzeEnabled();

    var request := app.Submit();
    assert request == Some("Taxes should be lower");
    assert app.currentScreen == Loading && !app.AnalyzeEnabled() && !app.MicrophoneEnabled();
  }

  /** A session after the request: the analysis of the "Economics" result
      arrives, the first alternative is played to its end, and the app is reset
      for a new analysis. */
  method ExampleResults(app: ClarityAI)
    requires app.Valid() && app.currentScreen == Loading && app.isPlayingAudio == None
    modifies app
  {
    app.ReceiveAnalysis(Ok(Example));
    assert app.currentScreen == Results && !app.isLoading;

    Voices.VoiceTypeOrderExamples();
    var request := app.PlayClicked(0, true, true, false);
    assert request == Some(ResponsiveVoiceSpeak("Invest.", "UK English Female"));
    assert !app.PlayEnabled();

    app.PlaybackEnded();
    assert app.PlayEnabled();

    app.ResetApp();
    assert app.currentScreen == Input && app.analysisResult == None;
  }

  /** A dictation: the microphone starts the recognizer, one final result
      fills the text, and a second click asks the recognizer to stop. */
  method DictationSession()
  {
    var app := new ClarityAI(true);
    app.IntroTimerFired();
    assert app.MicrophoneEnabled();
    var started, stopRequested := app.MicrophoneClicked(false);
    assert started && !stopRequested;

    app.RecognitionStarted();
    app.RecognitionResult([Recognition.SpeechResult("Taxes", true)], 0);
    Recognition.FinalContributes([], Recognition.SpeechResult("Taxes", true), []);
    assert app.speechText == "Taxes";

    started, stopRequested := app.MicrophoneClicked(false);
    assert !started && stopRequested;
    app.RecognitionEnded();
    assert !app.isListening && app.ClearEnabled();
  }

  /** A blank submission from the input screen changes nothing but the error. */
  method BlankSubmission(app: ClarityAI)
    requires app.Valid() && app.currentScreen == Input
    requires AllWhitespace(app.speechText)
    modifies app
    ensures app.currentScreen == Input && app.isLoading == old(app.isLoading)
    ensures app.error == EmptyInputError
  {
    var request := app.Submit();
    assert request == None;
  }
}
