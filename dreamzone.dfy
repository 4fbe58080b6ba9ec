/** The dream zone assistant (dreamzone.py): the tiered reply resolver, the
    guard and text cleaning in front of the speech engine, and the assistant's
    voice flags. The classifier, the remote model, the clock and the random
    draw are parameters. */
module DreamZone {
  import opened Wrappers
  import opened Text
  import opened Intents
  import opened Commands

  /** What the trained classifier says about an input: the most probable tag,
      and whether its probability is above the 0.65 threshold. */
  datatype Prediction = Prediction(tag: string, confident: bool)

  /** The outcome of one call to the remote model: its text, or an exception. */
  datatype RemoteReply = Replied(text: string) | Raised

  const PleaseSaySomething := "Please say something!"
  const RemoteTrouble := "I'm having trouble connecting to my advanced brain right now. Please try again."
  const NotSure := "I'm not sure how to respond to that. Can you try rephrasing?"
  const PromptPrefix := "You are dream zone, a friendly and helpful voice assistant. Respond to the user's message concisely: '"

  /** The prompt sent to the remote model: the user's text, quoted, after a fixed preamble. */
  function Prompt(input: string): string
  {
    PromptPrefix + input + "'"
  }

  /** The classifier of an assistant whose training failed: every prediction
      raises, because the model was never built. */
  const Untrained: string -> Option<Prediction> := (s: string) => None

  /** The local tier: `None` when prediction raised, when the best tag is not
      confident, when no intent carries it, or when that intent has no
      responses (`random.choice` raises). */
  function LocalReply(intents: seq<Intent>, prediction: Option<Prediction>, roll: nat): (r: Option<string>)
    ensures r.Some? ==> prediction.Some? && prediction.value.confident
    ensures r.Some? ==>
      exists i :: FirstTagged(intents, prediction.value.tag, i) && r.value in intents[i].responses
  {
    match prediction
    case None => None
    case Some(p) => if p.confident then ReplyForTag(intents, p.tag, roll) else None
  }

  /** The remote tier: with no model configured, the static fallback; otherwise
      the model's text, or an apology when the call raises. */
  function RemoteTier(input: string, remote: Option<string -> RemoteReply>): (r: string)
    ensures r == NotSure || r == RemoteTrouble || (remote.Some? && remote.value(Prompt(input)) == Replied(r))
    ensures remote.Some? && remote.value(Prompt(input)).Replied? ==> r == remote.value(Prompt(input)).text
  {
    match remote
    case None => NotSure
    case Some(generate) =>
      match generate(Prompt(input))
      case Replied(text) => text
      case Raised => RemoteTrouble
  }

  /** `chatbot_response`: blank guard, keyword command, confident local intent,
      remote model, in that order. Every reply comes from one of the tiers. */
  function Respond(input: string, intents: seq<Intent>, clock: Clock,
                   classify: string -> Option<Prediction>, remote: Option<string -> RemoteReply>,
                   roll: nat): (r: string)
    ensures
      || r == PleaseSaySomething
      || (exists c :: Dispatch(input) == Some(c) && r == Reply(c, clock))
      || (exists i :: 0 <= i < |intents| && r in intents[i].responses)
      || (remote.Some? && remote.value(Prompt(input)) == Replied(r))
      || r == RemoteTrouble
      || r == NotSure
  {
    if Strip(input) == [] then PleaseSaySomething
    else
      var hardcoded := Hardcoded(input, clock);
      if hardcoded.Some? && hardcoded.value != [] then hardcoded.value
      else
        match LocalReply(intents, classify(Lower(input)), roll)
        case Some(reply) => reply
        case None => RemoteTier(input, remote)
  }

  /** A blank or whitespace-only input gets the prompt to say something, and
      nothing else (table, clock, classifier, remote model, draw) is consulted. */
  lemma BlankInput(input: string, intents: seq<Intent>, clock: Clock,
                   classify: string -> Option<Prediction>, remote: Option<string -> RemoteReply>, roll: nat,
                   intents': seq<Intent>, clock': Clock,
                   classify': string -> Option<Prediction>, remote': Option<string -> RemoteReply>, roll': nat)
    requires IsBlank(input)
    ensures Respond(input, intents, clock, classify, remote, roll) == PleaseSaySomething
    ensures Respond(input, intents, clock, classify, remote, roll)
         == Respond(input, intents', clock', classify', remote', roll')
  {
    StripEmptyIffBlank(input);
  }

  /** A keyword command answers a non-blank input, whatever the intent table,
      the classifier, the remote model and the draw. */
  lemma CommandShortCircuits(input: string, intents: seq<Intent>, clock: Clock,
                             classify: string -> Option<Prediction>, remote: Option<string -> RemoteReply>,
                             roll: nat, c: Command)
    requires !IsBlank(input) && Dispatch(input) == Some(c)
    ensures Respond(input, intents, clock, classify, remote, roll) == Reply(c, clock)
  {
    StripEmptyIffBlank(input);
  }

  /** With no command and a confident tag, the reply is one of the responses
      of the first intent carrying that tag, provided it has any. */
  lemma ConfidentTag(input: string, intents: seq<Intent>, clock: Clock,
                     classify: string -> Option<Prediction>, remote: Option<string -> RemoteReply>,
                     roll: nat, tag: string, i: nat)
    requires !IsBlank(input) && Dispatch(input) == None
    requires classify(Lower(input)) == Some(Prediction(tag, true))
    requires FirstTagged(intents, tag, i) && |intents[i].responses| > 0
    ensures Respond(input, intents, clock, classify, remote, roll) in intents[i].responses
  {
    StripEmptyIffBlank(input);
  }

  /** When neither a command nor the local tier answers, the remote tier does:
      its text when there is a model, the apology when the call raises, and the
      static fallback when there is no model. */
  lemma FallsToRemote(input: string, intents: seq<Intent>, clock: Clock,
                      classify: string -> Option<Prediction>, remote: Option<string -> RemoteReply>, roll: nat)
    requires !IsBlank(input) && Dispatch(input) == None
    requires LocalReply(intents, classify(Lower(input)), roll) == None
    ensures remote == None ==> Respond(input, intents, clock, classify, remote, roll) == NotSure
    ensures remote.Some? && remote.value(Prompt(input)).Raised? ==>
              Respond(input, intents, clock, classify, remote, roll) == RemoteTrouble
    ensures remote.Some? && remote.value(Prompt(input)).Replied? ==>
              Respond(input, intents, clock, classify, remote, roll) == remote.value(Prompt(input)).text
  {
    StripEmptyIffBlank(input);
  }

  /** The local tier stays silent exactly when the prediction raised, was not
      confident, or named a tag whose first intent is missing or has no responses. */
  lemma LocalSilence(intents: seq<Intent>, prediction: Option<Prediction>, roll: nat)
    ensures LocalReply(intents, prediction, roll) == None <==>
      || prediction == None
      || !prediction.value.confident
      || forall i :: FirstTagged(intents, prediction.value.tag, i) ==> |intents[i].responses| == 0
  {
  }

  /** An assistant whose training failed never answers from the local tier. */
  lemma UntrainedSkipsLocal(input: string, intents: seq<Intent>, clock: Clock,
                            remote: Option<string -> RemoteReply>, roll: nat)
    requires !IsBlank(input) && Dispatch(input) == None
    ensures Respond(input, intents, clock, Untrained, remote, roll) == RemoteTier(input, remote)
  {
    StripEmptyIffBlank(input);
  }

  /** Text as handed to the speech engine: `text.replace("*", "").strip()`. */
  function CleanForSpeech(text: string): (r: string)
    ensures '*' !in r
    ensures Trimmed(r)
    ensures r != [] <==> exists i :: 0 <= i < |text| && text[i] != '*' && !IsSpace(text[i])
    ensures exists a, b :: RemoveChar(text, '*') == a + r + b && IsBlank(a) && IsBlank(b)
  {
    var starless := RemoveChar(text, '*');
    StripBetweenBlanks(starless);
    RemoveCharCounts(text, '*');
    StripKeepsChars(starless);
    StripTrimmed(starless);
    StripEmptyIffBlank(starless);
    RemoveCharBlank(text, '*');
    Strip(starless)
  }

  /** The effect of `speak_text`: nothing when voice is off, there is no engine
      or speech is in progress; otherwise the cleaned text, unless it is blank. */
  function SpeechFor(voiceEnabled: bool, engineReady: bool, isSpeaking: bool, text: string): (r: Option<string>)
    ensures r.Some? <==>
      voiceEnabled && engineReady && !isSpeaking
      && exists i :: 0 <= i < |text| && text[i] != '*' && !IsSpace(text[i])
    ensures r.Some? ==> r.value == CleanForSpeech(text)
    ensures r.Some? ==> '*' !in r.value && !IsBlank(r.value) && Trimmed(r.value)
  {
    if !voiceEnabled || !engineReady || isSpeaking then None
    else
      var clean := CleanForSpeech(text);
      if clean == [] then None
      else
        StripEmptyIffBlank(clean);
        StripIdempotent(RemoveChar(text, '*'));
        Some(clean)
  }

  /** A call made on the speech engine. */
  datatype EngineCall = Say(text: string) | Stop

  function Calls(speech: Option<string>): seq<EngineCall>
  {
    match speech
    case None => []
    case Some(text) => [Say(text)]
  }

  const VoiceOnNotice := "Voice is now on"

  /** The assistant's state: the voice flags, whether a speech engine could be
      set up, the calls made on it, and the intent table with the outcome of training. */
  class Assistant {
    var voiceEnabled: bool
    var isSpeaking: bool
    var engineCalls: seq<EngineCall>
    const engineReady: bool
    const intents: seq<Intent>
    const trained: bool

    /** Construction trains on the table; a failed training does not stop the
        assistant, it only leaves it without a classifier. Training fails when
        no pattern survives extraction, and also when the vectorizer finds no
        vocabulary in the patterns that do (`vocabulary` is false). */
    constructor (intents: seq<Intent>, engineReady: bool, vocabulary: bool)
      ensures this.intents == intents && this.engineReady == engineReady
      ensures trained <==> Examples(intents) != [] && vocabulary
      ensures voiceEnabled && !isSpeaking && engineCalls == []
    {
      var training := ExtractTrainingSet(intents);
      this.intents := intents;
      this.engineReady := engineReady;
      this.trained := training.Success? && vocabulary;
      voiceEnabled := true;
      isSpeaking := false;
      engineCalls := [];
    }

    /** `chatbot_response` of this assistant; without a trained model the
        local tier raises and the remote tier answers. */
    function ChatbotResponse(input: string, clock: Clock, classify: string -> Option<Prediction>,
                             remote: Option<string -> RemoteReply>, roll: nat): (r: string)
      ensures !trained && !IsBlank(input) && Dispatch(input) == None ==> r == RemoteTier(input, remote)
    {
      StripEmptyIffBlank(input);
      Respond(input, intents, clock, if trained then classify else Untrained, remote, roll)
    }

    /** `speak_text`, with the background job run to completion. */
    method SpeakText(text: string)
      modifies this`isSpeaking, this`engineCalls
      ensures isSpeaking == old(isSpeaking)
      ensures engineCalls == old(engineCalls) + Calls(SpeechFor(voiceEnabled, engineReady, isSpeaking, text))
    {
      if !voiceEnabled || !engineReady || isSpeaking {
        return;
      }
      isSpeaking := true;
      var clean := CleanForSpeech(text);
      if clean != [] {
        engineCalls := engineCalls + [Say(clean)];
      }
      isSpeaking := false;
    }

    /** `toggle_voice`: flip the flag; announce when switched on, and stop the
        engine when switched off mid-speech. */
    method ToggleVoice()
      modifies this`voiceEnabled, this`isSpeaking, this`engineCalls
      ensures voiceEnabled == !old(voiceEnabled)
      ensures isSpeaking == old(isSpeaking)
      ensures voiceEnabled ==>
        engineCalls == old(engineCalls) + Calls(SpeechFor(true, engineReady, isSpeaking, VoiceOnNotice))
      ensures !voiceEnabled ==>
        engineCalls == old(engineCalls) + (if isSpeaking then [Stop] else [])
    {
      voiceEnabled := !voiceEnabled;
      if voiceEnabled {
        SpeakText(VoiceOnNotice);
      } else if isSpeaking {
        engineCalls := engineCalls + [Stop];
      }
    }
  }

  /** Toggling twice restores the flag. */
  method ToggleTwice(a: Assistant)
    modifies a
    ensures a.voiceEnabled == old(a.voiceEnabled) && a.isSpeaking == old(a.isSpeaking)
  {
    a.ToggleVoice();
    a.ToggleVoice();
  }
}
