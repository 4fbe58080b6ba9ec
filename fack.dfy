/** The Dream Zoon assistant (fack.py): a reply straight from the predicted
    intent with a fixed fallback, and the voice toggle with its status line.
    The classifier and the random draw are parameters. */
module Fack {
  import opened Wrappers
  import opened Text
  import opened Intents

  const NotUnderstood := "Sorry, I didn't understand that. Could you rephrase?"

  /** `chatbot_response`: `predict` gives the classifier's tag for the
      lower-cased input, or `None` when prediction raises. */
  function Respond(input: string, intents: seq<Intent>, predict: string -> Option<string>, roll: nat): (r: string)
    ensures || r == NotUnderstood
            || (predict(Lower(input)).Some? &&
                exists i :: FirstTagged(intents, predict(Lower(input)).value, i) && r in intents[i].responses)
  {
    match predict(Lower(input))
    case None => NotUnderstood
    case Some(tag) =>
      match ReplyForTag(intents, tag, roll)
      case Some(reply) => reply
      case None => NotUnderstood
  }

  /** The reply is drawn from the responses of the first intent whose tag is the
      predicted one, whenever that intent has responses. */
  lemma ReplyFromFirstTagged(input: string, intents: seq<Intent>, predict: string -> Option<string>,
                             roll: nat, tag: string, i: nat)
    requires predict(Lower(input)) == Some(tag)
    requires FirstTagged(intents, tag, i) && |intents[i].responses| > 0
    ensures Respond(input, intents, predict, roll) in intents[i].responses
  {
  }

  /** The fixed fallback is the answer when prediction raises, when no intent
      carries the predicted tag, or when the first that does has no responses;
      otherwise the answer is one of that intent's responses. */
  lemma FallbackCases(input: string, intents: seq<Intent>, predict: string -> Option<string>, roll: nat)
    ensures predict(Lower(input)) == None ==> Respond(input, intents, predict, roll) == NotUnderstood
    ensures predict(Lower(input)).Some? ==>
      var tag := predict(Lower(input)).value;
      && ((forall i :: 0 <= i < |intents| ==> intents[i].tag != tag) ==>
            Respond(input, intents, predict, roll) == NotUnderstood)
      && (forall i :: FirstTagged(intents, tag, i) ==>
            if |intents[i].responses| == 0 then Respond(input, intents, predict, roll) == NotUnderstood
            else Respond(input, intents, predict, roll) in intents[i].responses)
  {
  }

  /** The status message after a toggle. */
  function VoiceStatus(enabled: bool): (s: string)
    ensures s == "Voice enabled" <==> enabled
    ensures s == "Voice disabled" <==> !enabled
  {
    if enabled then "Voice enabled" else "Voice disabled"
  }

  /** The text of the status line for a message. */
  function StatusLabel(message: string): string
  {
    "Status: " + message
  }

  /** The assistant's state: the voice flag, the status line, and the intent
      table with the outcome of training. */
  class Assistant {
    var voiceEnabled: bool
    var status: string
    const intents: seq<Intent>
    const trained: bool
    /** The window was destroyed because training found no pattern. */
    const closed: bool

    /** The state `__init__` leaves behind once it returns: voice on, the
        status line as first drawn, and the window destroyed exactly when
        training found no pattern. */
    constructor (intents: seq<Intent>, closed: bool)
      ensures this.intents == intents && this.closed == closed && trained == !closed
      ensures voiceEnabled && status == StatusLabel("Initializing...")
    {
      this.intents := intents;
      this.trained := !closed;
      this.closed := closed;
      voiceEnabled := true;
      status := StatusLabel("Initializing...");
    }

    /** `toggle_voice`: flip the flag and report it on the status line. */
    method ToggleVoice()
      modifies this`voiceEnabled, this`status
      ensures voiceEnabled == !old(voiceEnabled)
      ensures status == StatusLabel(VoiceStatus(voiceEnabled))
    {
      voiceEnabled := !voiceEnabled;
      status := StatusLabel(VoiceStatus(voiceEnabled));
    }
  }

  /** Starting the assistant failed: the vectorizer found no vocabulary, and
      its `ValueError` escaped `__init__`. */
  datatype StartupError = EmptyVocabulary

  /** `DreamZoonAssistant()` as `main` runs it. The window is built first and
      training runs next. When no pattern survives, the window is destroyed
      and construction goes on. When patterns survive but the vectorizer finds
      no vocabulary in them (`vocabulary` is false), the error leaves
      `__init__` and no assistant exists. */
  method Launch(intents: seq<Intent>, vocabulary: bool) returns (r: Result<Assistant, StartupError>)
    ensures r.Failure? <==> Examples(intents) != [] && !vocabulary
    ensures r.Success? ==>
      && fresh(r.value) && r.value.intents == intents
      && (r.value.trained <==> Examples(intents) != [])
      && (r.value.closed <==> !r.value.trained)
      && r.value.voiceEnabled && r.value.status == StatusLabel("Initializing...")
  {
    var training := ExtractTrainingSet(intents);
    if training.Success? && !vocabulary {
      return Failure(EmptyVocabulary);
    }
    var a := new Assistant(intents, training.Failure?);
    r := Success(a);
  }

  /** Toggling twice restores the flag, and the status line then reads
      "Voice enabled" exactly when voice is on. */
  method ToggleTwice(a: Assistant)
    modifies a
    ensures a.voiceEnabled == old(a.voiceEnabled)
    ensures a.status == StatusLabel("Voice enabled") <==> a.voiceEnabled
  {
    a.ToggleVoice();
    a.ToggleVoice();
    assert a.status == StatusLabel(VoiceStatus(a.voiceEnabled));
    if !a.voiceEnabled {
      assert a.status[8..] == "Voice disabled";
    }
  }
}
