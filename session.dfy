/** The state a `Speaker` keeps between requests: the chat history, whether
    the user has been spoken to before, and whether the device location is
    known; and the two steps of `what_does_user_want` after the language
    model has answered. */
module Session {
  import opened PyValue
  import opened Intent
  import opened LmFormat

  /** One entry of `message_store`: a dict with a `source` and a `message`. */
  datatype Entry = Entry(source: string, message: string)

  /** The two context notes `context_message` can give the language model. */
  const SpokenBeforeNote := "You have spoken to this user before, you do not need to greet them."
  const NewConversationNote := "This is a new conversation, please make sure to greet the user."

  /** The sources whose messages `add_to_context` records. */
  predicate Recorded(source: string) {
    source == "user" || source == "speaker"
  }

  class Speaker {
    var messageStore: seq<Entry>
    var spokenToBefore: bool
    var locationAccess: bool

    /** Nothing is stored before the conversation has started, and only the
        user's and the speaker's messages are stored. */
    predicate Valid()
      reads this
    {
      && (!spokenToBefore ==> messageStore == [])
      && forall i :: 0 <= i < |messageStore| ==> Recorded(messageStore[i].source)
    }

    /** The state `__init__` sets up (Speaker.py:20-22). */
    constructor ()
      ensures Valid()
      ensures messageStore == [] && !spokenToBefore && !locationAccess
    {
      messageStore := [];
      spokenToBefore := false;
      locationAccess := false;
    }

    /** `add_to_context` (Speaker.py:342-361): the status `"true"` starts a
        new chat, clearing the history; anything else marks the user as
        spoken to and records the message if it comes from the user or the
        speaker. */
    method AddToContext(message: string, source: string, chatStatus: string)
      requires Valid()
      modifies this
      ensures Valid()
      ensures chatStatus == "true" ==> messageStore == [] && !spokenToBefore
      ensures chatStatus != "true" ==>
                && spokenToBefore
                && messageStore == old(messageStore) + (if Recorded(source) then [Entry(source, message)] else [])
      ensures locationAccess == old(locationAccess)
      ensures ContextMessageIntended() == if chatStatus == "true" then NewConversationNote else SpokenBeforeNote
    {
      if chatStatus == "true" {
        messageStore := [];
        spokenToBefore := false;
      } else {
        spokenToBefore := true;
        if source == "user" {
          messageStore := messageStore + [Entry(source, message)];
        }
        if source == "speaker" {
          messageStore := messageStore + [Entry(source, message)];
        }
      }
    }

    /** `context_message` as written (Speaker.py:363-367): it tests the bound
        method `get_specific_days`, which is always truthy, so the note never
        depends on the conversation. */
    function ContextMessage(): (r: string)
      ensures r == SpokenBeforeNote && r != NewConversationNote
    {
      SpokenBeforeNote
    }

    /** `context_message` as it is evidently meant, testing `spoken_to_before`:
        the greeting-free note exactly when the user has been spoken to. In a
        valid state the greeting is only asked for with an empty history. */
    function ContextMessageIntended(): (r: string)
      reads this
      ensures r == SpokenBeforeNote <==> spokenToBefore
      ensures r == NewConversationNote <==> !spokenToBefore
      ensures Valid() && r == NewConversationNote ==> messageStore == []
    {
      if spokenToBefore then SpokenBeforeNote else NewConversationNote
    }

    /** The end of `what_does_user_want` (Speaker.py:100-104) once the model
        has replied with `lmResponse`: clean and parse the reply, then
        correct the record against the location-access flag. */
    method WhatDoesUserWant(lmResponse: string, parse: string -> Py<Value>) returns (r: Py<Value>)
      ensures r == Correct(Formatted(lmResponse, parse), locationAccess)
    {
      var formatted := FormatLmJson(lmResponse, parse);
      r := JsonCheck(formatted, locationAccess);
    }
  }

  /** A new chat still gets the "spoken to before" note from the method as
      written, where the intended one asks for a greeting. */
  lemma NewChatNotGreeted(s: Speaker)
    requires !s.spokenToBefore
    ensures s.ContextMessage() != s.ContextMessageIntended()
  {
  }

  /** A reply the parser rejects becomes the string "Unable to process that
      request.", which `json_check` then indexes with a string key: the
      request raises TypeError instead of reaching the `None` case of
      `fulfil_request`. */
  lemma UnparsableReplyRaises(lmResponse: string, parse: string -> Py<Value>, locationAccess: bool)
    requires parse(Strip(lmResponse)).Raise?
    ensures Correct(Formatted(lmResponse, parse), locationAccess) == Raise(TypeError)
  {
  }

  /** A reply fenced as "```json ... ```" whose body parses to a checkable
      record is cleaned, parsed and corrected. */
  lemma FencedReplyCorrected(body: string, parse: string -> Py<Value>, locationAccess: bool)
    requires '`' !in body && !Contains(body, "json")
    requires parse(body).Ok? && Checkable(parse(body).value)
    ensures Correct(Formatted("```json" + body + "```", parse), locationAccess).Ok?
  {
    JsonFenceRoundTrip(body);
  }
}
