/** The chat UI's per-connection session state as an object whose fields the
    callbacks and the phases of `main` update in place. Every method is
    proved to change the state exactly as its counterpart in SessionSpec. */
module App {
  import opened SessionTypes
  import SessionSpec

  class ChatApp {
    var initialised: bool
    var sessionKey: string
    var newSessionKey: Option<string>
    var sessionIndexTracker: string
    var userInput: string
    var userQuestion: string
    var sendInput: bool
    var pdfChat: bool
    var history: seq<Message>
    /** The session directory: file name to transcript. */
    var store: map<string, seq<Message>>

    /** The abstract value of the object. */
    function State(): UIState
      reads this
    {
      UIState(initialised, sessionKey, newSessionKey, sessionIndexTracker, userInput,
              userQuestion, sendInput, pdfChat, history, store)
    }

    constructor (persisted: map<string, seq<Message>>)
      ensures State() == SessionSpec.Fresh(persisted)
    {
      initialised, sessionKey, newSessionKey, sessionIndexTracker := false, "", None, "";
      userInput, userQuestion, sendInput, pdfChat := "", "", false, false;
      history, store := [], persisted;
    }

    method ClearInputField()
      modifies this
      ensures State() == SessionSpec.ClearInputField(old(State()))
    {
      if userQuestion == "" {
        userQuestion := userInput;
        userInput := "";
      }
    }

    method SetSendInput()
      modifies this
      ensures State() == SessionSpec.SetSendInput(old(State()))
    {
      sendInput := true;
      ClearInputField();
    }

    method TogglePdfChat()
      modifies this
      ensures State() == SessionSpec.TogglePdfChat(old(State()))
    {
      pdfChat := true;
    }

    method SaveChatHistory(timestamp: string)
      modifies this
      ensures State() == SessionSpec.SaveChatHistory(old(State()), timestamp)
    {
      if history != [] {
        if sessionKey == SENTINEL {
          newSessionKey := Some(SessionSpec.MintedKey(timestamp));
          store := store[newSessionKey.value := history];
        } else {
          store := store[sessionKey := history];
        }
      }
    }

    /** New widget values stored under their keys. */
    method StoreWidgetValues(ev: Events)
      modifies this
      ensures State() == SessionSpec.StoreWidgetValues(old(State()), ev)
    {
      if ev.typed.Some? { userInput := ev.typed.value; }
      if ev.toggle.Some? { pdfChat := ev.toggle.value; }
      if ev.pick.Some? { sessionKey := ev.pick.value; }
    }

    /** The callbacks of the changed widgets, in widget order. */
    method RunCallbacks(ev: Events)
      modifies this
      ensures State() == SessionSpec.RunCallbacks(old(State()), ev)
    {
      if ev.typed.Some? { SetSendInput(); }
      if ev.sendClicked { ClearInputField(); }
      if ev.pdfUploadChanged { TogglePdfChat(); }
    }

    /** Widget values and callbacks delivered before the script runs. */
    method ApplyEvents(ev: Events)
      modifies this
      ensures State() == SessionSpec.ApplyEvents(old(State()), ev)
    {
      if initialised {
        StoreWidgetValues(ev);
        RunCallbacks(ev);
      }
    }

    method Initialise()
      modifies this
      ensures State() == SessionSpec.Initialise(old(State()))
    {
      if !initialised {
        initialised := true;
        sessionKey := SENTINEL;
        sendInput := false;
        userQuestion := "";
        newSessionKey := None;
        sessionIndexTracker := SENTINEL;
      }
    }

    method Reconcile()
      modifies this
      ensures State() == SessionSpec.Reconcile(old(State()))
    {
      if sessionKey == SENTINEL && newSessionKey != None {
        sessionIndexTracker := newSessionKey.value;
        newSessionKey := None;
      }
    }

    method SelectSession(sessions: seq<string>, reset: bool) returns (outcome: Outcome)
      modifies this
      ensures (State(), outcome) == SessionSpec.SelectSession(old(State()), sessions, reset)
    {
      var index := SessionSpec.IndexOf(sessions, sessionIndexTracker);
      if index.None? {
        return Aborted(SessionNotListed(sessionIndexTracker));
      }
      if reset {
        sessionKey := sessions[index.value];
      }
      outcome := Completed;
    }

    method LoadHistory() returns (outcome: Outcome)
      modifies this
      ensures (State(), outcome) == SessionSpec.LoadPhase(old(State()))
    {
      var loaded := SessionSpec.LoadHistory(store, sessionKey);
      match loaded
      case Err(e) =>
        outcome := Aborted(e);
      case Ok(h) =>
        history := h;
        outcome := Completed;
    }

    method Audio(audio: Option<Bytes>, c: Collaborators)
      modifies this
      ensures State() == SessionSpec.Audio(old(State()), audio, c)
    {
      if audio.Some? {
        var transcribed := c.transcribe(audio.value);
        history := c.chain(SessionSpec.LoadChain(pdfChat), history, transcribed);
      }
    }

    method SendBlock(clicked: bool, image: Option<Bytes>, c: Collaborators)
      modifies this
      ensures State() == SessionSpec.SendBlock(old(State()), clicked, image, c)
    {
      if clicked || sendInput {
        if image.Some? {
          var userMessage := userQuestion;
          var answer := c.answerImage(image.value, userQuestion);
          history := history + [Message(Human, userMessage), Message(Ai, answer)];
        }
        if userQuestion != "" {
          history := c.chain(SessionSpec.LoadChain(pdfChat), history, userQuestion);
          userQuestion := "";
        }
        sendInput := false;
      }
    }

    /** One render cycle, its phases in the order `main` runs them. */
    method Cycle(ev: Events, env: Env, c: Collaborators) returns (outcome: Outcome)
      modifies this
      ensures (State(), outcome) == SessionSpec.CycleSpec(old(State()), ev, env, c)
    {
      var clicked := initialised && ev.sendClicked;
      ApplyEvents(ev);
      var sessions := SessionSpec.ListSessions(env.listing);
      Initialise();
      Reconcile();
      outcome := SelectSession(sessions, env.selectboxReset);
      if outcome.Aborted? { return; }
      outcome := LoadHistory();
      if outcome.Aborted? { return; }
      Audio(env.audio, c);
      SendBlock(clicked, env.image, c);
      SaveChatHistory(env.timestamp);
    }
  }
}
