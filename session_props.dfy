/** What the session lifecycle promises, proved about the functions of
    SessionSpec: input capture and the send latch, saving, reconciliation,
    selection and loading, the send block, whole render cycles and runs of
    cycles. */
module SessionProps {
  import opened SessionTypes
  import opened SessionSpec

  // ---------------------------------------------------------------- input capture

  /** A pending question is never overwritten; otherwise the typed text is
      moved into it and the field emptied, and nothing else changes. */
  lemma ClearInputFieldEffect(s: UIState)
    ensures s.userQuestion != "" ==> ClearInputField(s) == s
    ensures s.userQuestion == "" ==>
      ClearInputField(s) == s.(userQuestion := s.userInput, userInput := "")
  {
  }

  /** Capturing twice (Enter, then the Send button's callback) is capturing once. */
  lemma ClearInputFieldIdempotent(s: UIState)
    ensures ClearInputField(ClearInputField(s)) == ClearInputField(s)
  {
  }

  /** `set_send_input` arms the latch and otherwise only captures the input. */
  lemma SetSendInputEffect(s: UIState)
    ensures SetSendInput(s).sendInput
    ensures SetSendInput(s) == ClearInputField(s).(sendInput := true)
  {
  }

  /** Enter followed by Send captures exactly what Enter captured. */
  lemma EnterThenSendCapturesOnce(s: UIState)
    ensures ClearInputField(SetSendInput(s)) == SetSendInput(s)
  {
    ClearInputFieldIdempotent(s.(sendInput := true));
  }

  /** `toggle_pdf_chat` only turns PDF chat on, and doing it twice is doing it once. */
  lemma TogglePdfChatEffect(s: UIState)
    ensures TogglePdfChat(s) == s.(pdfChat := true)
    ensures TogglePdfChat(TogglePdfChat(s)) == TogglePdfChat(s)
  {
  }

  // ---------------------------------------------------------------- saving

  /** A minted key is a `.json` file name and never the sentinel. */
  lemma MintedKeyIsFileName(timestamp: string)
    ensures |MintedKey(timestamp)| == |timestamp| + 5
    ensures MintedKey(timestamp)[|timestamp|..] == JSON_SUFFIX
    ensures MintedKey(timestamp) != SENTINEL
  {
    var k := MintedKey(timestamp);
    if |k| == |SENTINEL| {
      assert k[|timestamp|] == '.';
      assert SENTINEL[|timestamp|] == 's';
    }
  }

  /** Nothing is written, and no key minted, while the history is empty. */
  lemma SaveEmptyWritesNothing(s: UIState, timestamp: string)
    requires s.history == []
    ensures SaveChatHistory(s, timestamp) == s
  {
  }

  /** The first save of the sentinel session mints `<timestamp>.json`, stores
      the whole history there and remembers the key; the selection itself is
      left alone. */
  lemma SaveNewSessionMints(s: UIState, timestamp: string)
    requires s.history != [] && s.sessionKey == SENTINEL
    ensures var r := SaveChatHistory(s, timestamp);
      && r.newSessionKey == Some(timestamp + ".json")
      && r.store == s.store[timestamp + ".json" := s.history]
      && r == s.(newSessionKey := r.newSessionKey, store := r.store)
  {
  }

  /** A save of a selected session overwrites its file with the whole history
      and does not touch the pending key. */
  lemma SaveExistingOverwrites(s: UIState, timestamp: string)
    requires s.history != [] && s.sessionKey != SENTINEL
    ensures SaveChatHistory(s, timestamp) == s.(store := s.store[s.sessionKey := s.history])
  {
  }

  /** Every save writes at most one key, and that key then holds the whole history. */
  lemma SaveWritesOneKey(s: UIState, timestamp: string, k: string)
    ensures var r := SaveChatHistory(s, timestamp);
      && (SaveTarget(s, timestamp) == Some(k) ==> k in r.store && r.store[k] == s.history)
      && (SaveTarget(s, timestamp) != Some(k) ==>
            (k in r.store <==> k in s.store) && (k in s.store ==> r.store[k] == s.store[k]))
  {
  }

  /** The widget phase touches only the text field, the pending question,
      the latch, the PDF switch and the selection, and none of them before
      the first run. */
  lemma ApplyEventsFrame(s: UIState, ev: Events)
    ensures var r := ApplyEvents(s, ev);
      && r == s.(userInput := r.userInput, userQuestion := r.userQuestion, sendInput := r.sendInput,
                 pdfChat := r.pdfChat, sessionKey := r.sessionKey)
      && (!s.initialised ==> r == s)
      && (ev.pick.None? ==> r.sessionKey == s.sessionKey)
  {
    if s.initialised {
      var w := StoreWidgetValues(s, ev);
      var s1 := if ev.typed.Some? then SetSendInput(w) else w;
      assert s1 == s.(userInput := s1.userInput, userQuestion := s1.userQuestion, sendInput := s1.sendInput,
                      pdfChat := s1.pdfChat, sessionKey := s1.sessionKey);
      var s2 := if ev.sendClicked then ClearInputField(s1) else s1;
      assert s2 == s.(userInput := s2.userInput, userQuestion := s2.userQuestion, sendInput := s2.sendInput,
                      pdfChat := s2.pdfChat, sessionKey := s2.sessionKey);
    }
  }

  // ---------------------------------------------------------------- cycle start

  /** The first run sets up the sentinel session with an idle latch; later runs
      leave the state alone. */
  lemma InitialiseEffect(s: UIState)
    ensures var r := Initialise(s);
      && r.initialised
      && (s.initialised ==> r == s)
      && (!s.initialised ==>
            && r.sessionKey == SENTINEL && r.sessionIndexTracker == SENTINEL
            && r.newSessionKey == None && !r.sendInput && r.userQuestion == ""
            && r.history == s.history && r.store == s.store && r.userInput == s.userInput)
  {
  }

  /** A key minted for the sentinel moves into the tracker and the pending mark
      is cleared; afterwards no mint is pending for the sentinel, so the
      reconciliation consumes it once. */
  lemma ReconcileConsumesMint(s: UIState)
    ensures var r := Reconcile(s);
      && (s.sessionKey == SENTINEL && s.newSessionKey.Some? ==>
            r == s.(sessionIndexTracker := s.newSessionKey.value, newSessionKey := None))
      && (!(s.sessionKey == SENTINEL && s.newSessionKey.Some?) ==> r == s)
      && (r.sessionKey == SENTINEL ==> r.newSessionKey == None)
      && Reconcile(r) == r
  {
  }

  /** The sentinel and every listed key are found among the selector's
      options, at a position holding that key; nothing else is. */
  lemma SessionIndexFound(listing: seq<string>, key: string)
    ensures var i := IndexOf(ListSessions(listing), key);
      && (i.Some? <==> key == SENTINEL || key in listing)
      && (i.Some? ==> ListSessions(listing)[i.value] == key)
  {
    var sessions := ListSessions(listing);
    if key in listing {
      var j :| 0 <= j < |listing| && listing[j] == key;
      assert sessions[j + 1] == key;
    }
    if key in sessions && key != SENTINEL {
      var j :| 0 <= j < |sessions| && sessions[j] == key;
      assert listing[j - 1] == key;
    }
  }

  /** Selection aborts exactly when the tracked key is neither the sentinel
      nor listed; a selector created anew then shows the tracked key. */
  lemma SelectSessionFinds(s: UIState, listing: seq<string>, reset: bool)
    ensures var (r, o) := SelectSession(s, ListSessions(listing), reset);
      && (o.Completed? <==> (s.sessionIndexTracker == SENTINEL || s.sessionIndexTracker in listing))
      && (o.Aborted? ==> r == s && o.error == SessionNotListed(s.sessionIndexTracker))
      && (o.Completed? && reset ==> r == s.(sessionKey := s.sessionIndexTracker))
      && (o.Completed? && !reset ==> r == s)
  {
    SessionIndexFound(listing, s.sessionIndexTracker);
  }

  /** Everything up to the history load writes no file, leaves the state
      initialised, keeps what the widget phase put into the input fields, the
      latch and the PDF switch, keeps the tracker and pending key as the
      reconciliation left them, and on success holds the selected session's
      transcript. */
  lemma PrepareFrame(s: UIState, ev: Events, env: Env)
    ensures var (p, o) := Prepare(s, ev, env);
      var a := Initialise(ApplyEvents(s, ev));
      && p.store == s.store && p.initialised
      && p.userInput == a.userInput && p.userQuestion == a.userQuestion
      && p.sendInput == a.sendInput && p.pdfChat == a.pdfChat
      && p.sessionIndexTracker == Reconcile(a).sessionIndexTracker
      && p.newSessionKey == Reconcile(a).newSessionKey
      && (o.Completed? ==> LoadHistory(p.store, p.sessionKey) == Ok(p.history))
  {
    ApplyEventsFrame(s, ev);
    var a := Initialise(ApplyEvents(s, ev));
    var s1 := Reconcile(a);
    assert s1 == a.(sessionIndexTracker := s1.sessionIndexTracker, newSessionKey := s1.newSessionKey);
    var sel := SelectSession(s1, ListSessions(env.listing), env.selectboxReset);
    assert sel.0 == s1.(sessionKey := sel.0.sessionKey);
    if sel.1.Completed? {
      assert Prepare(s, ev, env) == LoadPhase(sel.0);
    } else {
      assert Prepare(s, ev, env) == sel;
    }
  }

  // ---------------------------------------------------------------- the send cycle

  /** Without a click and with the latch idle the send block does nothing. */
  lemma SendBlockIdle(s: UIState, clicked: bool, image: Option<Bytes>, c: Collaborators)
    requires !clicked && !s.sendInput
    ensures SendBlock(s, clicked, image, c) == s
  {
  }

  /** A fired send block appends the image turn first, then runs the chain on
      the pending question, then releases the latch; the question is empty
      afterwards and only history, question and latch change. */
  lemma SendBlockEffect(s: UIState, clicked: bool, image: Option<Bytes>, c: Collaborators)
    requires clicked || s.sendInput
    ensures var r := SendBlock(s, clicked, image, c);
      var afterImage := if image.Some? then
        s.history + [Message(Human, s.userQuestion), Message(Ai, c.answerImage(image.value, s.userQuestion))]
        else s.history;
      && !r.sendInput && r.userQuestion == ""
      && r.history == (if s.userQuestion != "" then c.chain(LoadChain(s.pdfChat), afterImage, s.userQuestion)
                       else afterImage)
      && r == s.(history := r.history, userQuestion := "", sendInput := false)
  {
  }

  /** The audio path runs the chain on the transcript whatever the latch says,
      and changes nothing but the history. */
  lemma AudioIgnoresLatch(s: UIState, audio: Option<Bytes>, c: Collaborators)
    ensures var r := Audio(s, audio, c);
      && r == s.(history := r.history)
      && (audio.Some? ==> r.history == c.chain(LoadChain(s.pdfChat), s.history, c.transcribe(audio.value)))
      && (audio.None? ==> r.history == s.history)
  {
  }

  /** After any save the store holds the history in memory under the key
      the save targets, which for the sentinel is now pending; no key is
      removed, and nothing but the store and the pending key changes. */
  lemma SavePersistsHistory(q: UIState, timestamp: string)
    ensures var r := SaveChatHistory(q, timestamp);
      && r == q.(newSessionKey := r.newSessionKey, store := r.store)
      && q.store.Keys <= r.store.Keys
      && (SaveTarget(q, timestamp).None? <==> q.history == [])
      && (SaveTarget(q, timestamp).Some? ==>
            SaveTarget(q, timestamp).value in r.store && r.store[SaveTarget(q, timestamp).value] == r.history)
      && (q.history != [] && q.sessionKey == SENTINEL ==> r.newSessionKey == SaveTarget(q, timestamp))
      && (!(q.history != [] && q.sessionKey == SENTINEL) ==> r.newSessionKey == q.newSessionKey)
  {
  }

  /** The audio path and the send block write no file, keep the selection
      and always leave the latch released: a fired block releases it and an
      idle one finds it released. */
  lemma RespondFrame(p: UIState, clicked: bool, env: Env, c: Collaborators)
    ensures var q := SendBlock(Audio(p, env.audio, c), clicked, env.image, c);
      && q.store == p.store && q.newSessionKey == p.newSessionKey
      && q.sessionKey == p.sessionKey && q.sessionIndexTracker == p.sessionIndexTracker
      && q.initialised == p.initialised && q.userInput == p.userInput && q.pdfChat == p.pdfChat
      && !q.sendInput
      && Respond(p, clicked, env, c) == SaveChatHistory(q, env.timestamp)
  {
    var a := Audio(p, env.audio, c);
    AudioIgnoresLatch(p, env.audio, c);
    if clicked || a.sendInput {
      SendBlockEffect(a, clicked, env.image, c);
    } else {
      SendBlockIdle(a, clicked, env.image, c);
    }
  }

  // ---------------------------------------------------------------- whole cycles

  /** A cycle is its preparation, then, unless that aborted, the response. */
  lemma CycleIsPrepareThenRespond(s: UIState, ev: Events, env: Env, c: Collaborators)
    ensures var (p, o) := Prepare(s, ev, env);
      CycleSpec(s, ev, env, c) == if o.Aborted? then (p, o) else (Respond(p, SendClicked(s, ev), env, c), Completed)
  {
  }

  /** A completed cycle leaves the state initialised and the latch released;
      an aborted one writes no file. */
  lemma CycleReleasesLatch(s: UIState, ev: Events, env: Env, c: Collaborators)
    ensures var (r, o) := CycleSpec(s, ev, env, c);
      && (o.Completed? ==> !r.sendInput && r.initialised)
      && (o.Aborted? ==> r.store == s.store)
  {
    CycleIsPrepareThenRespond(s, ev, env, c);
    PrepareFrame(s, ev, env);
    var (p, o) := Prepare(s, ev, env);
    if o.Completed? {
      var clicked := SendClicked(s, ev);
      RespondFrame(p, clicked, env, c);
      SavePersistsHistory(SendBlock(Audio(p, env.audio, c), clicked, env.image, c), env.timestamp);
    }
  }

  /** After a completed cycle the store holds exactly the history in memory
      under the key a save of the final state targets: the selected key, or,
      for the sentinel, the key just minted and now pending. */
  lemma CompletedCyclePersistsHistory(s: UIState, ev: Events, env: Env, c: Collaborators)
    ensures var (r, o) := CycleSpec(s, ev, env, c);
      o.Completed? && r.history != [] ==>
        && SaveTarget(r, env.timestamp).Some?
        && SaveTarget(r, env.timestamp).value in r.store
        && r.store[SaveTarget(r, env.timestamp).value] == r.history
        && (r.sessionKey == SENTINEL ==> r.newSessionKey == SaveTarget(r, env.timestamp))
  {
    CycleIsPrepareThenRespond(s, ev, env, c);
    var (p, o) := Prepare(s, ev, env);
    if o.Completed? {
      RespondFrame(p, SendClicked(s, ev), env, c);
      var q := SendBlock(Audio(p, env.audio, c), SendClicked(s, ev), env.image, c);
      SavePersistsHistory(q, env.timestamp);
    }
  }

  /** A save of the history just loaded writes nothing new: the store and
      the pending key stay as they were. */
  lemma UnchangedHistoryWritesNothing(p: UIState, timestamp: string)
    requires LoadHistory(p.store, p.sessionKey) == Ok(p.history)
    ensures SaveChatHistory(p, timestamp).store == p.store
    ensures SaveChatHistory(p, timestamp).newSessionKey == p.newSessionKey
  {
    if p.history != [] {
      assert p.sessionKey != SENTINEL && p.store[p.sessionKey] == p.history;
      assert p.store[p.sessionKey := p.history] == p.store;
    }
  }

  /** A response that runs no turn (no upload, and no question or no
      trigger) saves back what was loaded. */
  lemma NoTurnWritesNothing(p: UIState, clicked: bool, env: Env, c: Collaborators)
    requires LoadHistory(p.store, p.sessionKey) == Ok(p.history)
    requires env.audio.None? && env.image.None?
    requires p.userQuestion == "" || (!clicked && !p.sendInput)
    ensures var r := Respond(p, clicked, env, c);
      r.history == p.history && r.store == p.store && r.newSessionKey == p.newSessionKey
  {
    AudioIgnoresLatch(p, env.audio, c);
    var q := SendBlock(p, clicked, env.image, c);
    if clicked || p.sendInput {
      SendBlockEffect(p, clicked, env.image, c);
      assert q == p.(sendInput := false);
    } else {
      SendBlockIdle(p, clicked, env.image, c);
    }
    UnchangedHistoryWritesNothing(q, env.timestamp);
  }

  /** At most once per user action: a rerun without events, uploads or an
      armed latch runs no chain and leaves the store as it was. */
  lemma IdleCycleChangesNothingStored(s: UIState, env: Env, c: Collaborators)
    requires !s.sendInput && env.audio.None? && env.image.None?
    ensures var (r, o) := CycleSpec(s, NO_EVENTS, env, c);
      var (p, _) := Prepare(s, NO_EVENTS, env);
      o.Completed? ==> r.store == s.store && r.history == p.history
  {
    CycleIsPrepareThenRespond(s, NO_EVENTS, env, c);
    PrepareFrame(s, NO_EVENTS, env);
    ApplyEventsFrame(s, NO_EVENTS);
    var (p, o) := Prepare(s, NO_EVENTS, env);
    if o.Completed? {
      assert !SendClicked(s, NO_EVENTS) && !p.sendInput;
      NoTurnWritesNothing(p, false, env, c);
    }
  }

  /** Pressing Send on an empty field appends no turn and triggers no save,
      hence no mint. */
  lemma EmptySendAppendsNothing(s: UIState, env: Env, c: Collaborators)
    requires s.initialised && s.userInput == "" && s.userQuestion == ""
    requires env.audio.None? && env.image.None?
    ensures var ev := NO_EVENTS.(sendClicked := true);
      var (r, o) := CycleSpec(s, ev, env, c);
      var (p, _) := Prepare(s, ev, env);
      o.Completed? ==>
        && r.history == p.history && r.store == s.store
        && r.newSessionKey == p.newSessionKey && !r.sendInput
  {
    var ev := NO_EVENTS.(sendClicked := true);
    CycleIsPrepareThenRespond(s, ev, env, c);
    CycleReleasesLatch(s, ev, env, c);
    PrepareFrame(s, ev, env);
    assert ApplyEvents(s, ev) == ClearInputField(s);
    var (p, o) := Prepare(s, ev, env);
    if o.Completed? {
      assert p.userQuestion == "";
      NoTurnWritesNothing(p, true, env, c);
    }
  }

  /** The new value captured by the text field's callback on an idle field. */
  lemma TypedInputCaptured(s: UIState, text: string, clicked: bool)
    requires s.initialised && s.userQuestion == ""
    ensures ApplyEvents(s, NO_EVENTS.(typed := Some(text), sendClicked := clicked))
      == s.(userInput := "", userQuestion := text, sendInput := true)
  {
  }

  /** A new question submitted with Enter, with or without Send in the same
      render: the chain runs once, on that question, in the mode the PDF
      switch selects, and the input, question and latch are all cleared. */
  lemma EnterThenSendOneTurn(s: UIState, text: string, clicked: bool, env: Env, c: Collaborators)
    requires s.initialised && s.userQuestion == "" && text != ""
    requires env.audio.None? && env.image.None?
    ensures var ev := NO_EVENTS.(typed := Some(text), sendClicked := clicked);
      var (r, o) := CycleSpec(s, ev, env, c);
      var (p, _) := Prepare(s, ev, env);
      o.Completed? ==>
        && p.userQuestion == text && p.sendInput && p.pdfChat == s.pdfChat
        && r.history == c.chain(LoadChain(s.pdfChat), p.history, text)
        && r.userQuestion == "" && !r.sendInput && r.userInput == ""
        && r == SaveChatHistory(p.(history := r.history, userQuestion := "", sendInput := false), env.timestamp)
  {
    var ev := NO_EVENTS.(typed := Some(text), sendClicked := clicked);
    TypedInputCaptured(s, text, clicked);
    PrepareFrame(s, ev, env);
    CycleIsPrepareThenRespond(s, ev, env, c);
    var (p, o) := Prepare(s, ev, env);
    if o.Completed? {
      AudioIgnoresLatch(p, env.audio, c);
      SendBlockEffect(p, SendClicked(s, ev), env.image, c);
      var q := SendBlock(p, SendClicked(s, ev), env.image, c);
      SavePersistsHistory(q, env.timestamp);
    }
  }

  /** The cycle after a first save selects the minted session: the minted
      key is stored (the save put it there), so the directory listing names
      it; the tracker takes it, the selector shows it, and its transcript is
      loaded. */
  lemma MintedSessionSelectedNextCycle(s: UIState, env: Env, c: Collaborators)
    requires s.initialised && !s.sendInput
    requires s.sessionKey == SENTINEL && s.newSessionKey.Some?
    requires TrackerStored(s) && StoreClean(s.store) && ListsStore(env.listing, s.store)
    requires env.selectboxReset && env.audio.None? && env.image.None?
    ensures var (r, o) := CycleSpec(s, NO_EVENTS, env, c);
      var key := s.newSessionKey.value;
      && key in env.listing && key != SENTINEL
      && o == Completed
      && r.sessionIndexTracker == key && r.sessionKey == key && r.newSessionKey == None
      && r.history == s.store[key] && r.store == s.store
  {
    var key := s.newSessionKey.value;
    assert key in s.store;
    assert key in env.listing && key != SENTINEL;
    ApplyEventsFrame(s, NO_EVENTS);
    var s1 := Reconcile(Initialise(ApplyEvents(s, NO_EVENTS)));
    assert s1 == s.(sessionIndexTracker := key, newSessionKey := None);
    SelectSessionFinds(s1, env.listing, true);
    var sel := SelectSession(s1, ListSessions(env.listing), true);
    assert sel.0 == s1.(sessionKey := key);
    var (p, o) := Prepare(s, NO_EVENTS, env);
    assert (p, o) == LoadPhase(sel.0);
    assert p == sel.0.(history := s.store[key]);
    CycleIsPrepareThenRespond(s, NO_EVENTS, env, c);
    NoTurnWritesNothing(p, false, env, c);
    RespondFrame(p, false, env, c);
    SavePersistsHistory(SendBlock(Audio(p, env.audio, c), false, env.image, c), env.timestamp);
  }

  /** The preparation of any cycle after a first save, whatever the widget
      events (short of picking another session): the minted key, being
      stored, is listed, becomes tracker and selection, and its transcript
      is loaded; nothing is written. */
  lemma MintedSessionPrepared(s: UIState, ev: Events, env: Env)
    requires s.initialised && s.sessionKey == SENTINEL && s.newSessionKey.Some?
    requires TrackerStored(s) && StoreClean(s.store) && ListsStore(env.listing, s.store)
    requires env.selectboxReset && ev.pick.None?
    ensures var (p, o) := Prepare(s, ev, env);
      var key := s.newSessionKey.value;
      && o == Completed && key != SENTINEL
      && p.sessionKey == key && p.sessionIndexTracker == key && p.newSessionKey == None
      && p.store == s.store && p.history == s.store[key]
  {
    var key := s.newSessionKey.value;
    assert key in s.store && key in env.listing && key != SENTINEL;
    ApplyEventsFrame(s, ev);
    var s1 := Reconcile(Initialise(ApplyEvents(s, ev)));
    assert s1.sessionIndexTracker == key && s1.newSessionKey == None && s1.store == s.store;
    SelectSessionFinds(s1, env.listing, true);
    var sel := SelectSession(s1, ListSessions(env.listing), true);
    assert sel.1 == Completed && sel.0 == s1.(sessionKey := key);
    assert Prepare(s, ev, env) == LoadPhase(sel.0);
  }

  /** Any cycle after a first save, a submission included, completes in the
      minted session and writes into that file only: no second key is minted
      and every other file keeps its contents. */
  lemma MintedSessionTakesNextTurn(s: UIState, ev: Events, env: Env, c: Collaborators)
    requires s.initialised && s.sessionKey == SENTINEL && s.newSessionKey.Some?
    requires TrackerStored(s) && StoreClean(s.store) && ListsStore(env.listing, s.store)
    requires env.selectboxReset && ev.pick.None?
    ensures var (r, o) := CycleSpec(s, ev, env, c);
      var key := s.newSessionKey.value;
      && o == Completed
      && r.sessionKey == key && r.sessionIndexTracker == key && r.newSessionKey == None
      && r.store.Keys == s.store.Keys
      && (r.history != [] ==> r.store[key] == r.history)
      && (forall k :: k in s.store && k != key ==> r.store[k] == s.store[k])
  {
    var key := s.newSessionKey.value;
    MintedSessionPrepared(s, ev, env);
    CycleIsPrepareThenRespond(s, ev, env, c);
    var (p, o) := Prepare(s, ev, env);
    var clicked := SendClicked(s, ev);
    RespondFrame(p, clicked, env, c);
    var q := SendBlock(Audio(p, env.audio, c), clicked, env.image, c);
    SavePersistsHistory(q, env.timestamp);
    var r := SaveChatHistory(q, env.timestamp);
    assert r.store == q.store || r.store == q.store[key := q.history];
    forall k | k in s.store && k != key
      ensures r.store[k] == s.store[k]
    {
      SaveWritesOneKey(q, env.timestamp, k);
    }
  }

  /** A chain that appends one human turn with the question and one reply. */
  ghost predicate AppendsOneTurn(c: Collaborators) {
    forall m, h, q {:trigger c.chain(m, h, q)} ::
      |c.chain(m, h, q)| == |h| + 2 && c.chain(m, h, q)[..|h|] == h
      && c.chain(m, h, q)[|h|] == Message(Human, q) && c.chain(m, h, q)[|h| + 1].role == Ai
  }

  /** With such a chain, one typed turn in a saved session rewrites its file
      as the old transcript in order, then the question, then the reply. */
  lemma ExistingSessionGrowsByOneTurn(s: UIState, key: string, text: string, env: Env, c: Collaborators)
    requires AppendsOneTurn(c)
    requires s.initialised && s.userQuestion == "" && text != ""
    requires env.audio.None? && env.image.None?
    requires key != SENTINEL && key in s.store
    requires s.sessionKey == key && (env.selectboxReset ==> s.sessionIndexTracker == key)
    ensures var (r, o) := CycleSpec(s, NO_EVENTS.(typed := Some(text)), env, c);
      o.Completed? ==>
        && key in r.store && |r.store[key]| == |s.store[key]| + 2
        && r.store[key][..|s.store[key]|] == s.store[key]
        && r.store[key][|s.store[key]|] == Message(Human, text)
        && r.store[key][|s.store[key]| + 1].role == Ai
  {
    var ev := NO_EVENTS.(typed := Some(text));
    EnterThenSendOneTurn(s, text, false, env, c);
    TypedInputCaptured(s, text, false);
    var s1 := Reconcile(Initialise(ApplyEvents(s, ev)));
    assert s1 == s.(userInput := "", userQuestion := text, sendInput := true);
    SelectSessionFinds(s1, env.listing, env.selectboxReset);
    PrepareFrame(s, ev, env);
    var (p, o) := Prepare(s, ev, env);
    if o.Completed? {
      var sel := SelectSession(s1, ListSessions(env.listing), env.selectboxReset);
      assert sel.0.sessionKey == key;
      assert (p, o) == LoadPhase(sel.0);
      assert p.history == s.store[key];
      var h := c.chain(LoadChain(s.pdfChat), p.history, text);
      SaveExistingOverwrites(p.(history := h, userQuestion := "", sendInput := false), env.timestamp);
    }
  }

  // ---------------------------------------------------------------- runs of cycles

  /** A store no save of this script can spoil: no file named like the
      sentinel, no empty transcript. */
  ghost predicate StoreClean(store: map<string, seq<Message>>) {
    SENTINEL !in store && forall k :: k in store ==> store[k] != []
  }

  /** A save keeps the store clean and only adds keys. */
  lemma SaveKeepsStoreClean(q: UIState, timestamp: string)
    requires StoreClean(q.store)
    ensures StoreClean(SaveChatHistory(q, timestamp).store)
    ensures q.store.Keys <= SaveChatHistory(q, timestamp).store.Keys
  {
    MintedKeyIsFileName(timestamp);
  }

  lemma CycleKeepsStoreClean(s: UIState, ev: Events, env: Env, c: Collaborators)
    requires StoreClean(s.store)
    ensures StoreClean(CycleSpec(s, ev, env, c).0.store)
    ensures s.store.Keys <= CycleSpec(s, ev, env, c).0.store.Keys
  {
    CycleIsPrepareThenRespond(s, ev, env, c);
    PrepareFrame(s, ev, env);
    var (p, o) := Prepare(s, ev, env);
    if o.Completed? {
      RespondFrame(p, SendClicked(s, ev), env, c);
      SaveKeepsStoreClean(SendBlock(Audio(p, env.audio, c), SendClicked(s, ev), env.image, c), env.timestamp);
    }
  }

  /** Over any run of cycles the store only gains keys, never holds the
      sentinel as a file and never holds an empty transcript. */
  lemma {:induction false} RunKeepsStoreClean(s: UIState, steps: seq<Step>, c: Collaborators)
    requires StoreClean(s.store)
    ensures StoreClean(Run(s, steps, c).store)
    ensures s.store.Keys <= Run(s, steps, c).store.Keys
    decreases |steps|
  {
    if steps != [] {
      var next := CycleSpec(s, steps[0].events, steps[0].env, c).0;
      CycleKeepsStoreClean(s, steps[0].events, steps[0].env, c);
      RunKeepsStoreClean(next, steps[1..], c);
    }
  }

  // ---------------------------------------------------------------- listing and tracker

  /** The directory listing a cycle reads names exactly the files stored when
      the cycle starts, each once: both come from the same directory. */
  ghost predicate ListsStore(listing: seq<string>, store: map<string, seq<Message>>) {
    && (forall k :: k in listing <==> k in store)
    && (forall i, j :: 0 <= i < j < |listing| ==> listing[i] != listing[j])
  }

  /** Once initialised, the selector's target is the sentinel or a stored
      file, and a pending minted key names a stored file. */
  ghost predicate TrackerStored(s: UIState) {
    s.initialised ==>
      && (s.sessionIndexTracker == SENTINEL || s.sessionIndexTracker in s.store)
      && (s.newSessionKey.Some? ==> s.newSessionKey.value in s.store)
  }

  /** Every cycle keeps the tracker and the pending key pointing at stored
      files, whether it completes or aborts. */
  lemma CycleKeepsTrackerStored(s: UIState, ev: Events, env: Env, c: Collaborators)
    requires TrackerStored(s)
    ensures TrackerStored(CycleSpec(s, ev, env, c).0)
  {
    ApplyEventsFrame(s, ev);
    PrepareFrame(s, ev, env);
    CycleIsPrepareThenRespond(s, ev, env, c);
    var a := Initialise(ApplyEvents(s, ev));
    assert a.store == s.store && TrackerStored(a);
    assert TrackerStored(Reconcile(a));
    var (p, o) := Prepare(s, ev, env);
    assert TrackerStored(p);
    if o.Completed? {
      RespondFrame(p, SendClicked(s, ev), env, c);
      var q := SendBlock(Audio(p, env.audio, c), SendClicked(s, ev), env.image, c);
      assert TrackerStored(q);
      SavePersistsHistory(q, env.timestamp);
    }
  }

  /** With a listing that names the stored files, the `.index` lookup finds
      a stored tracker: such a cycle can fail only because the selected
      session's file is missing. */
  lemma StoredTrackerIsListed(s: UIState, ev: Events, env: Env, c: Collaborators)
    requires TrackerStored(s) && ListsStore(env.listing, s.store)
    ensures var o := CycleSpec(s, ev, env, c).1;
      o.Aborted? ==> o.error.HistoryNotFound?
  {
    ApplyEventsFrame(s, ev);
    var s1 := Reconcile(Initialise(ApplyEvents(s, ev)));
    assert s1.store == s.store && TrackerStored(s1) && s1.initialised;
    SelectSessionFinds(s1, env.listing, env.selectboxReset);
    var sel := SelectSession(s1, ListSessions(env.listing), env.selectboxReset);
    assert sel.1 == Completed;
    assert Prepare(s, ev, env) == LoadPhase(sel.0);
    CycleIsPrepareThenRespond(s, ev, env, c);
  }

  /** Every cycle of the run reads a listing of the files stored when it starts. */
  ghost predicate ListedRun(s: UIState, steps: seq<Step>, c: Collaborators)
    decreases |steps|
  {
    steps == [] ||
    (ListsStore(steps[0].env.listing, s.store)
     && ListedRun(CycleSpec(s, steps[0].events, steps[0].env, c).0, steps[1..], c))
  }

  /** Over any run whose listings follow the directory, the tracker stays on
      a stored file and no cycle fails its `.index` lookup. */
  lemma {:induction false} RunFindsTracker(s: UIState, steps: seq<Step>, c: Collaborators)
    requires TrackerStored(s) && ListedRun(s, steps, c)
    ensures TrackerStored(Run(s, steps, c))
    ensures forall i :: 0 <= i < |steps| ==>
      RunOutcomes(s, steps, c)[i].Aborted? ==> RunOutcomes(s, steps, c)[i].error.HistoryNotFound?
    decreases |steps|
  {
    if steps != [] {
      var (next, o) := CycleSpec(s, steps[0].events, steps[0].env, c);
      StoredTrackerIsListed(s, steps[0].events, steps[0].env, c);
      CycleKeepsTrackerStored(s, steps[0].events, steps[0].env, c);
      RunFindsTracker(next, steps[1..], c);
      assert RunOutcomes(s, steps, c) == [o] + RunOutcomes(next, steps[1..], c);
    }
  }

  /** The new-session scenario: the first cycle of a connection on an empty
      directory shows the sentinel; typing "hello" and pressing Enter with a
      chain that answers "hi there" saves exactly that two-message transcript
      under `<timestamp>.json`; the cycle after that selects the new session,
      while the sentinel stays offered first. */
  lemma NewSessionScenario(ts: string, c: Collaborators, listing: seq<string>)
    requires forall m, h, q {:trigger c.chain(m, h, q)} ::
      c.chain(m, h, q) == h + [Message(Human, q), Message(Ai, "hi there")]
    requires listing == [ts + ".json"]
    ensures var s0 := Fresh(map[]);
      var env0 := Env([], true, None, None, ts);
      var (s1, o1) := CycleSpec(s0, NO_EVENTS, env0, c);
      var (s2, o2) := CycleSpec(s1, NO_EVENTS.(typed := Some("hello")), env0, c);
      var transcript := [Message(Human, "hello"), Message(Ai, "hi there")];
      var (s3, o3) := CycleSpec(s2, NO_EVENTS, Env(listing, true, None, None, ts), c);
      && o1 == Completed && s1.sessionKey == SENTINEL && s1.store == map[]
      && o2 == Completed && s2.store == map[ts + ".json" := transcript]
      && s2.newSessionKey == Some(ts + ".json")
      && o3 == Completed && s3.sessionKey == ts + ".json" && s3.history == transcript
      && ListSessions(listing)[0] == SENTINEL
  {
    var s0 := Fresh(map[]);
    var env0 := Env([], true, None, None, ts);
    var p1 := Prepare(s0, NO_EVENTS, env0).0;
    assert p1 == s0.(initialised := true, sessionKey := SENTINEL, sessionIndexTracker := SENTINEL);
    var (s1, o1) := CycleSpec(s0, NO_EVENTS, env0, c);
    assert s1 == p1;
    var ev2 := NO_EVENTS.(typed := Some("hello"));
    var p2 := Prepare(s1, ev2, env0).0;
    assert p2 == s1.(userQuestion := "hello", sendInput := true);
    var transcript := [Message(Human, "hello"), Message(Ai, "hi there")];
    assert c.chain(Normal, [], "hello") == transcript;
    var q2 := SendBlock(Audio(p2, None, c), false, None, c);
    assert q2 == p2.(history := transcript, userQuestion := "", sendInput := false);
    var (s2, o2) := CycleSpec(s1, ev2, env0, c);
    assert s2 == SaveChatHistory(q2, ts);
    MintedKeyIsFileName(ts);
    MintedSessionSelectedNextCycle(s2, Env(listing, true, None, None, ts), c);
  }
}
