/** The session lifecycle of the chat UI as pure functions on the state
    record: one function per callback and per phase of `main`, and the
    composition of one render cycle in the order the script runs them.
    The class in module App is proved against these functions. */
module SessionSpec {
  import opened SessionTypes

  /** The state of a connection before the script has run for it: no field
      of the session state is set yet; the widgets' own defaults (an empty
      text field, the PDF Chat toggle off) stand in for the fields they own. */
  function Fresh(persisted: map<string, seq<Message>>): (s: UIState)
    ensures !s.initialised && s.store == persisted
  {
    UIState(false, "", None, "", "", "", false, false, [], persisted)
  }

  /** `load_chain`: the PDF chain when PDF chat is on, the normal one otherwise. */
  function LoadChain(pdfChat: bool): (m: ChainMode)
    ensures m == PdfChat <==> pdfChat
  {
    if pdfChat then PdfChat else Normal
  }

  /** `clear_input_field`: move the typed text into the pending question,
      unless a question is already pending. */
  function ClearInputField(s: UIState): UIState {
    if s.userQuestion == "" then s.(userQuestion := s.userInput, userInput := "") else s
  }

  /** `set_send_input`: arm the send latch, then capture the input. */
  function SetSendInput(s: UIState): UIState {
    ClearInputField(s.(sendInput := true))
  }

  /** `toggle_pdf_chat`. */
  function TogglePdfChat(s: UIState): UIState {
    s.(pdfChat := true)
  }

  /** The key a first save of the sentinel session is stored under. */
  function MintedKey(timestamp: string): string {
    timestamp + JSON_SUFFIX
  }

  /** The store key `save_chat_history` writes, if it writes one. */
  function SaveTarget(s: UIState, timestamp: string): Option<string> {
    if s.history == [] then None
    else if s.sessionKey == SENTINEL then Some(MintedKey(timestamp))
    else Some(s.sessionKey)
  }

  /** `save_chat_history`: nothing for an empty history; for the sentinel a
      freshly minted key, remembered in `newSessionKey`; otherwise a full
      overwrite of the selected session's file. */
  function SaveChatHistory(s: UIState, timestamp: string): UIState {
    if s.history == [] then s
    else if s.sessionKey == SENTINEL then
      var key := MintedKey(timestamp);
      s.(newSessionKey := Some(key), store := s.store[key := s.history])
    else
      s.(store := s.store[s.sessionKey := s.history])
  }

  /** The first-run initialisation of `main`. */
  function Initialise(s: UIState): UIState {
    if s.initialised then s
    else s.(initialised := true, sessionKey := SENTINEL, sendInput := false, userQuestion := "",
            newSessionKey := None, sessionIndexTracker := SENTINEL)
  }

  /** The reconciliation at cycle start: a key minted for the sentinel
      session becomes the selector's target, and the pending mark is cleared. */
  function Reconcile(s: UIState): UIState {
    if s.sessionKey == SENTINEL && s.newSessionKey.Some? then
      s.(sessionIndexTracker := s.newSessionKey.value, newSessionKey := None)
    else s
  }

  /** The options of the session selector: the sentinel, then the directory
      listing in the order given. */
  function ListSessions(listing: seq<string>): (r: seq<string>)
    ensures |r| == 1 + |listing| && r[0] == SENTINEL
    ensures forall i :: 0 <= i < |listing| ==> r[i + 1] == listing[i]
  {
    [SENTINEL] + listing
  }

  /** Python's `list.index`: the first position of `x`, or nothing (where
      Python raises) when `x` is absent. */
  function IndexOf(xs: seq<string>, x: string): (r: Option<nat>)
    ensures r.Some? ==> r.value < |xs| && xs[r.value] == x
    ensures r.Some? ==> forall j :: 0 <= j < r.value ==> xs[j] != x
    ensures r.None? <==> x !in xs
  {
    if xs == [] then None
    else if xs[0] == x then Some(0)
    else match IndexOf(xs[1..], x)
      case None => None
      case Some(i) => Some(i + 1)
  }

  /** Locating the tracked session among the options, then the selector:
      a selector created anew this render shows the option at that index
      and so sets `sessionKey`; otherwise `sessionKey` keeps its value. */
  function SelectSession(s: UIState, sessions: seq<string>, reset: bool): (UIState, Outcome) {
    match IndexOf(sessions, s.sessionIndexTracker)
    case None => (s, Aborted(SessionNotListed(s.sessionIndexTracker)))
    case Some(i) => (if reset then s.(sessionKey := sessions[i]) else s, Completed)
  }

  /** Reading a session's transcript: always empty for the sentinel, the
      stored transcript for a saved session, an error when there is none. */
  function LoadHistory(store: map<string, seq<Message>>, key: string): (r: Result<seq<Message>>)
    ensures key == SENTINEL ==> r == Ok([])
    ensures key != SENTINEL ==> (r.Ok? <==> key in store)
    ensures key != SENTINEL && key in store ==> r == Ok(store[key])
  {
    if key == SENTINEL then Ok([])
    else if key in store then Ok(store[key])
    else Err(HistoryNotFound(key))
  }

  /** The history load of `main`. */
  function LoadPhase(s: UIState): (UIState, Outcome) {
    match LoadHistory(s.store, s.sessionKey)
    case Ok(h) => (s.(history := h), Completed)
    case Err(e) => (s, Aborted(e))
  }

  /** The audio upload: its transcript goes straight to the chain, whatever
      the latch says. */
  function Audio(s: UIState, audio: Option<Bytes>, c: Collaborators): UIState {
    if audio.Some? then
      s.(history := c.chain(LoadChain(s.pdfChat), s.history, c.transcribe(audio.value)))
    else s
  }

  /** The image turn of the send block: the pending question and the image
      answerer's reply are appended to the history. */
  function ImageTurn(s: UIState, image: Option<Bytes>, c: Collaborators): UIState {
    if image.Some? then
      s.(history := s.history + [Message(Human, s.userQuestion),
                                 Message(Ai, c.answerImage(image.value, s.userQuestion))])
    else s
  }

  /** The text turn of the send block: a pending question runs the chain and
      is then cleared. */
  function TextTurn(s: UIState, c: Collaborators): UIState {
    if s.userQuestion != "" then
      s.(history := c.chain(LoadChain(s.pdfChat), s.history, s.userQuestion), userQuestion := "")
    else s
  }

  /** The send block: when Send was clicked or the latch is armed, the image
      turn, then the text turn, then the latch is released. */
  function SendBlock(s: UIState, clicked: bool, image: Option<Bytes>, c: Collaborators): UIState {
    if clicked || s.sendInput then TextTurn(ImageTurn(s, image, c), c).(sendInput := false)
    else s
  }

  /** Whether the Send button reports a click in this render; no button
      exists before the script has run once. */
  function SendClicked(s: UIState, ev: Events): bool {
    s.initialised && ev.sendClicked
  }

  /** New values of the text field, the PDF Chat toggle and the session
      selector are stored under their keys. */
  function StoreWidgetValues(s: UIState, ev: Events): UIState {
    s.(userInput := if ev.typed.Some? then ev.typed.value else s.userInput,
       pdfChat := if ev.toggle.Some? then ev.toggle.value else s.pdfChat,
       sessionKey := if ev.pick.Some? then ev.pick.value else s.sessionKey)
  }

  /** The callbacks of the changed widgets, in the order the widgets were
      created: text field, Send button, PDF uploader. */
  function RunCallbacks(s: UIState, ev: Events): UIState {
    var s1 := if ev.typed.Some? then SetSendInput(s) else s;
    var s2 := if ev.sendClicked then ClearInputField(s1) else s1;
    if ev.pdfUploadChanged then TogglePdfChat(s2) else s2
  }

  /** The widget phase before the script: new widget values are stored, then
      the callbacks run. Before the first run no widget exists, so nothing is
      delivered. */
  function ApplyEvents(s: UIState, ev: Events): UIState {
    if !s.initialised then s else RunCallbacks(StoreWidgetValues(s, ev), ev)
  }

  /** The cycle up to and including the history load: events, initialisation,
      reconciliation, selection, load. An abort keeps the changes made so far. */
  function Prepare(s: UIState, ev: Events, env: Env): (UIState, Outcome) {
    var s1 := Reconcile(Initialise(ApplyEvents(s, ev)));
    var (s2, o2) := SelectSession(s1, ListSessions(env.listing), env.selectboxReset);
    if o2.Aborted? then (s2, o2) else LoadPhase(s2)
  }

  /** The rest of the cycle: audio, the send block, the save. */
  function Respond(s: UIState, clicked: bool, env: Env, c: Collaborators): UIState {
    SaveChatHistory(SendBlock(Audio(s, env.audio, c), clicked, env.image, c), env.timestamp)
  }

  /** One render cycle of `main`. */
  function CycleSpec(s: UIState, ev: Events, env: Env, c: Collaborators): (UIState, Outcome) {
    var (p, o) := Prepare(s, ev, env);
    if o.Aborted? then (p, o) else (Respond(p, SendClicked(s, ev), env, c), Completed)
  }

  /** Several render cycles in a row; an aborted cycle's partial changes carry over. */
  function Run(s: UIState, steps: seq<Step>, c: Collaborators): UIState
    decreases |steps|
  {
    if steps == [] then s
    else Run(CycleSpec(s, steps[0].events, steps[0].env, c).0, steps[1..], c)
  }

  /** The outcome of each cycle of a run, in order. */
  function RunOutcomes(s: UIState, steps: seq<Step>, c: Collaborators): (r: seq<Outcome>)
    ensures |r| == |steps|
    decreases |steps|
  {
    if steps == [] then []
    else
      var (next, o) := CycleSpec(s, steps[0].events, steps[0].env, c);
      [o] + RunOutcomes(next, steps[1..], c)
  }
}
