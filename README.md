# Chat-session lifecycle of the multimodal chat UI

This project models the state logic of `app.py`, the Streamlit script of a multimodal
chat bot. Each browser connection has a session-state record. The script runs from top
to bottom on every render cycle. Between runs, widget callbacks mutate the record:

- the text field's `on_change` (`set_send_input`) and the Send button's `on_click`
  (`clear_input_field`) move the typed text into a pending question; a boolean latch
  (`send_input`) stops a double submission;
- the PDF uploader's `on_change` (`toggle_pdf_chat`) switches PDF chat on;
- `main` initialises the record on the first run, moves a session key minted by the
  previous save into the selector's tracker, locates the tracked session among
  `["new_session"] + listing` and passes its position to the selector, loads the
  transcript of the session the selector holds (`session_key`, which is the tracked
  session only when the selector is created anew in this render; empty for the
  `new_session` sentinel), runs the audio path, runs the send block (image turn first,
  then the text turn, then the latch is released), and finally calls
  `save_chat_history`;
- `save_chat_history` writes nothing for an empty history. For the sentinel it mints
  `<timestamp>.json` and remembers it in `new_session_key`. Otherwise it overwrites the
  selected session's file with the full history.

Layout:

- `types.dfy` (module `SessionTypes`): messages, the state record `UIState`, the inputs
  of one cycle (`Events`, `Env`), the collaborators, `Result` and `Outcome`.
- `session_spec.dfy` (module `SessionSpec`): one pure function per callback and per
  phase of `main`, and `CycleSpec`, which composes them in source order. `Run` chains
  several cycles.
- `session_props.dfy` (module `SessionProps`): the properties, as lemmas.
- `app.dfy` (module `App`): class `ChatApp`. Its fields are the session-state record
  plus the session directory, held as a `map`. It has one method per callback or phase
  and a `Cycle` method that calls them in source order. Each method `modifies this` and
  ensures that the new `State()` is the matching `SessionSpec` function of the old state.

Conventions:

- Collaborators are parameters (`Collaborators`), as total functions: the chain (history
  and question to new history, in the mode `load_chain` picks), the image answerer and
  the transcriber. The chain appends to the history inside library code that this model
  does not include, so no lemma assumes its result, except those that name a hypothesis
  on it (`AppendsOneTurn`, `NewSessionScenario`).
- The timestamp, the directory listing (in file-system order), the uploads present and
  whether the session selector is created anew in this render are fields of `Env`.
- Widget events of the previous render are fields of `Events`. As in Streamlit, the new
  widget values are stored first. Then the callbacks run in widget order: text field,
  Send button, PDF uploader. Before the first run no widget exists, so events delivered
  to an uninitialised state are dropped.
- Streamlit fires the text field's `on_change` only when its value changes. The model
  accepts a `typed` value equal to the field's current value, and treats it as a fired
  callback, but the framework never delivers such an event.
- `initialised` stands for `"send_input" in st.session_state`.
- A failing `chat_sessions.index(...)` becomes `Aborted(SessionNotListed(key))`, and
  loading a session file that is absent becomes `Aborted(HistoryNotFound(key))`. Changes
  already made to the session state survive an abort, as they do when the script raises.

Places where the code decides and the model follows it:

- The audio path runs on every render while a file stays in the audio uploader, not
  only when new bytes arrive. It ignores the latch. The image turn also runs on every
  fired send while an image stays uploaded.
- PDF chat is not sticky. The sidebar toggle at line 61 is bound to the same key and can
  switch it off again. Only `toggle_pdf_chat` itself forces it on.
- The text turn does not append the (question, answer) pair itself. `llm_chain.run`
  does that inside the chain's memory, so the model leaves the chain's result open.
- After a failed load the script aborts with its previous `history` still in place,
  and an armed latch stays armed.
- The image turn uses the pending question even when it is empty.

## Model

| member | source | states |
|---|---|---|
| SessionSpec.Fresh | app.py:48 | before the first run no field is set: the state is uninitialised and the directory is as persisted |
| SessionSpec.LoadChain | app.py:16-20 | the PDF chain is chosen exactly when PDF chat is on |
| SessionSpec.ListSessions | app.py:46 | the options are the sentinel followed by the listing, in listing order, one longer than the listing |
| SessionSpec.IndexOf | app.py:59 | `list.index`: a found index holds the key and no earlier position does; nothing is found exactly when the key is absent |
| SessionSpec.LoadHistory | app.py:64-67 | the sentinel loads `[]`; another key loads its stored transcript, and loading fails exactly when it has none |
| SessionProps.ClearInputFieldEffect | app.py:22-25 | a pending question is never overwritten and then nothing changes; otherwise the typed text becomes the question and the field is emptied, nothing else changes |
| SessionProps.ClearInputFieldIdempotent | app.py:22-25 | capturing twice gives the same state as capturing once |
| SessionProps.SetSendInputEffect | app.py:27-29 | the latch is armed, and otherwise the effect is exactly the capture |
| SessionProps.EnterThenSendCapturesOnce | app.py:22-29 | the Send callback after Enter's callback changes nothing more |
| SessionProps.TogglePdfChatEffect | app.py:31-32 | only `pdfChat` changes, to true, and toggling twice is toggling once |
| SessionProps.ApplyEventsFrame | app.py:71-78 | the widget phase touches only the input field, question, latch, PDF switch and selection, and nothing before the first run |
| SessionProps.TypedInputCaptured | app.py:27-29 | on an idle field a new value typed becomes the pending question, the field is emptied and the latch armed, with or without a Send click |
| SessionProps.MintedKeyIsFileName | app.py:37 | a minted key is the timestamp followed by `.json`, and never the sentinel |
| SessionProps.SaveEmptyWritesNothing | app.py:34-35 | with an empty history the save changes nothing: no file written, no key minted |
| SessionProps.SaveNewSessionMints | app.py:36-38 | for the sentinel, `newSessionKey` becomes `ts + ".json"`, that key is set to the full history, and every other key and field is unchanged, the session key included |
| SessionProps.SaveExistingOverwrites | app.py:39-40 | for another key, only that key's file changes, replaced by the full history; the pending key is unchanged |
| SessionProps.SaveWritesOneKey | app.py:34-40 | a save writes at most one key, which then holds the history; every other key keeps its presence and contents |
| SessionProps.SavePersistsHistory | app.py:34-40 | a save targets a key exactly when the history is non-empty, and that key then holds the history; no key is removed; only the store and the pending key change, the latter to the minted key for the sentinel |
| SessionProps.UnchangedHistoryWritesNothing | app.py:34-40 | saving the transcript just loaded leaves the store and the pending key as they were |
| SessionProps.SaveKeepsStoreClean | app.py:34-40 | a save never creates a file named like the sentinel or an empty transcript, and never removes a key |
| SessionProps.InitialiseEffect | app.py:48-53 | the first run selects the sentinel, idles the latch, clears the question and the pending key; later runs change nothing |
| SessionProps.ReconcileConsumesMint | app.py:54-56 | a key minted for the sentinel moves into the tracker and the pending mark is cleared; afterwards none is pending for the sentinel, so a second run is a no-op |
| SessionProps.SessionIndexFound | app.py:46-59 | the sentinel and every listed key are found at a position holding that key; nothing else is found |
| SessionProps.SelectSessionFinds | app.py:59-60 | selection aborts exactly when the tracked key is neither the sentinel nor listed, and then changes nothing; a selector created anew shows the tracked key |
| SessionProps.PrepareFrame | app.py:46-67 | up to the load, no file is written, the state is initialised, the input, latch and PDF switch are as the widget phase left them, and a completed load holds the selected transcript |
| SessionProps.AudioIgnoresLatch | app.py:84-88 | the audio path runs the chain on the transcript whatever the latch says and changes only the history |
| SessionProps.SendBlockIdle | app.py:90 | with no click and an idle latch the send block changes nothing |
| SessionProps.SendBlockEffect | app.py:90-103 | a fired send block appends the image pair (question, answer) first, then runs the chain on the question, then releases the latch; the question is empty afterwards and nothing else changes |
| SessionProps.RespondFrame | app.py:84-114 | the audio path and the send block write no file and keep the selection; the latch always ends released |
| SessionProps.NoTurnWritesNothing | app.py:84-114 | with no uploads and no question or no trigger, the rest of the cycle keeps the loaded history and writes nothing new |
| SessionProps.CycleReleasesLatch | app.py:90-103 | every completed cycle ends initialised with the latch released; an aborted one writes no file |
| SessionProps.CompletedCyclePersistsHistory | app.py:41-114 | after a completed cycle with a non-empty history the store holds that history under the key the save targets: the selected key, or the freshly minted key, which is then pending |
| SessionProps.IdleCycleChangesNothingStored | app.py:90-114 | a rerun without events or uploads, with the latch idle, runs no chain and leaves the store unchanged |
| SessionProps.EmptySendAppendsNothing | app.py:90-114 | Send on an empty field appends no turn, writes no file, mints no key and releases the latch |
| SessionProps.EnterThenSendOneTurn | app.py:90-103 | Enter on a new question, with or without Send in the same render, runs the chain once on that question in the selected mode and clears field, question and latch |
| SessionProps.MintedSessionSelectedNextCycle | app.py:46-67 | in a quiet rerun after a first save, with the selector created anew, the minted key, being stored, is listed and is not the sentinel; the cycle completes, selects the minted session and loads its transcript without writing anything |
| SessionProps.MintedSessionPrepared | app.py:46-67 | in any cycle after a first save, with the selector created anew and no other session picked, the minted key becomes tracker and selection, the pending mark is cleared, its transcript is loaded and nothing is written |
| SessionProps.MintedSessionTakesNextTurn | app.py:34-114 | any cycle after a first save, typed or uploaded turns included, with the selector created anew and no other session picked, completes in the minted session: no second key is minted, the set of files is unchanged, the minted file holds the history and every other file keeps its contents |
| SessionProps.ExistingSessionGrowsByOneTurn | app.py:54-114 | with a chain that appends one turn, a typed question in the selected saved session (also the tracked one when the selector is created anew) rewrites its file as the old transcript, then the question, then a reply |
| SessionProps.CycleKeepsStoreClean | app.py:41-114 | a cycle never creates a sentinel-named file or an empty transcript, and only adds keys |
| SessionProps.RunKeepsStoreClean | app.py:41-114 | over any run of cycles the store only gains keys, never has a sentinel-named file and never an empty transcript |
| SessionProps.CycleKeepsTrackerStored | app.py:34-59 | every cycle, completed or aborted, keeps the tracker on the sentinel or a stored file and a pending minted key on a stored file |
| SessionProps.StoredTrackerIsListed | app.py:46-67 | when the listing names exactly the stored files, a cycle from such a state never fails its `.index` lookup; it can only fail on a missing session file |
| SessionProps.RunFindsTracker | app.py:41-114 | over any run whose listings name the stored files, the tracker stays on a stored file and no cycle fails its `.index` lookup |
| SessionProps.NewSessionScenario | app.py:41-114 | first render shows the sentinel; "hello" with Enter saves exactly the two-message transcript under `<ts>.json`; the next render selects it |
| App.ChatApp.constructor | app.py:48 | a new connection's state is `Fresh` of the persisted directory |
| App.ChatApp.ClearInputField | app.py:22-25 | the new state is `ClearInputField` of the old |
| App.ChatApp.SetSendInput | app.py:27-29 | the new state is `SetSendInput` of the old |
| App.ChatApp.TogglePdfChat | app.py:31-32 | the new state is `TogglePdfChat` of the old |
| App.ChatApp.SaveChatHistory | app.py:34-40 | the new state is `SaveChatHistory` of the old, with the given timestamp |
| App.ChatApp.StoreWidgetValues | app.py:60-71 | new values of the selector, the PDF toggle and the text field are stored under their keys |
| App.ChatApp.RunCallbacks | app.py:71-78 | the text field's, the Send button's and the PDF uploader's callbacks run in that order |
| App.ChatApp.ApplyEvents | app.py:60-78 | the widget phase, as `ApplyEvents` |
| App.ChatApp.Initialise | app.py:48-53 | the new state is `Initialise` of the old |
| App.ChatApp.Reconcile | app.py:54-56 | the new state is `Reconcile` of the old |
| App.ChatApp.SelectSession | app.py:59-60 | state and outcome are `SelectSession` of the old state: abort when the tracker is not an option |
| App.ChatApp.LoadHistory | app.py:64-67 | state and outcome are `LoadPhase` of the old state |
| App.ChatApp.Audio | app.py:84-88 | the new state is `Audio` of the old |
| App.ChatApp.SendBlock | app.py:90-103 | the new state is `SendBlock` of the old |
| App.ChatApp.Cycle | app.py:41-114 | state and outcome are `CycleSpec` of the old state: the phases in source order |

## Left out

- `html_templates.py`: static CSS and HTML templates that read avatar files, with nothing but rendering in them.
- Rendering (title, CSS, sidebar title, spinner, container, the most-recent-first display loop at lines 105-112) and the `print` calls: output only.
- The configuration file and the `chat_history_path` prefix: store keys are file names within that directory.
- JSON encoding and decoding of transcripts, and I/O failures while writing: the directory is a map from file name to message sequence.
- PDF ingestion (`add_documents_to_db`, lines 80-82): a foreign call with no effect on the state record.
- The chain, image answerer and transcriber internals, including the chain's own append to the history: they are function parameters.
- Exceptions raised by collaborators: the functions given for them are total.
- Streamlit's rules for when a selector keeps its value and when it is created anew: the `selectboxReset` input decides.
- Concurrency between connections: none exists in the script.
- MintedSessionSelectedNextCycle, MintedSessionPrepared, MintedSessionTakesNextTurn: they assume the selector is created anew (`selectboxReset`) in the cycle after a first save. The model does not derive this from the selector's options gaining the minted file, because that rule belongs to Streamlit. When the selector keeps the sentinel instead, the next turn mints a second file.
- Files added to or removed from the session directory by anything but this script: the listing is an input of each cycle, and the lemmas that rely on it require it to name exactly the stored files, each once (`ListsStore`).
