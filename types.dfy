/** Values shared by the session-lifecycle model of the chat UI: messages,
    the per-connection UI state record, the inputs one render cycle receives,
    and the collaborators whose behaviour lies outside the UI script. */
module SessionTypes {

  /** The selector entry that stands for a conversation not yet saved. */
  const SENTINEL: string := "new_session"

  /** Suffix appended to a timestamp to mint a session file name. */
  const JSON_SUFFIX: string := ".json"

  datatype Option<T> = None | Some(value: T)

  datatype Role = Human | Ai

  datatype Message = Message(role: Role, content: string)

  type Bytes = seq<bv8>

  /** Which chain serves a question: the plain chat chain or the PDF retrieval chain. */
  datatype ChainMode = Normal | PdfChat

  /** Why a render cycle stopped early. */
  datatype Error =
    | SessionNotListed(key: string)   // `chat_sessions.index(...)` raised
    | HistoryNotFound(key: string)    // loading the selected session's file failed

  datatype Result<T> = Ok(value: T) | Err(error: Error)

  datatype Outcome = Completed | Aborted(error: Error)

  /** The fields of `st.session_state` the script reads and writes, plus the
      session directory, modelled as a map from file name to transcript.
      `initialised` stands for `"send_input" in st.session_state`. */
  datatype UIState = UIState(
    initialised: bool,
    sessionKey: string,
    newSessionKey: Option<string>,
    sessionIndexTracker: string,
    userInput: string,
    userQuestion: string,
    sendInput: bool,
    pdfChat: bool,
    history: seq<Message>,
    store: map<string, seq<Message>>)

  /** Widget events of the previous render, delivered before the script runs:
      `typed` is a value of the text field that fires its on_change (Streamlit
      delivers one only when the value changed),
      `sendClicked` the Send button, `pdfUploadChanged` a change of the PDF
      uploader (its on_change fires), `toggle` a new value of the PDF Chat
      toggle, `pick` a new choice in the session selector. */
  datatype Events = Events(
    typed: Option<string>,
    sendClicked: bool,
    pdfUploadChanged: bool,
    toggle: Option<bool>,
    pick: Option<string>)

  /** What one render cycle reads from its surroundings: the directory
      listing in the order the file system gives it, whether the session
      selector is created anew this render (so that it takes its `index`
      argument as its value), the uploads present, and the timestamp
      `get_timestamp` would return. */
  datatype Env = Env(
    listing: seq<string>,
    selectboxReset: bool,
    audio: Option<Bytes>,
    image: Option<Bytes>,
    timestamp: string)

  /** The collaborator modules, as total functions: running a chain on the
      message history with a question yields the new history (the append
      happens inside the chain's memory); the image answerer and the
      transcriber yield text. */
  datatype Collaborators = Collaborators(
    chain: (ChainMode, seq<Message>, string) -> seq<Message>,
    answerImage: (Bytes, string) -> string,
    transcribe: Bytes -> string)

  /** One render cycle's inputs, for reasoning about several cycles in a row. */
  datatype Step = Step(events: Events, env: Env)

  const NO_EVENTS: Events := Events(None, false, false, None, None)
}
