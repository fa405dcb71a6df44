/**
 * The recording page's state (src/pages/recording.js) as a value, and each handler's
 * effect on it as a function of the state before and of what the browser or the
 * server delivered. The class in module RecordingPage is proved to follow these
 * functions; the lemmas below say what the handlers promise.
 */
module RecordingSpec {
  import opened Wrappers

  newtype byte = x: int | 0 <= x < 256

  /** One `event.data` delivered by the recorder's `ondataavailable`. */
  type Chunk = seq<byte>

  /** A parsed response body (`await response.json()`); numbers are kept to integers. */
  datatype Json =
    | JNull
    | JBool(b: bool)
    | JNumber(n: int)
    | JString(s: string)
    | JArray(items: seq<Json>)
    | JObject(members: seq<(string, Json)>)

  /**
   * What the awaited part of a send ends in: a 2xx status with a parsed body; a non-2xx
   * status whose body's `message` is given (`None` when it is absent); or a thrown
   * exception (the request failed, the body was not JSON, the data URL could not be read).
   */
  datatype Outcome = Ok(data: Json) | HttpError(message: Option<string>) | Exception

  /** The two commands: "Send Audio" (`sendAudio`) and "Surprise Me" (`surpriseMe`). */
  datatype Kind = Audio | Surprise

  /**
   * How a start attempt goes: `getUserMedia` is refused and no stream opens (`Refused`);
   * the stream opens but `new MediaRecorder` throws (`RecorderThrew`); the recorder is
   * built and installed but its `start()` throws (`StartThrew`); or recording begins
   * (`Granted`).
   */
  datatype MicResult = Granted | Refused | RecorderThrew | StartThrew

  /** The POST a send issues: the endpoint, the credentials and, for audio, the blob to encode. */
  datatype Request = Request(endpoint: string, uuid: string, pin: string, audio: Option<seq<Chunk>>)

  /** The nine state hooks of `RecordingPage`; `audioBlob` is the recorder chunks that make up the Blob. */
  datatype View = View(
    uuid: string,
    pin: string,
    recording: bool,
    audioBlob: Option<seq<Chunk>>,
    error: string,
    loading: bool,
    surpriseLoading: bool,
    apiResponse: Json,
    systemMessage: string)

  const ReadyMessage: string := "Ready to record! 🎙️"
  const StoppedMessage: string := "Recording stopped. 🎤 Ready to send?"
  const SavedMessage: string := "Recording saved! 📁 You can send it now."
  const RecordingMessage: string := "Recording... 🎙️ Press stop when done."
  const MicrophoneDenied: string := "❌ Microphone access denied."
  const CredentialsRequired: string := "❌ UUID and PIN are required."
  const NoAudioRecorded: string := "❌ No audio recorded!"
  const HttpErrorPrefix: string := "❌ Error: "
  const HttpErrorFallback: string := "Invalid UUID or PIN."
  const ServerErrorText: string := "❌ Server error. Please try again."

  const AudioEndpoint: string := "https://flzer6zwt3.execute-api.us-east-1.amazonaws.com/dev/audio_to_ai/create"
  const SurpriseEndpoint: string := "https://flzer6zwt3.execute-api.us-east-1.amazonaws.com/dev/pattern_to_ai/create"

  /** The system message set when a send passes its guards. */
  function PendingMessage(kind: Kind): (m: string) {
    match kind
    case Audio => "Uploading audio... ⏳"
    case Surprise => "🔮 Generating surprise effect..."
  }

  function SuccessMessage(kind: Kind): (m: string) {
    match kind
    case Audio => "✅ Audio sent successfully! AI is processing..."
    case Surprise => "🎉 Surprise effect applied!"
  }

  function FailureMessage(kind: Kind): (m: string) {
    match kind
    case Audio => "❌ Audio failed to send."
    case Surprise => "❌ Surprise effect failed."
  }

  function ServerErrorMessage(kind: Kind): (m: string) {
    match kind
    case Audio => "❌ Server error. Unable to process."
    case Surprise => "❌ Server error. Unable to generate surprise."
  }

  function Endpoint(kind: Kind): (url: string) {
    match kind
    case Audio => AudioEndpoint
    case Surprise => SurpriseEndpoint
  }

  /** The state the hooks start in. */
  function Initial(): (v: View) {
    View("", "", false, None, "", false, false, JNull, ReadyMessage)
  }

  /** A query parameter is truthy when it is present and not the empty string. */
  predicate Truthy(query: map<string, string>, key: string) {
    key in query && query[key] != ""
  }

  /** The query-parameter effect: both credentials are copied only when both are truthy. */
  function QueryLoaded(v: View, query: map<string, string>): (w: View) {
    if Truthy(query, "uuid") && Truthy(query, "pin") then
      v.(uuid := query["uuid"], pin := query["pin"])
    else v
  }

  /** The stop branch of `toggleRecording`. */
  function Stopped(v: View): (w: View) {
    v.(recording := false, systemMessage := StoppedMessage)
  }

  /** The start branch of `toggleRecording`. */
  function StartAttempted(v: View, mic: MicResult): (w: View) {
    match mic
    case Granted => v.(recording := true, systemMessage := RecordingMessage)
    case Refused => v.(error := MicrophoneDenied)
    case RecorderThrew => v.(error := MicrophoneDenied)
    case StartThrew => v.(error := MicrophoneDenied)
  }

  /** The recorder's `onstop`: the take's chunks, in the order they were pushed, become the blob. */
  function Saved(v: View, chunks: seq<Chunk>): (w: View) {
    v.(audioBlob := Some(chunks), systemMessage := SavedMessage)
  }

  /**
   * The guards of `sendAudio`, in source order: missing credentials first, then a
   * missing blob. `None` means the send goes ahead.
   */
  function AudioGuard(v: View): (e: Option<string>)
    ensures e == Some(CredentialsRequired) <==> v.uuid == "" || v.pin == ""
    ensures e == Some(NoAudioRecorded) <==> v.uuid != "" && v.pin != "" && v.audioBlob.None?
    ensures e.None? <==> v.uuid != "" && v.pin != "" && v.audioBlob.Some?
  {
    if v.uuid == "" || v.pin == "" then Some(CredentialsRequired)
    else if v.audioBlob.None? then Some(NoAudioRecorded)
    else None
  }

  /** The only guard of `surpriseMe`: the credentials; there is no blob precondition. */
  function SurpriseGuard(v: View): (e: Option<string>)
    ensures e.None? <==> v.uuid != "" && v.pin != ""
    ensures e.Some? ==> e.value == CredentialsRequired
  {
    if v.uuid == "" || v.pin == "" then Some(CredentialsRequired) else None
  }

  function Guard(kind: Kind, v: View): (e: Option<string>) {
    match kind
    case Audio => AudioGuard(v)
    case Surprise => SurpriseGuard(v)
  }

  /** Sets the loading flag that belongs to `kind`. */
  function WithLoading(v: View, kind: Kind, on: bool): (w: View) {
    match kind
    case Audio => v.(loading := on)
    case Surprise => v.(surpriseLoading := on)
  }

  /**
   * The synchronous part of a send: a failed guard sets only the error; otherwise the
   * kind's loading flag is raised, the error and the previous response are cleared and
   * the pending message is shown.
   */
  function Began(kind: Kind, v: View): (w: View) {
    match Guard(kind, v)
    case Some(e) => v.(error := e)
    case None =>
      WithLoading(v, kind, true).(error := "", apiResponse := JNull, systemMessage := PendingMessage(kind))
  }

  /** The request a send issues, if its guards let it through. */
  function RequestFor(kind: Kind, v: View): (r: Option<Request>) {
    if Guard(kind, v).Some? then None
    else
      Some(Request(Endpoint(kind), v.uuid, v.pin, if kind == Audio then v.audioBlob else None))
  }

  /** `` `❌ Error: ${data.message || "Invalid UUID or PIN."}` ``: an empty message is falsy and falls back. */
  function HttpErrorText(message: Option<string>): (text: string) {
    match message
    case Some(m) => if m != "" then HttpErrorPrefix + m else HttpErrorPrefix + HttpErrorFallback
    case None => HttpErrorPrefix + HttpErrorFallback
  }

  /** The part of a send after the awaited request: the outcome's fields, then the loading flag is lowered. */
  function Finished(kind: Kind, v: View, o: Outcome): (w: View) {
    var written := match o
      case Ok(data) => v.(apiResponse := data, systemMessage := SuccessMessage(kind))
      case HttpError(m) => v.(error := HttpErrorText(m), systemMessage := FailureMessage(kind))
      case Exception => v.(error := ServerErrorText, systemMessage := ServerErrorMessage(kind));
    WithLoading(written, kind, false)
  }

  /** The identifier and the PIN are either both unset or both set. */
  predicate CredentialsPaired(v: View) {
    (v.uuid == "") == (v.pin == "")
  }

  // ---------------------------------------------------------------------------
  // Properties of the handlers.

  /**
   * Starting from the initial state, the credentials are set from the query exactly
   * when both parameters are truthy; otherwise both stay empty.
   */
  lemma QueryLoadedFromInitial(query: map<string, string>)
    ensures var w := QueryLoaded(Initial(), query);
      (Truthy(query, "uuid") && Truthy(query, "pin") ==> w.uuid == query["uuid"] && w.pin == query["pin"])
      && (!(Truthy(query, "uuid") && Truthy(query, "pin")) ==> w.uuid == "" && w.pin == "")
      && (w.uuid != "" <==> Truthy(query, "uuid") && Truthy(query, "pin"))
      && w.(uuid := "", pin := "") == Initial()
  {
  }

  /** Stopping writes only `recording` and the system message; in particular the blob is kept. */
  lemma StopWritesOnlyRecordingAndMessage(v: View)
    ensures var w := Stopped(v);
      !w.recording && w.systemMessage == StoppedMessage
      && w.(recording := v.recording, systemMessage := v.systemMessage) == v
  {
  }

  /**
   * A refused start writes only the error and leaves recording off; a granted start
   * turns recording on and shows the recording message, keeping the error and the blob.
   */
  lemma StartOutcomes(v: View, mic: MicResult)
    ensures var w := StartAttempted(v, mic);
      (mic != Granted ==> w == v.(error := MicrophoneDenied) && w.recording == v.recording)
      && (mic == Granted ==>
            w == v.(recording := true, systemMessage := RecordingMessage) && w.error == v.error && w.audioBlob == v.audioBlob)
  {
  }

  /** A failed guard changes only the error and issues no request; the loading flags are untouched. */
  lemma GuardFailureOnlySetsError(kind: Kind, v: View)
    requires Guard(kind, v).Some?
    ensures Began(kind, v) == v.(error := Guard(kind, v).value)
    ensures RequestFor(kind, v) == None
    ensures Began(kind, v).loading == v.loading && Began(kind, v).surpriseLoading == v.surpriseLoading
  {
  }

  /** Missing credentials win over a missing blob. */
  lemma AudioGuardOrder(v: View)
    requires v.uuid == "" || v.pin == ""
    ensures AudioGuard(v) == Some(CredentialsRequired)
    ensures AudioGuard(v.(audioBlob := None)) == Some(CredentialsRequired)
  {
  }

  /** `surpriseMe` does not look at the blob: it passes with or without one. */
  lemma SurpriseIgnoresBlob(v: View, blob: Option<seq<Chunk>>)
    ensures SurpriseGuard(v) == SurpriseGuard(v.(audioBlob := blob))
    ensures RequestFor(Surprise, v).Some? <==> v.uuid != "" && v.pin != ""
  {
  }

  /**
   * What the server's error turns into: the prefix, then the message when it is a
   * non-empty string, else the fallback; distinct non-empty messages stay distinct.
   */
  lemma HttpErrorTextLayout(message: Option<string>)
    ensures var t := HttpErrorText(message);
      t[..|HttpErrorPrefix|] == HttpErrorPrefix
      && t[|HttpErrorPrefix|..] == (if message.Some? && message.value != "" then message.value else HttpErrorFallback)
  {
  }

  lemma HttpErrorTextInjective(m1: string, m2: string)
    requires m1 != "" && m2 != ""
    requires HttpErrorText(Some(m1)) == HttpErrorText(Some(m2))
    ensures m1 == m2
  {
    HttpErrorTextLayout(Some(m1));
    HttpErrorTextLayout(Some(m2));
  }

  /**
   * A send that passes its guards and then ends in outcome `o`: its own loading flag is
   * raised while the request is out and lowered afterwards, the other kind's flag is
   * never touched, the response is the outcome's data on success and stays null
   * otherwise, and the error is empty exactly on success (the server error or the
   * fallback text otherwise). Recording state, the blob and the credentials survive.
   */
  lemma SendRound(kind: Kind, v: View, o: Outcome)
    requires Guard(kind, v).None?
    ensures var p := Began(kind, v);
      var w := Finished(kind, p, o);
      (kind == Audio ==> p.loading && !w.loading && w.surpriseLoading == v.surpriseLoading)
      && (kind == Surprise ==> p.surpriseLoading && !w.surpriseLoading && w.loading == v.loading)
      && p.error == "" && p.apiResponse == JNull
      && w.apiResponse == (if o.Ok? then o.data else JNull)
      && (w.error == "" <==> o.Ok?)
      && (o.HttpError? ==> w.error == HttpErrorText(o.message))
      && (o.Exception? ==> w.error == ServerErrorText)
      && w.uuid == v.uuid && w.pin == v.pin && w.recording == v.recording && w.audioBlob == v.audioBlob
  {
  }

  /** No recording handler ever separates the identifier from the PIN. */
  lemma RecordingHandlersKeepCredentialsPaired(v: View, query: map<string, string>, mic: MicResult, chunks: seq<Chunk>)
    requires CredentialsPaired(v)
    ensures CredentialsPaired(Initial()) && CredentialsPaired(QueryLoaded(v, query))
    ensures CredentialsPaired(Stopped(v)) && CredentialsPaired(StartAttempted(v, mic)) && CredentialsPaired(Saved(v, chunks))
  {
  }

  /** Nor does either send, at its start or at its end. */
  lemma SendHandlersKeepCredentialsPaired(v: View, kind: Kind, o: Outcome)
    requires CredentialsPaired(v)
    ensures CredentialsPaired(Began(kind, v)) && CredentialsPaired(Finished(kind, v, o))
  {
  }

  /**
   * A whole take: with credentials from the query, a granted start, a stop and the
   * recorder's `onstop` with the chunks it collected, the audio request carries exactly
   * those chunks. A take with no chunk at all still yields a (empty) blob, which is an
   * object and so passes the "No audio recorded" guard.
   */
  lemma TakeThenSend(query: map<string, string>, chunks: seq<Chunk>)
    requires Truthy(query, "uuid") && Truthy(query, "pin")
    ensures var v := Saved(Stopped(StartAttempted(QueryLoaded(Initial(), query), Granted)), chunks);
      AudioGuard(v).None?
      && RequestFor(Audio, v) == Some(Request(AudioEndpoint, query["uuid"], query["pin"], Some(chunks)))
  {
  }
}
