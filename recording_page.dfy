/**
 * The recording page (src/pages/recording.js) as objects whose fields the handlers
 * update in place: the page with its state hooks and the `mediaRecorder` it holds,
 * and the recorder of one take with the `audioChunks` array its callbacks fill.
 * Each handler is proved to leave the page in the state the matching function of
 * RecordingSpec computes from the state before.
 */
module RecordingPage {
  import opened Wrappers
  import opened RecordingSpec

  /** The microphone stream `getUserMedia` opens; it stays live until its tracks are stopped. */
  class Stream {
    var live: bool

    constructor ()
      ensures live
    {
      live := true;
    }

    /** `stream.getTracks().forEach((track) => track.stop())`. */
    method StopTracks()
      modifies this
      ensures !live
    {
      live := false;
    }
  }

  /**
   * One `MediaRecorder` on its stream, together with the take's `audioChunks` array
   * that its `ondataavailable` pushes to and its `onstop` reads.
   */
  class Recorder {
    const stream: Stream
    var chunks: seq<Chunk>
    var capturing: bool

    /** `new MediaRecorder(stream)`, with an empty chunk list. */
    constructor (stream: Stream)
      ensures this.stream == stream && chunks == [] && !capturing
    {
      this.stream := stream;
      chunks := [];
      capturing := false;
    }

    /** `recorder.start()`. */
    method Start()
      modifies this
      ensures capturing && chunks == old(chunks)
    {
      capturing := true;
    }

    /** `ondataavailable`: `audioChunks.push(event.data)`. */
    method DataAvailable(c: Chunk)
      modifies this
      ensures chunks == old(chunks) + [c] && capturing == old(capturing)
    {
      chunks := chunks + [c];
    }

    /** `mediaRecorder.stop()`. */
    method Stop()
      modifies this
      ensures !capturing && chunks == old(chunks)
    {
      capturing := false;
    }
  }

  class Page {
    var uuid: string
    var pin: string
    var recording: bool
    var audioBlob: Option<seq<Chunk>>
    var error: string
    var loading: bool
    var surpriseLoading: bool
    var apiResponse: Json
    var systemMessage: string
    var mediaRecorder: Recorder?

    /** The nine state hooks as one value. */
    function State(): (v: View)
      reads this
    {
      RecordingSpec.View(uuid, pin, recording, audioBlob, error, loading, surpriseLoading, apiResponse, systemMessage)
    }

    /** While recording, the installed recorder is capturing. */
    ghost predicate Valid()
      reads this, mediaRecorder
    {
      recording ==> mediaRecorder != null && mediaRecorder.capturing
    }

    constructor ()
      ensures State() == Initial() && mediaRecorder == null && Valid()
    {
      uuid, pin := "", "";
      recording := false;
      audioBlob := None;
      error := "";
      loading, surpriseLoading := false, false;
      apiResponse := JNull;
      systemMessage := ReadyMessage;
      mediaRecorder := null;
    }

    /** The effect that copies `uuid` and `pin` out of the router's query. */
    method LoadQuery(query: map<string, string>)
      modifies this
      ensures State() == QueryLoaded(old(State()), query)
      ensures mediaRecorder == old(mediaRecorder)
      ensures old(Valid()) ==> Valid()
    {
      if Truthy(query, "uuid") && Truthy(query, "pin") {
        uuid := query["uuid"];
        pin := query["pin"];
      }
    }

    /**
     * `toggleRecording`. When recording, the installed recorder (if any) is stopped and
     * its stream's tracks are stopped, and the page is marked stopped; the blob is left
     * for the recorder's `onstop`. Otherwise a start is attempted and `stream` is the
     * microphone stream it opened, if any: on `Refused` none opens; on `RecorderThrew`
     * one opens but no recorder is installed, so nothing on the page can release it; on
     * `StartThrew` a fresh recorder on it is installed but not capturing; on `Granted` it
     * is installed and capturing. A start never touches a previous recorder.
     */
    method ToggleRecording(mic: MicResult) returns (stream: Stream?)
      modifies this, mediaRecorder, if mediaRecorder == null then {} else {mediaRecorder.stream}
      ensures old(recording) ==> State() == Stopped(old(State())) && mediaRecorder == old(mediaRecorder) && stream == null
      ensures old(recording) && mediaRecorder != null ==>
        !mediaRecorder.capturing && !mediaRecorder.stream.live && mediaRecorder.chunks == old(mediaRecorder.chunks)
      ensures old(Valid()) && old(recording) ==>
        mediaRecorder != null && !mediaRecorder.capturing && !mediaRecorder.stream.live
      ensures !old(recording) ==> State() == StartAttempted(old(State()), mic)
      ensures !old(recording) && old(mediaRecorder) != null ==>
        unchanged(old(mediaRecorder), old(mediaRecorder).stream)
      ensures !old(recording) && mic == Refused ==> stream == null && mediaRecorder == old(mediaRecorder)
      ensures !old(recording) && mic == RecorderThrew ==>
        stream != null && fresh(stream) && stream.live && mediaRecorder == old(mediaRecorder)
      ensures !old(recording) && (mic == StartThrew || mic == Granted) ==>
        fresh(mediaRecorder) && fresh(stream) && mediaRecorder.stream == stream && stream.live
        && mediaRecorder.chunks == [] && mediaRecorder.capturing == (mic == Granted)
      ensures old(Valid()) ==> Valid()
    {
      stream := null;
      if recording {
        if mediaRecorder != null {
          mediaRecorder.Stop();
          mediaRecorder.stream.StopTracks();
        }
        recording := false;
        systemMessage := StoppedMessage;
      } else if mic == Refused {
        error := MicrophoneDenied;
      } else {
        stream := new Stream();
        if mic == RecorderThrew {
          error := MicrophoneDenied;
        } else {
          var recorder := new Recorder(stream);
          mediaRecorder := recorder;
          if mic == StartThrew {
            error := MicrophoneDenied;
          } else {
            recorder.Start();
            recording := true;
            systemMessage := RecordingMessage;
          }
        }
      }
    }

    /**
     * The `onstop` callback of recorder `r`: the chunks that `r` collected become the
     * blob. It reads the recorder it was attached to, not whichever one is installed now.
     */
    method OnStop(r: Recorder)
      modifies this
      ensures State() == Saved(old(State()), r.chunks)
      ensures mediaRecorder == old(mediaRecorder)
      ensures old(Valid()) ==> Valid()
    {
      audioBlob := Some(r.chunks);
      systemMessage := SavedMessage;
    }

    /** The part of `sendAudio` up to the request: the guards, then the pending state. */
    method SendAudioBegin() returns (request: Option<Request>)
      modifies this
      ensures State() == Began(Audio, old(State()))
      ensures request == RequestFor(Audio, old(State()))
      ensures mediaRecorder == old(mediaRecorder)
      ensures old(Valid()) ==> Valid()
    {
      if uuid == "" || pin == "" {
        error := CredentialsRequired;
        return None;
      }
      if audioBlob.None? {
        error := NoAudioRecorded;
        return None;
      }
      loading := true;
      error := "";
      apiResponse := JNull;
      systemMessage := PendingMessage(Audio);
      request := Some(Request(AudioEndpoint, uuid, pin, audioBlob));
    }

    /** The part of `sendAudio` after the request: the outcome's fields, then `loading` is lowered. */
    method SendAudioFinish(o: Outcome)
      modifies this
      ensures State() == Finished(Audio, old(State()), o)
      ensures mediaRecorder == old(mediaRecorder)
      ensures old(Valid()) ==> Valid()
    {
      match o {
        case Ok(data) =>
          apiResponse := data;
          systemMessage := SuccessMessage(Audio);
        case HttpError(m) =>
          error := HttpErrorText(m);
          systemMessage := FailureMessage(Audio);
        case Exception =>
          error := ServerErrorText;
          systemMessage := ServerErrorMessage(Audio);
      }
      loading := false;
    }

    /** The part of `surpriseMe` up to the request: the credential guard, then the pending state. */
    method SurpriseMeBegin() returns (request: Option<Request>)
      modifies this
      ensures State() == Began(Surprise, old(State()))
      ensures request == RequestFor(Surprise, old(State()))
      ensures mediaRecorder == old(mediaRecorder)
      ensures old(Valid()) ==> Valid()
    {
      if uuid == "" || pin == "" {
        error := CredentialsRequired;
        return None;
      }
      surpriseLoading := true;
      error := "";
      apiResponse := JNull;
      systemMessage := PendingMessage(Surprise);
      request := Some(Request(SurpriseEndpoint, uuid, pin, None));
    }

    /** The part of `surpriseMe` after the request: the outcome's fields, then `surpriseLoading` is lowered. */
    method SurpriseMeFinish(o: Outcome)
      modifies this
      ensures State() == Finished(Surprise, old(State()), o)
      ensures mediaRecorder == old(mediaRecorder)
      ensures old(Valid()) ==> Valid()
    {
      match o {
        case Ok(data) =>
          apiResponse := data;
          systemMessage := SuccessMessage(Surprise);
        case HttpError(m) =>
          error := HttpErrorText(m);
          systemMessage := FailureMessage(Surprise);
        case Exception =>
          error := ServerErrorText;
          systemMessage := ServerErrorMessage(Surprise);
      }
      surpriseLoading := false;
    }
  }

  /**
   * A client of the page: a take of two chunks followed by a send that the server
   * answers with `data`. The request carries the chunks in the order the recorder
   * delivered them, the microphone has been released, and the page ends with the
   * response shown and no error.
   */
  method TakeAndSend(c1: Chunk, c2: Chunk, data: Json) returns (request: Option<Request>, page: Page)
    ensures request == Some(Request(AudioEndpoint, "dev-42", "1234", Some([c1, c2])))
    ensures page.apiResponse == data && page.error == "" && !page.loading && !page.recording
    ensures page.mediaRecorder != null && !page.mediaRecorder.stream.live
  {
    page := new Page();
    var query := map["uuid" := "dev-42", "pin" := "1234"];
    assert Truthy(query, "uuid") && Truthy(query, "pin");
    page.LoadQuery(query);
    var microphone := page.ToggleRecording(Granted);
    var r := page.mediaRecorder;
    assert page.recording && r.chunks == [];
    r.DataAvailable(c1);
    r.DataAvailable(c2);
    assert page.recording && r.chunks == [c1, c2];
    microphone := page.ToggleRecording(Granted);
    assert r.chunks == [c1, c2];
    page.OnStop(r);
    assert page.audioBlob == Some([c1, c2]);
    request := page.SendAudioBegin();
    page.SendAudioFinish(Ok(data));
  }
}
