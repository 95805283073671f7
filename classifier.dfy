/**
 * The classifier component as an object: the state it keeps between
 * events (the shown result, the facing mode, the loaded model, the
 * camera stream) and the handlers that update it.
 */
module Classifier {
  import opened Wrappers
  import opened TensorEncoder
  import opened Decision
  import Camera

  /** A loaded inference session; the engine behind it is opaque. */
  datatype Session = Session

  /**
   * What one inference request yields once its scores have gone through
   * softmax: the cat and dog probabilities, or a failure of the engine.
   */
  datatype Inference = Failed | Probabilities(pCat: real, pDog: real)

  class CatDogClassifier {
    /** The label on screen; None before the first classification. */
    var result: Option<Label>
    var facingMode: string
    /** sessionRef.current. */
    var session: Option<Session>
    /** streamRef.current. */
    var streamRef: Option<Camera.StreamId>
    /** The streams whose tracks have not been stopped. */
    var liveStreams: set<Camera.StreamId>
    /** The identity the next stream that getUserMedia delivers gets. */
    var nextStream: Camera.StreamId
    /** The stream the video element shows. */
    var videoSource: Option<Camera.StreamId>

    /** The camera bookkeeping as a value. */
    function Streams(): Camera.Streams
      reads this
    {
      Camera.Streams(streamRef, liveStreams, nextStream)
    }

    ghost predicate Valid()
      reads this
    {
      Camera.Valid(Streams())
    }

    /** The component as first rendered. */
    constructor ()
      ensures Valid()
      ensures result == None && facingMode == Camera.User && session == None
      ensures Streams() == Camera.NoStreams && videoSource == None
    {
      result := None;
      facingMode := Camera.User;
      session := None;
      streamRef, liveStreams, nextStream := None, {}, 0;
      videoSource := None;
    }

    /**
     * The effect run once on mount: `created` is what creating a session
     * from the model file gave. A failure is only logged, so no session is stored.
     */
    method LoadModel(created: Option<Session>)
      modifies this`session
      ensures session == if created.Some? then created else old(session)
    {
      if created.Some? {
        session := created;
      }
    }

    /** Flip between the front and the back camera. */
    method ToggleCamera()
      modifies this`facingMode
      ensures facingMode == Camera.ToggleFacing(old(facingMode))
    {
      facingMode := Camera.ToggleFacing(facingMode);
    }

    /** The part of startCamera before it awaits getUserMedia: stop every track of the current stream. */
    method BeginStartCamera()
      requires Valid()
      modifies this`liveStreams
      ensures Valid()
      ensures Streams() == Camera.StopPrevious(old(Streams()))
    {
      if streamRef.Some? {
        liveStreams := liveStreams - {streamRef.value};
      }
    }

    /**
     * The part of startCamera after getUserMedia resolves with `a`: a new
     * stream is stored in streamRef and shown by the video element, after
     * stopping whatever stream is referenced by then; an error leaves
     * everything as it is.
     */
    method FinishStartCamera(a: Camera.Acquisition)
      requires Valid()
      modifies this`streamRef, this`liveStreams, this`nextStream, this`videoSource
      ensures Valid()
      ensures Streams() == Camera.FinishGuarded(old(Streams()), a)
      ensures videoSource == if a == Camera.Granted then streamRef else old(videoSource)
    {
      if a == Camera.Granted {
        BeginStartCamera();
        var stream := nextStream;
        nextStream := nextStream + 1;
        liveStreams := liveStreams + {stream};
        streamRef := Some(stream);
        videoSource := Some(stream);
      }
    }

    /** One startCamera call that no other call overlaps. */
    method StartCamera(a: Camera.Acquisition)
      requires Valid()
      modifies this`streamRef, this`liveStreams, this`nextStream, this`videoSource
      ensures Valid()
      ensures Streams() == Camera.StartCamera(old(Streams()), a)
      ensures |liveStreams| <= 1
      ensures a == Camera.Granted ==> liveStreams == {streamRef.value}
      ensures videoSource == if a == Camera.Granted then streamRef else old(videoSource)
    {
      BeginStartCamera();
      FinishStartCamera(a);
      Camera.ValidAtMostOneLive(Streams());
    }

    /**
     * The "Capture & Predict" handler. `imageData` is the 32x32 frame the
     * canvas captured and `infer` stands for running the session on a
     * tensor followed by softmax. Without a session nothing happens; a
     * failed inference leaves the result as it was.
     */
    method ClassifyImage(imageData: array<byte>, infer: (Session, Tensor) -> Inference)
      requires imageData.Length == ImageLength
      modifies this`result
      ensures session.None? ==> result == old(result)
      ensures session.Some? ==>
        var outcome := infer(session.value, Tensor("float32", Encode(imageData[..]), InputShape));
        result == match outcome
                  case Failed => old(result)
                  case Probabilities(pCat, pDog) => Some(Decide(pCat, pDog))
    {
      if session.None? {
        return;
      }
      var inputTensor := PreprocessImage(imageData);
      var outcome := infer(session.value, inputTensor);
      match outcome
      case Failed =>
      case Probabilities(pCat, pDog) =>
        result := Some(Decide(pCat, pDog));
    }
  }
}
