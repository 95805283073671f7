/**
 * The camera side of the component: the facing-mode toggle, and the
 * bookkeeping of camera streams that `startCamera` keeps — the stream the
 * component references, and the set of streams whose tracks still run.
 * Device access (getUserMedia) is an outcome given as a parameter.
 */
module Camera {
  import opened Wrappers

  /** The facing mode the component starts with (front camera). */
  const User: string := "user"
  /** The other facing mode (back camera). */
  const Environment: string := "environment"

  /** The updater passed to setFacingMode: "user" flips to "environment", anything else to "user". */
  function ToggleFacing(prev: string): (next: string)
    ensures next == User || next == Environment
    ensures next == Environment <==> prev == User
  {
    if prev == User then Environment else User
  }

  /** Toggling twice restores the facing mode exactly when it was one of the two modes. */
  lemma ToggleTwice(m: string)
    ensures ToggleFacing(ToggleFacing(m)) == m <==> m == User || m == Environment
  {
    assert User != Environment;
  }

  /** The facing modes are the two fixed points of toggling twice, so the toggle flips between them. */
  lemma ToggleFlips(m: string)
    requires m == User || m == Environment
    ensures ToggleFacing(m) != m
    ensures ToggleFacing(ToggleFacing(m)) == m
  {
    ToggleTwice(m);
  }

  /** A camera stream; each acquisition yields a new one. */
  type StreamId = nat

  /** What getUserMedia delivered: a new stream, or an error (permission denied, no device). */
  datatype Acquisition = Granted | Denied

  /**
   * The stream state: `current` is streamRef.current, `live` the streams
   * whose tracks have not been stopped, `next` the identity the next
   * acquired stream gets.
   */
  datatype Streams = Streams(current: Option<StreamId>, live: set<StreamId>, next: StreamId)

  /** No stream referenced and none running, as when the component mounts. */
  const NoStreams: Streams := Streams(None, {}, 0)

  /** The set holding the referenced stream, if any. */
  function Referenced(s: Streams): (r: set<StreamId>)
    ensures s.current.None? <==> r == {}
    ensures forall id :: id in r <==> s.current == Some(id)
  {
    if s.current.Some? then {s.current.value} else {}
  }

  /**
   * No leaked device handle: every running stream is the referenced one
   * (so at most one runs), and every stream seen so far was numbered
   * below `next`.
   */
  ghost predicate Valid(s: Streams) {
    && s.live <= Referenced(s)
    && (forall id :: id in s.live ==> id < s.next)
    && (s.current.Some? ==> s.current.value < s.next)
  }

  /** At most one running stream. */
  lemma ValidAtMostOneLive(s: Streams)
    requires Valid(s)
    ensures |s.live| <= 1
  {
    if s.current.Some? {
      assert |Referenced(s)| == 1;
    }
    SubsetCardinality(s.live, Referenced(s));
  }

  lemma {:induction false} SubsetCardinality(a: set<StreamId>, b: set<StreamId>)
    requires a <= b
    ensures |a| <= |b|
  {
    if a != {} {
      var x :| x in a;
      SubsetCardinality(a - {x}, b - {x});
    }
  }

  /** The synchronous part of startCamera: stop every track of the referenced stream, if any. */
  function StopPrevious(s: Streams): (r: Streams)
    ensures r.current == s.current && r.next == s.next
    ensures r.live <= s.live
    ensures s.current.Some? ==> s.current.value !in r.live
    ensures forall id :: id in s.live && Some(id) != s.current ==> id in r.live
  {
    s.(live := s.live - Referenced(s))
  }

  /**
   * The part of startCamera after getUserMedia resolves, as the component
   * writes it: a granted stream is stored in streamRef; on an error the
   * state is left as it is (the previous stream stays referenced, but stopped).
   */
  function Install(s: Streams, a: Acquisition): (r: Streams)
    ensures a == Denied ==> r == s
    ensures a == Granted ==> r.current == Some(s.next) && r.live == s.live + {s.next} && r.next == s.next + 1
  {
    match a
    case Denied => s
    case Granted => Streams(Some(s.next), s.live + {s.next}, s.next + 1)
  }

  /** One complete, non-overlapping call of startCamera. */
  function StartCamera(s: Streams, a: Acquisition): (r: Streams)
    requires Valid(s)
    ensures Valid(r)
    ensures a == Granted ==> r.current == Some(s.next) && r.live == {s.next} && s.current != r.current
    ensures a == Denied ==> r.live == {} && r.current == s.current
  {
    Install(StopPrevious(s), a)
  }

  /** The state after a sequence of non-overlapping startCamera calls. */
  function StartAll(s: Streams, acqs: seq<Acquisition>): Streams
    requires Valid(s)
    decreases acqs
  {
    if acqs == [] then s else StartAll(StartCamera(s, acqs[0]), acqs[1..])
  }

  /**
   * After any sequence of startCamera calls at most one stream runs, it is
   * the referenced one, and it is running exactly when the last
   * acquisition succeeded.
   */
  lemma {:induction false} StartAllKeepsOneStream(s: Streams, acqs: seq<Acquisition>)
    requires Valid(s)
    ensures Valid(StartAll(s, acqs))
    ensures |StartAll(s, acqs).live| <= 1
    ensures acqs != [] ==> (StartAll(s, acqs).live != {} <==> acqs[|acqs| - 1] == Granted)
    decreases acqs
  {
    if acqs == [] {
      ValidAtMostOneLive(s);
    } else {
      var s' := StartCamera(s, acqs[0]);
      StartAllKeepsOneStream(s', acqs[1..]);
      if |acqs| > 1 {
        assert acqs[1..][|acqs[1..]| - 1] == acqs[|acqs| - 1];
      }
    }
  }

  /**
   * startCamera is asynchronous: it stops the old stream, awaits
   * getUserMedia, then installs the result. Two calls can overlap, so the
   * component's behaviour is a sequence of these two events, interleaved.
   */
  datatype Event = Begin | Finish(a: Acquisition)

  /** One event, as the component handles it. */
  function StepAsWritten(s: Streams, e: Event): Streams {
    match e
    case Begin => StopPrevious(s)
    case Finish(a) => Install(s, a)
  }

  function RunAsWritten(s: Streams, es: seq<Event>): Streams
    decreases es
  {
    if es == [] then s else RunAsWritten(StepAsWritten(s, es[0]), es[1..])
  }

  /**
   * Two overlapping calls (the camera flipped twice before the first
   * getUserMedia resolves) leave two streams running, one of them no
   * longer referenced and never stopped.
   */
  lemma OverlappingStartsLeak()
    ensures var s := RunAsWritten(NoStreams, [Begin, Begin, Finish(Granted), Finish(Granted)]);
      s.live == {0, 1} && s.current == Some(1) && !Valid(s)
  {
    var es := [Begin, Begin, Finish(Granted), Finish(Granted)];
    var s1 := StopPrevious(NoStreams);
    var s2 := StopPrevious(s1);
    var s3 := Install(s2, Granted);
    var s4 := Install(s3, Granted);
    assert s2 == NoStreams;
    assert s4 == Streams(Some(1), {0, 1}, 2);
    assert RunAsWritten(s4, es[4..]) == s4;
    assert RunAsWritten(s3, es[3..]) == s4;
    assert RunAsWritten(s2, es[2..]) == s4;
    assert RunAsWritten(s1, es[1..]) == s4;
    var s := RunAsWritten(NoStreams, es);
    assert 0 !in Referenced(s);
  }

  /**
   * The intended completion: when getUserMedia delivers a stream, whatever
   * stream is referenced by then is stopped before the new one is stored;
   * an error still leaves the state as it is.
   */
  function FinishGuarded(s: Streams, a: Acquisition): (r: Streams)
    requires Valid(s)
    ensures Valid(r)
    ensures a == Denied ==> r == s
    ensures a == Granted ==> r.current == Some(s.next) && r.live == {s.next}
  {
    match a
    case Denied => s
    case Granted => Install(StopPrevious(s), a)
  }

  /** One event with the guarded completion. */
  function Step(s: Streams, e: Event): (r: Streams)
    requires Valid(s)
    ensures Valid(r)
  {
    match e
    case Begin => StopPrevious(s)
    case Finish(a) => FinishGuarded(s, a)
  }

  function Run(s: Streams, es: seq<Event>): Streams
    requires Valid(s)
    decreases es
  {
    if es == [] then s else Run(Step(s, es[0]), es[1..])
  }

  /** With the guarded completion every interleaving keeps at most one stream running. */
  lemma {:induction false} RunKeepsOneStream(s: Streams, es: seq<Event>)
    requires Valid(s)
    ensures Valid(Run(s, es))
    ensures |Run(s, es).live| <= 1
    decreases es
  {
    if es == [] {
      ValidAtMostOneLive(s);
    } else {
      RunKeepsOneStream(Step(s, es[0]), es[1..]);
    }
  }

  /** Without overlap the guarded completion behaves exactly like the component's. */
  lemma {:induction false} GuardedAgreesWhenSequential(s: Streams, acqs: seq<Acquisition>)
    requires Valid(s)
    ensures Run(s, Sequential(acqs)) == StartAll(s, acqs)
    decreases acqs
  {
    if acqs != [] {
      var s1 := StopPrevious(s);
      assert Sequential(acqs) == [Begin, Finish(acqs[0])] + Sequential(acqs[1..]);
      assert Step(s1, Finish(acqs[0])) == StartCamera(s, acqs[0]);
      GuardedAgreesWhenSequential(StartCamera(s, acqs[0]), acqs[1..]);
    }
  }

  /** The events of non-overlapping calls: each Begin is followed by its own Finish. */
  function Sequential(acqs: seq<Acquisition>): (es: seq<Event>)
    ensures |es| == 2 * |acqs|
  {
    if acqs == [] then [] else [Begin, Finish(acqs[0])] + Sequential(acqs[1..])
  }
}
