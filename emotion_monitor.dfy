/** The emotion-monitoring session of backend/agent/emotion_monitor.py.

    The camera and the facial-emotion classifier are replaced by the value a
    capture-loop iteration sees (`Capture`), and the clock by an explicit `now`. */
module EmotionMonitor {
  import opened Wrappers

  /** Capacity of the rolling buffer, `deque(maxlen=10)`. */
  const Capacity: nat := 10

  /** One classified emotion: a label and its score. Also one item of the
      classifier's emotion map and one item of the per-label totals. */
  datatype Sample = Sample(emotion: string, score: real)

  /** What one iteration of the capture loop gets: no frame from the camera,
      or a frame with the emotion map (in iteration order) of the first face
      the classifier found, `None` when it found no face. Labels are distinct
      in the source's dictionary; a repeated label here changes nothing, since
      the first maximal entry is taken either way. */
  datatype Capture = NoFrame | Frame(firstFace: Option<seq<Sample>>)

  /** The session state: the monitoring flag, start time, duration and buffer. */
  datatype Session = Session(isMonitoring: bool, start: real, duration: real, buffer: seq<Sample>)

  /** The dictionary returned by `get_dominant_emotion`. */
  datatype Verdict = Verdict(emotion: string, score: real, confidence: real)

  /** Result of `get_dominant_emotion`: `None` on an empty buffer, the verdict,
      or the ZeroDivisionError raised when the duration is 0. */
  datatype Outcome = NoData | Found(verdict: Verdict) | ZeroDivision

  function Min(a: int, b: int): int { if a < b then a else b }

  /** Python's `max(items, key=lambda x: x[1])`: it keeps the first maximal
      item and replaces it only by a strictly larger one. */
  function MaxByScore(items: seq<Sample>): (k: nat)
    requires items != []
    ensures k < |items|
    ensures forall j :: 0 <= j < |items| ==> items[j].score <= items[k].score
    ensures forall j :: 0 <= j < k ==> items[j].score < items[k].score
    decreases |items|
  {
    if |items| == 1 then 0
    else
      var best := MaxByScore(items[..|items| - 1]);
      if items[|items| - 1].score > items[best].score then |items| - 1 else best
  }

  /** The newest `Capacity` items of `s`, in order. */
  function Newest(s: seq<Sample>): seq<Sample>
  {
    s[|s| - Min(|s|, Capacity)..]
  }

  /** `deque.append` on a deque with `maxlen=Capacity`: the oldest sample is
      dropped when the buffer is full, and the result is the newest
      `Capacity` samples of `buffer + [x]`. */
  function Append(buffer: seq<Sample>, x: Sample): (r: seq<Sample>)
    requires |buffer| <= Capacity
    ensures |r| == Min(|buffer| + 1, Capacity)
    ensures r == Newest(buffer + [x])
  {
    if |buffer| < Capacity then buffer + [x] else buffer[1..] + [x]
  }

  /** Successive appends of `xs`, oldest first. */
  function AppendAll(buffer: seq<Sample>, xs: seq<Sample>): (r: seq<Sample>)
    requires |buffer| <= Capacity
    ensures |r| <= Capacity
    decreases |xs|
  {
    if xs == [] then buffer
    else Append(AppendAll(buffer, xs[..|xs| - 1]), xs[|xs| - 1])
  }

  /** Keeping the newest items before one more arrives loses nothing. */
  lemma NewestSnoc(a: seq<Sample>, x: Sample)
    ensures Newest(Newest(a) + [x]) == Newest(a + [x])
  {
  }

  /** The buffer is a FIFO window: after any appends it holds exactly the
      newest `Capacity` samples of everything, in arrival order. */
  lemma {:induction false} AppendAllKeepsNewest(buffer: seq<Sample>, xs: seq<Sample>)
    requires |buffer| <= Capacity
    ensures AppendAll(buffer, xs) == Newest(buffer + xs)
    decreases |xs|
  {
    if xs == [] {
      assert buffer + xs == buffer;
    } else {
      var front := xs[..|xs| - 1];
      var x := xs[|xs| - 1];
      AppendAllKeepsNewest(buffer, front);
      assert buffer + xs == (buffer + front) + [x];
      NewestSnoc(buffer + front, x);
    }
  }

  /** One iteration of the capture loop while the process runs. `None` when
      the classifier's emotion map is empty: `max` then raises and the loop
      ends with the state as it was. */
  function AfterTick(s: Session, now: real, capture: Capture): (r: Option<Session>)
    requires |s.buffer| <= Capacity
    // only an empty emotion map, seen while monitoring, raises
    ensures r.None? <==> s.isMonitoring && capture == Frame(Some([]))
    // a missing frame, or a frame while idle, changes nothing
    ensures capture.NoFrame? || !s.isMonitoring ==> r == Some(s)
    // a tick never moves the start time or the duration and never starts monitoring
    ensures r.Some? ==> r.value.start == s.start && r.value.duration == s.duration
    ensures r.Some? && r.value.isMonitoring ==> s.isMonitoring
    ensures r.Some? ==> |r.value.buffer| <= Capacity
    // on a frame the session stays open exactly while the duration has not elapsed
    ensures s.isMonitoring && capture.Frame? && r.Some? ==>
      (r.value.isMonitoring <==> now - s.start < s.duration)
    // no face: nothing is buffered
    ensures capture == Frame(None) ==> r.Some? && r.value.buffer == s.buffer
    // a face: the first maximal pair of its emotion map (see MaxByScore) is appended
    ensures s.isMonitoring && capture.Frame? && capture.firstFace.Some? && capture.firstFace.value != [] ==>
      var face := capture.firstFace.value;
      r.Some? && r.value.buffer == Append(s.buffer, face[MaxByScore(face)])
  {
    match capture
    case NoFrame => Some(s)
    case Frame(firstFace) =>
      if !s.isMonitoring then Some(s)
      else if firstFace == Some([]) then None
      else
        var buffer := if firstFace.Some? then Append(s.buffer, firstFace.value[MaxByScore(firstFace.value)]) else s.buffer;
        Some(s.(buffer := buffer, isMonitoring := !(now - s.start >= s.duration)))
  }

  /** One iteration's inputs: the clock reading and what the camera gave. */
  datatype TickInput = TickInput(now: real, capture: Capture)

  /** The capture loop run over `inputs`; it ends early when a tick raises.
      No run moves the start time or the duration, or opens a closed session. */
  function AfterTicks(s: Session, inputs: seq<TickInput>): (r: Session)
    requires |s.buffer| <= Capacity
    ensures r.start == s.start && r.duration == s.duration
    ensures r.isMonitoring ==> s.isMonitoring
    decreases |inputs|
  {
    if inputs == [] then s
    else
      match AfterTick(s, inputs[0].now, inputs[0].capture)
      case None => s
      case Some(next) => AfterTicks(next, inputs[1..])
  }

  /** However many iterations run, the buffer stays within its capacity. */
  lemma {:induction false} AfterTicksKeepsCapacity(s: Session, inputs: seq<TickInput>)
    requires |s.buffer| <= Capacity
    ensures |AfterTicks(s, inputs).buffer| <= Capacity
    decreases |inputs|
  {
    if inputs != [] {
      var r := AfterTick(s, inputs[0].now, inputs[0].capture);
      if r.Some? {
        AfterTicksKeepsCapacity(r.value, inputs[1..]);
      }
    }
  }

  /** Once a session is not monitoring (never started, or auto-stopped), no
      run of the capture loop appends a sample or changes anything else:
      only `start_monitoring` can reopen it. */
  lemma {:induction false} StoppedSessionIgnoresTicks(s: Session, inputs: seq<TickInput>)
    requires |s.buffer| <= Capacity
    requires !s.isMonitoring
    ensures AfterTicks(s, inputs) == s
    decreases |inputs|
  {
    if inputs != [] {
      StoppedSessionIgnoresTicks(s, inputs[1..]);
    }
  }

  /** A tick on a frame at or after `start + duration` closes the session,
      and every later iteration then leaves it unchanged. */
  lemma {:induction false} TimeoutIsFinal(s: Session, now: real, capture: Capture, later: seq<TickInput>)
    requires |s.buffer| <= Capacity
    requires s.isMonitoring && capture.Frame? && capture.firstFace != Some([])
    requires now - s.start >= s.duration
    ensures AfterTick(s, now, capture).Some?
    ensures var stopped := AfterTick(s, now, capture).value;
      !stopped.isMonitoring && AfterTicks(stopped, later) == stopped
  {
    var stopped := AfterTick(s, now, capture).value;
    StoppedSessionIgnoresTicks(stopped, later);
  }

  /** Distinct labels of `buffer` in the order they are first seen: the key
      order of the dictionary built by `get_dominant_emotion`. */
  function Labels(buffer: seq<Sample>): seq<string>
    decreases |buffer|
  {
    if buffer == [] then []
    else
      var seen := Labels(buffer[..|buffer| - 1]);
      var l := buffer[|buffer| - 1].emotion;
      if l in seen then seen else seen + [l]
  }

  /** Sum of the scores of the samples labelled `l`, added oldest first. */
  function LabelSum(buffer: seq<Sample>, l: string): real
    decreases |buffer|
  {
    if buffer == [] then 0.0
    else
      var last := buffer[|buffer| - 1];
      LabelSum(buffer[..|buffer| - 1], l) + (if last.emotion == l then last.score else 0.0)
  }

  /** The dictionary's items: each label with its score sum. */
  function Totals(buffer: seq<Sample>): seq<Sample>
  {
    var labels := Labels(buffer);
    seq(|labels|, j requires 0 <= j < |labels| => Sample(labels[j], LabelSum(buffer, labels[j])))
  }

  /** One more sample: how the keys and a label's sum grow. */
  lemma PrefixSnoc(buffer: seq<Sample>, i: nat, l: string)
    requires i < |buffer|
    ensures Labels(buffer[..i + 1]) ==
      if buffer[i].emotion in Labels(buffer[..i]) then Labels(buffer[..i]) else Labels(buffer[..i]) + [buffer[i].emotion]
    ensures LabelSum(buffer[..i + 1], l) ==
      LabelSum(buffer[..i], l) + (if buffer[i].emotion == l then buffer[i].score else 0.0)
  {
    assert buffer[..i + 1][..i] == buffer[..i];
  }

  /** A label not yet among the keys has sum 0: `emotion_counts.get(emotion, 0)`. */
  lemma {:induction false} LabelSumUnseen(buffer: seq<Sample>, l: string)
    requires l !in Labels(buffer)
    ensures LabelSum(buffer, l) == 0.0
    decreases |buffer|
  {
    if buffer != [] {
      LabelSumUnseen(buffer[..|buffer| - 1], l);
    }
  }

  /** `dict.items()` of a dictionary with key order `keys`. */
  function Items(keys: seq<string>, counts: map<string, real>): seq<Sample>
  {
    seq(|keys|, j requires 0 <= j < |keys| => Sample(keys[j], if keys[j] in counts then counts[keys[j]] else 0.0))
  }

  /** The dictionary built by the accumulation loop has the items `Totals`. */
  lemma ItemsAreTotals(buffer: seq<Sample>, keys: seq<string>, counts: map<string, real>)
    requires keys == Labels(buffer)
    requires forall l :: l in keys <==> l in counts
    requires forall l :: l in counts ==> counts[l] == LabelSum(buffer, l)
    ensures Items(keys, counts) == Totals(buffer)
  {
  }

  /** A label is among the dictionary's keys exactly when some sample has it. */
  lemma {:induction false} LabelsMembership(buffer: seq<Sample>, l: string)
    ensures l in Labels(buffer) <==> exists i :: 0 <= i < |buffer| && buffer[i].emotion == l
    decreases |buffer|
  {
    if buffer != [] {
      var front := buffer[..|buffer| - 1];
      LabelsMembership(front, l);
      if exists i :: 0 <= i < |front| && front[i].emotion == l {
        var i :| 0 <= i < |front| && front[i].emotion == l;
        assert buffer[i].emotion == l;
      }
      if exists i :: 0 <= i < |buffer| && buffer[i].emotion == l {
        var i :| 0 <= i < |buffer| && buffer[i].emotion == l;
        if i < |front| {
          assert front[i].emotion == l;
        }
      }
    }
  }

  /** The keys seen in a prefix of the buffer come first, in the same order. */
  lemma {:induction false} LabelsPrefix(buffer: seq<Sample>, n: nat)
    requires n <= |buffer|
    ensures Labels(buffer[..n]) <= Labels(buffer)
    decreases |buffer|
  {
    if n < |buffer| {
      var front := buffer[..|buffer| - 1];
      assert front[..n] == buffer[..n];
      LabelsPrefix(front, n);
    } else {
      assert buffer[..n] == buffer;
    }
  }

  /** The dictionary's keys are distinct. */
  lemma {:induction false} LabelsDistinct(buffer: seq<Sample>)
    ensures forall a, b :: 0 <= a < b < |Labels(buffer)| ==> Labels(buffer)[a] != Labels(buffer)[b]
    decreases |buffer|
  {
    if buffer != [] {
      LabelsDistinct(buffer[..|buffer| - 1]);
    }
  }

  /** `get_dominant_emotion` on a session. */
  function DominantEmotion(s: Session): (r: Outcome)
    ensures r == NoData <==> s.buffer == []
    ensures r == ZeroDivision <==> s.buffer != [] && s.duration == 0.0
  {
    if s.buffer == [] then NoData
    else
      var totals := Totals(s.buffer);
      var dominant := totals[MaxByScore(totals)];
      if s.duration == 0.0 then ZeroDivision
      else Found(Verdict(dominant.emotion, dominant.score / |s.buffer| as real, |s.buffer| as real / s.duration))
  }

  /** On a non-empty buffer the verdict names a buffered label whose score sum
      no label exceeds; among labels with that sum it is the first seen; the
      score is that sum over the buffer length and the confidence the buffer
      length over the duration. */
  lemma DominantEmotionIsFirstMaximal(s: Session)
    requires s.buffer != [] && s.duration != 0.0
    ensures DominantEmotion(s).Found?
    ensures var v := DominantEmotion(s).verdict; var b := s.buffer;
      && (exists i :: 0 <= i < |b| && b[i].emotion == v.emotion)
      && (forall i :: 0 <= i < |b| ==> LabelSum(b, b[i].emotion) <= LabelSum(b, v.emotion))
      && (forall i :: 0 <= i < |b| && LabelSum(b, b[i].emotion) == LabelSum(b, v.emotion) ==>
            exists j :: 0 <= j <= i && b[j].emotion == v.emotion)
      && v.score == LabelSum(b, v.emotion) / |b| as real
      && v.confidence == |b| as real / s.duration
  {
    var b := s.buffer;
    var labels := Labels(b);
    var totals := Totals(b);
    var k := MaxByScore(totals);
    var e := labels[k];
    assert DominantEmotion(s).verdict.emotion == e;
    LabelsMembership(b, e);
    forall i | 0 <= i < |b|
      ensures LabelSum(b, b[i].emotion) <= LabelSum(b, e)
    {
      LabelsMembership(b, b[i].emotion);
      var m :| 0 <= m < |labels| && labels[m] == b[i].emotion;
      assert totals[m].score == LabelSum(b, b[i].emotion);
    }
    forall i | 0 <= i < |b| && LabelSum(b, b[i].emotion) == LabelSum(b, e)
      ensures exists j :: 0 <= j <= i && b[j].emotion == e
    {
      var p := b[..i + 1];
      var seen := Labels(p);
      assert p[i].emotion == b[i].emotion;
      LabelsMembership(p, b[i].emotion);
      var m :| 0 <= m < |seen| && seen[m] == b[i].emotion;
      LabelsPrefix(b, i + 1);
      assert labels[m] == b[i].emotion;
      assert totals[m].score == totals[k].score;
      assert k <= m;
      assert seen[k] == e;
      LabelsMembership(p, e);
      var j :| 0 <= j < |p| && p[j].emotion == e;
      assert b[j].emotion == e;
    }
  }

  /** The worked example: [(happy, 0.9), (happy, 0.8), (sad, 0.95)] over a
      2-second session gives happy, 1.7 / 3 and 1.5. */
  lemma ExampleVerdict()
    ensures DominantEmotion(Session(false, 0.0, 2.0, [Sample("happy", 0.9), Sample("happy", 0.8), Sample("sad", 0.95)]))
         == Found(Verdict("happy", 1.7 / 3.0, 1.5))
  {
    var b1 := [Sample("happy", 0.9)];
    var b2 := b1 + [Sample("happy", 0.8)];
    var b := b2 + [Sample("sad", 0.95)];
    assert b1[..0] == [] && b2[..1] == b1 && b[..2] == b2;
    assert Labels(b1) == ["happy"] && Labels(b2) == ["happy"] && Labels(b) == ["happy", "sad"];
    assert LabelSum(b1, "happy") == 0.9 && LabelSum(b2, "happy") == 1.7 && LabelSum(b, "happy") == 1.7;
    assert LabelSum(b1, "sad") == 0.0 && LabelSum(b2, "sad") == 0.0 && LabelSum(b, "sad") == 0.95;
    assert Totals(b) == [Sample("happy", 1.7), Sample("sad", 0.95)];
    assert MaxByScore(Totals(b)) == 0;
    assert b == [Sample("happy", 0.9), Sample("happy", 0.8), Sample("sad", 0.95)];
    var s := Session(false, 0.0, 2.0, b);
    assert DominantEmotion(s) == Found(Verdict("happy", 1.7 / 3.0, 3.0 / 2.0));
  }

  /** The `EmotionMonitorService` object: the fields the capture loop and the
      request handlers share. */
  class EmotionMonitorService {
    var isMonitoring: bool
    var monitoringStart: real
    var monitoringDuration: real
    var emotionBuffer: seq<Sample>

    ghost predicate Valid()
      reads this
    {
      |emotionBuffer| <= Capacity
    }

    /** The fields as a `Session` value. */
    function State(): Session
      reads this
    {
      Session(isMonitoring, monitoringStart, monitoringDuration, emotionBuffer)
    }

    /** The first construction: idle, no duration, an empty buffer. */
    constructor ()
      ensures Valid()
      ensures State() == Session(false, 0.0, 0.0, [])
    {
      isMonitoring := false;
      emotionBuffer := [];
      monitoringDuration := 0.0;
      monitoringStart := 0.0;
    }

    /** `start_monitoring(duration)` at time `now`: discards any running
        window and opens a new one, accepting any duration. */
    method StartMonitoring(duration: real, now: real) returns (ok: bool)
      modifies this
      ensures Valid()
      ensures ok
      ensures State() == Session(true, now, duration, [])
    {
      emotionBuffer := [];
      monitoringDuration := duration;
      monitoringStart := now;
      isMonitoring := true;
      ok := true;
    }

    /** One iteration of the `run_video_display` loop; `ok` is false when the
        iteration raised, which ends the loop and leaves the state unchanged. */
    method Tick(now: real, capture: Capture) returns (ok: bool)
      requires Valid()
      modifies this
      ensures Valid()
      ensures ok <==> AfterTick(old(State()), now, capture).Some?
      ensures State() == AfterTick(old(State()), now, capture).GetOr(old(State()))
    {
      ok := true;
      if capture.NoFrame? {
        return;
      }
      if isMonitoring {
        var face := capture.firstFace;
        if face.Some? {
          if face.value == [] {
            ok := false;
            return;
          }
          var dominant := face.value[MaxByScore(face.value)];
          emotionBuffer := Append(emotionBuffer, dominant);
        }
        if now - monitoringStart >= monitoringDuration {
          isMonitoring := false;
        }
      }
    }

    /** `get_dominant_emotion`: reads the state and changes nothing. */
    method GetDominantEmotion() returns (r: Outcome)
      ensures r == DominantEmotion(State())
    {
      if |emotionBuffer| == 0 {
        return NoData;
      }
      var keys: seq<string> := [];
      var counts: map<string, real> := map[];
      for i := 0 to |emotionBuffer|
        invariant keys == Labels(emotionBuffer[..i])
        invariant forall l :: l in keys <==> l in counts
        invariant forall l :: l in counts ==> counts[l] == LabelSum(emotionBuffer[..i], l)
      {
        var x := emotionBuffer[i];
        PrefixSnoc(emotionBuffer, i, x.emotion);
        if x.emotion !in counts {
          LabelSumUnseen(emotionBuffer[..i], x.emotion);
        }
        forall l | l != x.emotion
          ensures LabelSum(emotionBuffer[..i + 1], l) == LabelSum(emotionBuffer[..i], l)
        {
          PrefixSnoc(emotionBuffer, i, l);
        }
        var previous := if x.emotion in counts then counts[x.emotion] else 0.0;
        if x.emotion !in counts {
          keys := keys + [x.emotion];
        }
        counts := counts[x.emotion := previous + x.score];
      }
      assert emotionBuffer[..|emotionBuffer|] == emotionBuffer;
      var items := Items(keys, counts);
      ItemsAreTotals(emotionBuffer, keys, counts);
      var dominant := items[MaxByScore(items)];
      if monitoringDuration == 0.0 {
        return ZeroDivision;
      }
      r := Found(Verdict(dominant.emotion, dominant.score / |emotionBuffer| as real,
                         |emotionBuffer| as real / monitoringDuration));
    }
  }
}
