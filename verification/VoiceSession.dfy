// The voice session: a half-duplex gate in front of the segmenter and the turn assembler.
module VoiceSession {
  import opened Base
  import opened Segmenter
  import opened TurnAssembler

  // One captured frame with everything outside decides about it: whether the agent holds the floor,
  // the detector's verdict if the frame is processed, the transcript of an utterance that ends with
  // it ("" when it is too short or transcription failed), and whether the caller raises for a turn
  // committed at it.
  datatype Frame = Frame(seconds: real, held: bool, speech: bool, text: string, raises: bool)

  ghost predicate Timed(frames: seq<Frame>) { forall i :: 0 <= i < |frames| ==> frames[i].seconds >= 0.0 }

  function Sum(frames: seq<Frame>, lo: nat, hi: nat): real
    requires lo <= hi <= |frames|
    decreases hi
  {
    if hi == lo then 0.0 else Sum(frames, lo, hi - 1) + frames[hi - 1].seconds
  }

  // ---------------------------------------------------------------- the gate

  function Less(tail: real, seconds: real): real { if tail > seconds then tail - seconds else 0.0 }

  // What is left of the echo guard after the first n frames.
  function Tail(frames: seq<Frame>, guard: real, n: nat): real
    requires n <= |frames|
  {
    if n == 0 then 0.0
    else
      var tail := Tail(frames, guard, n - 1);
      if frames[n - 1].held then guard
      else if tail > 0.0 then Less(tail, frames[n - 1].seconds)
      else tail
  }

  predicate Muted(frames: seq<Frame>, guard: real, n: nat)
    requires n < |frames|
  {
    frames[n].held || Tail(frames, guard, n + 1) > 0.0
  }

  // h is the last frame up to n during which the agent held the floor.
  predicate LastHeld(frames: seq<Frame>, h: nat, n: nat)
    requires n < |frames|
  {
    h <= n && frames[h].held && forall k :: h < k <= n ==> !frames[k].held
  }

  lemma {:induction false} TailSince(frames: seq<Frame>, guard: real, h: nat, n: nat)
    requires Timed(frames) && guard >= 0.0 && h < n <= |frames| && LastHeld(frames, h, n - 1)
    ensures Tail(frames, guard, n) == Less(guard, Sum(frames, h + 1, n))
  {
    if n > h + 1 {
      TailSince(frames, guard, h, n - 1);
      SumNonNegative(frames, h + 1, n - 1);
    }
  }

  lemma {:induction false} SumNonNegative(frames: seq<Frame>, lo: nat, hi: nat)
    requires Timed(frames) && lo <= hi <= |frames|
    ensures Sum(frames, lo, hi) >= 0.0
    decreases hi
  {
    if hi > lo { SumNonNegative(frames, lo, hi - 1); }
  }

  lemma {:induction false} NeverHeld(frames: seq<Frame>, guard: real, n: nat)
    requires n <= |frames| && forall k :: 0 <= k < n ==> !frames[k].held
    ensures Tail(frames, guard, n) == 0.0
  {
    if n > 0 { NeverHeld(frames, guard, n - 1); }
  }

  lemma {:induction false} FindHeld(frames: seq<Frame>, n: nat) returns (h: nat)
    requires n < |frames| && exists k :: 0 <= k <= n && frames[k].held
    ensures LastHeld(frames, h, n)
  {
    if frames[n].held { return n; }
    h := FindHeld(frames, n - 1);
  }

  // A frame is dropped exactly when the floor is held during it, or the audio from the end of the
  // last held frame to the end of this one is less than the guard.
  lemma MuteExact(frames: seq<Frame>, guard: real, n: nat)
    requires Timed(frames) && guard >= 0.0 && n < |frames|
    ensures Muted(frames, guard, n) <==>
              exists h: nat :: LastHeld(frames, h, n) && (h == n || Sum(frames, h + 1, n + 1) < guard)
  {
    if exists k :: 0 <= k <= n && frames[k].held {
      var h := FindHeld(frames, n);
      TailSince(frames, guard, h, n + 1);
      assert LastHeld(frames, h, n);
      assert forall h': nat :: LastHeld(frames, h', n) ==> h' == h;
    } else {
      NeverHeld(frames, guard, n + 1);
    }
  }

  // The guard is measured to the END of a frame: one that starts inside the guard is processed
  // when it ends outside, here half a second after a floor of one second's guard.
  lemma StartsInsideGuard()
    ensures var frames := [Frame(0.5, true, false, "", false), Frame(0.5, false, false, "", false), Frame(0.5, false, true, "", false)];
            Timed(frames) && Sum(frames, 1, 2) < 1.0 && !Muted(frames, 1.0, 2)
  {
    var frames := [Frame(0.5, true, false, "", false), Frame(0.5, false, false, "", false), Frame(0.5, false, true, "", false)];
    assert Sum(frames, 1, 2) == 0.5;
    assert Tail(frames, 1.0, 1) == 1.0;
    assert Tail(frames, 1.0, 2) == 0.5;
    assert Tail(frames, 1.0, 3) == 0.0;
  }

  // Trailing silence after the first n frames: processed non-speech since the last speech or mute.
  function Silence(frames: seq<Frame>, guard: real, n: nat): real
    requires n <= |frames|
  {
    if n == 0 || Muted(frames, guard, n - 1) || frames[n - 1].speech then 0.0
    else Silence(frames, guard, n - 1) + frames[n - 1].seconds
  }

  predicate Quiet(frames: seq<Frame>, guard: real, lo: nat, n: nat)
    requires n <= |frames|
  {
    lo <= n && forall k :: lo <= k < n ==> !Muted(frames, guard, k) && !frames[k].speech
  }

  // It is the length of the uninterrupted run of processed non-speech that ends there: the run that
  // began at the start of the stream, or just after speech or a muted frame.
  lemma {:induction false} SilenceMeans(frames: seq<Frame>, guard: real, lo: nat, n: nat)
    requires n <= |frames| && Quiet(frames, guard, lo, n)
    requires lo == 0 || Muted(frames, guard, lo - 1) || frames[lo - 1].speech
    ensures Silence(frames, guard, n) == Sum(frames, lo, n)
  {
    if n > lo { SilenceMeans(frames, guard, lo, n - 1); }
  }

  lemma {:induction false} QuietFrom(frames: seq<Frame>, guard: real, n: nat) returns (lo: nat)
    requires n <= |frames|
    ensures Quiet(frames, guard, lo, n) && (lo == 0 || Muted(frames, guard, lo - 1) || frames[lo - 1].speech)
  {
    if n == 0 || Muted(frames, guard, n - 1) || frames[n - 1].speech { lo := n; } else { lo := QuietFrom(frames, guard, n - 1); }
  }

  lemma {:induction false} SumTail(frames: seq<Frame>, lo: nat, mid: nat, n: nat)
    requires Timed(frames) && lo <= mid <= n <= |frames|
    ensures Sum(frames, mid, n) <= Sum(frames, lo, n)
  {
    if n == mid { SumNonNegative(frames, lo, mid); } else { SumTail(frames, lo, mid, n - 1); }
  }

  // The human has been quiet for a while: processed non-speech, without a break, for that long.
  ghost predicate QuietFor(frames: seq<Frame>, guard: real, n: nat, seconds: real)
    requires n <= |frames|
  {
    exists lo :: 0 <= lo <= n && Quiet(frames, guard, lo, n) && Sum(frames, lo, n) >= seconds
  }

  lemma SilenceExact(frames: seq<Frame>, guard: real, n: nat, seconds: real)
    requires Timed(frames) && n <= |frames|
    ensures Silence(frames, guard, n) >= seconds <==> QuietFor(frames, guard, n, seconds)
  {
    var first := QuietFrom(frames, guard, n);
    SilenceMeans(frames, guard, first, n);
    if lo :| 0 <= lo <= n && Quiet(frames, guard, lo, n) && Sum(frames, lo, n) >= seconds {
      assert first <= lo;
      SumTail(frames, first, lo, n);
    }
  }

  // ---------------------------------------------------------------- clean turns

  function Range(lo: nat, hi: nat): seq<nat>
    requires lo <= hi
  {
    seq(hi - lo, i requires 0 <= i < hi - lo => lo + i)
  }

  // The utterances lie in [lo, hi), one after the other.
  ghost predicate Within(spans: seq<Span>, lo: nat, hi: nat) {
    && (forall i :: 0 <= i < |spans| ==> lo <= spans[i].lo < spans[i].hi <= hi)
    && (forall i, j :: 0 <= i < j < |spans| ==> spans[i].hi <= spans[j].lo)
  }

  // No muted frame lies inside or between the utterances of the turn.
  ghost predicate Clean(frames: seq<Frame>, guard: real, spans: seq<Span>) {
    spans != [] ==>
      var lo, hi := spans[0].lo, spans[|spans| - 1].hi;
      && hi <= |frames| && Within(spans, lo, hi)
      && (forall k :: lo <= k < hi ==> !Muted(frames, guard, k))
  }

  ghost predicate AllClean(frames: seq<Frame>, guard: real, settled: seq<Settled>) {
    forall i :: 0 <= i < |settled| && settled[i].Committed? ==> Clean(frames, guard, settled[i].spans)
  }

  lemma CleanTurn(frames: seq<Frame>, guard: real, spans: seq<Span>, since: nat, n: nat)
    requires since <= n <= |frames| && Within(spans, since, n)
    requires forall k :: since <= k < n ==> !Muted(frames, guard, k)
    ensures Clean(frames, guard, spans)
  {
  }

  lemma WithinMore(spans: seq<Span>, lo: nat, mid: nat, hi: nat, span: Span)
    requires Within(spans, lo, mid) && lo <= mid <= span.lo < span.hi <= hi
    ensures Within(spans + [span], lo, hi)
  {
  }

  lemma AllCleanMore(frames: seq<Frame>, guard: real, settled: seq<Settled>, s: Settled)
    requires AllClean(frames, guard, settled) && (s.Committed? ==> Clean(frames, guard, s.spans))
    ensures AllClean(frames, guard, settled + [s])
  {
  }

  // ---------------------------------------------------------------- the floor is yielded

  // Each utterance lasted as long as its frames.
  ghost predicate Measured(frames: seq<Frame>, spans: seq<Span>) {
    forall i :: 0 <= i < |spans| ==> spans[i].lo <= spans[i].hi <= |frames| && spans[i].seconds == Sum(frames, spans[i].lo, spans[i].hi)
  }

  // The frames of the utterances of a turn, in seconds.
  function Voiced(frames: seq<Frame>, spans: seq<Span>): real {
    if spans == [] then 0.0
    else
      var s := spans[|spans| - 1];
      Voiced(frames, spans[..|spans| - 1]) + if s.lo <= s.hi <= |frames| then Sum(frames, s.lo, s.hi) else 0.0
  }

  lemma {:induction false} MeasuredLength(frames: seq<Frame>, spans: seq<Span>)
    requires Timed(frames) && Measured(frames, spans)
    ensures Length(spans) == Voiced(frames, spans)
  {
    if spans != [] {
      var s := spans[|spans| - 1];
      MeasuredLength(frames, spans[..|spans| - 1]);
      SumNonNegative(frames, s.lo, s.hi);
    }
  }

  // The human has left the floor: quiet for the gap of a finished or an unfinished turn, or so much
  // was said that the turn ends anyway.
  ghost predicate Waited(frames: seq<Frame>, guard: real, a: Assembler, texts: seq<string>, spans: seq<Span>, n: nat) {
    && n <= |frames|
    && (|| QuietFor(frames, guard, n, if a.unfinished(texts) then a.continuationGap else a.turnGap)
        || Voiced(frames, spans) >= a.maxTurn)
  }

  lemma DueIsWaited(frames: seq<Frame>, guard: real, a: Assembler, texts: seq<string>, spans: seq<Span>, n: nat)
    requires Timed(frames) && Measured(frames, spans) && n <= |frames|
    ensures a.Due(texts, spans, Silence(frames, guard, n)) <==> Waited(frames, guard, a, texts, spans, n)
  {
    MeasuredLength(frames, spans);
    SilenceExact(frames, guard, n, if a.unfinished(texts) then a.continuationGap else a.turnGap);
    hide QuietFor, Length, Voiced, Silence;
  }

  // Every turn committed before the end of the stream had waited when it was.
  ghost predicate AllWaited(frames: seq<Frame>, guard: real, a: Assembler, settled: seq<Settled>, times: seq<nat>) {
    && |times| == |settled|
    && forall i :: 0 <= i < |settled| && settled[i].Committed? && settled[i].cause.Silent? ==>
         Waited(frames, guard, a, settled[i].texts, settled[i].spans, times[i])
  }

  lemma AllWaitedMore(frames: seq<Frame>, guard: real, a: Assembler, settled: seq<Settled>, times: seq<nat>, s: Settled, n: nat)
    requires AllWaited(frames, guard, a, settled, times)
    requires s.Committed? && s.cause.Silent? ==> Waited(frames, guard, a, s.texts, s.spans, n)
    ensures AllWaited(frames, guard, a, settled + [s], times + [n])
  {
    hide Waited;
  }

  // ---------------------------------------------------------------- the session

  class Session {
    const segmenter: Machine<nat>
    const assembler: Assembler
    const guard: real
    const frames: seq<Frame>
    var n: nat                       // frames read
    var silenceSeconds: real
    var muteTail: real
    ghost var since: nat             // after the last muted frame
    ghost var times: seq<nat>        // when each turn was committed or dropped, in frames read

    // The invariant, except for the mute counter, which the gate moves first.
    ghost predicate Sound()
      reads this, segmenter, assembler
    {
      && Timed(frames) && guard >= 0.0 && since <= n <= |frames|
      && segmenter.Valid() && assembler.Valid()
      && silenceSeconds == Silence(frames, guard, n)
      && (forall k :: since <= k < n ==> !Muted(frames, guard, k))
      && segmenter.input == Range(since, n)
      && Within(assembler.spans, since, since + End(segmenter.segments))
      && AllClean(frames, guard, assembler.settled)
      && Measured(frames, assembler.spans) && AllWaited(frames, guard, assembler, assembler.settled, times)
    }

    ghost predicate Valid()
      reads this, segmenter, assembler
    {
      Sound() && muteTail == Tail(frames, guard, n)
    }

    constructor (frames: seq<Frame>, echoGuard: real, segmenter: Machine<nat>, assembler: Assembler)
      requires Timed(frames) && segmenter.Valid() && segmenter.input == [] && segmenter.segments == []
      requires assembler.Valid() && assembler.parts == [] && assembler.settled == []
      ensures Valid() && n == 0 && this.frames == frames && this.segmenter == segmenter && this.assembler == assembler
      ensures guard == if echoGuard > 0.0 then echoGuard else 0.0
    {
      this.frames, this.segmenter, this.assembler := frames, segmenter, assembler;
      guard := if echoGuard > 0.0 then echoGuard else 0.0;
      n, silenceSeconds, muteTail, since, times := 0, 0.0, 0.0, 0, [];
    }

    // The gate: true when the frame is to be dropped.
    method Gate(frame: Frame) returns (muted: bool)
      requires Valid() && n < |frames| && frame == frames[n]
      modifies `muteTail
      ensures muteTail == Tail(frames, guard, n + 1) && (muted <==> Muted(frames, guard, n))
    {
      if frame.held {
        muteTail := guard;
      } else if muteTail > 0.0 {
        muteTail := Less(muteTail, frame.seconds);
      }
      muted := frame.held || muteTail > 0.0;
    }

    static function Lost(parts: seq<string>): seq<Settled> { if parts == [] then [] else [Dropped(parts)] }

    // The segmenter and the assembler both forget what they hold.
    method Discard()
      requires segmenter.Valid() && assembler.Valid() && AllClean(frames, guard, assembler.settled)
      requires AllWaited(frames, guard, assembler, assembler.settled, times)
      modifies segmenter, assembler, `times
      ensures AllWaited(frames, guard, assembler, assembler.settled, times)
      ensures segmenter.Valid() && segmenter.input == [] && segmenter.segments == []
      ensures assembler.Valid() && assembler.spans == [] && assembler.added == old(assembler.added)
      ensures AllClean(frames, guard, assembler.settled)
      ensures assembler.parts == [] && assembler.settled == old(assembler.settled) + Lost(old(assembler.parts))
    {
      segmenter.Reset();
      assembler.Clear();
      AllCleanMore(frames, guard, old(assembler.settled), Dropped(old(assembler.parts)));
      AllWaitedMore(frames, guard, assembler, old(assembler.settled), times, Dropped(old(assembler.parts)), n);
      if assembler.settled != old(assembler.settled) { times := times + [n]; }
    }

    // Dropping a frame discards whatever was being recorded or buffered.
    method Drop()
      requires Sound() && n < |frames| && Muted(frames, guard, n) && muteTail == Tail(frames, guard, n + 1)
      modifies this, segmenter, assembler
      ensures Valid() && n == old(n) + 1 && since == n && assembler.added == old(assembler.added)
      ensures assembler.parts == [] && assembler.settled == old(assembler.settled) + Lost(old(assembler.parts))
    {
      hide Machine.Valid, Assembler.Valid;
      Discard();
      silenceSeconds := 0.0;
      n := n + 1;
      since := n;
      assert Range(n, n) == [];
    }

    // A processed frame: silence is counted, and an utterance that ends with it is emitted.
    method Hear(frame: Frame)
      requires Sound() && n < |frames| && frame == frames[n]
      requires !Muted(frames, guard, n) && muteTail == Tail(frames, guard, n + 1)
      modifies `n, `silenceSeconds, segmenter, assembler
      ensures Valid() && n == old(n) + 1 && assembler.settled == old(assembler.settled)
      ensures assembler.added == old(assembler.added) + Heard(old(segmenter.segments), frame.text)
    {
      hide Machine.Valid, Assembler.Valid, AllWaited, AllClean;
      silenceSeconds := if frame.speech then 0.0 else silenceSeconds + frame.seconds;
      Segment(frame);
      n := n + 1;
    }

    // The text a frame adds: one only if it completes a segment that is not a blip.
    ghost function Heard(segments: seq<Segmenter.Segment>, text: string): seq<string>
      reads segmenter
    {
      var now := segmenter.segments;
      if now != segments && now != [] && assembler.strip(text) != ""
         && Spoken(segmenter.c, segmenter.input, segmenter.speech, now[|now| - 1]).Some? then [assembler.strip(text)] else []
    }

    method Segment(frame: Frame)
      requires segmenter.Valid() && assembler.Valid() && since <= n < |frames|
      requires segmenter.input == Range(since, n) && Within(assembler.spans, since, since + End(segmenter.segments))
      requires Measured(frames, assembler.spans)
      modifies segmenter, assembler
      ensures segmenter.Valid() && segmenter.input == Range(since, n + 1) && Measured(frames, assembler.spans)
      ensures assembler.Valid() && assembler.settled == old(assembler.settled)
      ensures assembler.added == old(assembler.added) + Heard(old(segmenter.segments), frame.text)
      ensures Within(assembler.spans, since, since + End(segmenter.segments))
    {
      hide Machine.Valid, Assembler.Valid;
      ghost var mid := since + End(segmenter.segments);
      var utterance := PushFrame(frame);
      ghost var hi := since + End(segmenter.segments);
      if utterance.Some? {
        Emit(utterance.value, frame.text, mid, hi);
      } else {
        WithinWider(assembler.spans, since, mid, hi);
      }
    }

    method PushFrame(frame: Frame) returns (utterance: Option<seq<nat>>)
      requires segmenter.Valid() && since <= n < |frames| && segmenter.input == Range(since, n)
      modifies segmenter
      ensures segmenter.Valid() && segmenter.input == Range(since, n + 1)
      ensures End(old(segmenter.segments)) <= End(segmenter.segments) <= n + 1 - since
      ensures utterance.Some? ==>
                && utterance.value != [] && since + End(old(segmenter.segments)) <= utterance.value[0]
                && utterance.value[0] + |utterance.value| == since + End(segmenter.segments)
      ensures utterance.Some? && assembler.strip(frame.text) != "" <==> Heard(old(segmenter.segments), frame.text) != []
    {
      hide Machine.Valid;
      SegmentsFit(segmenter);
      RangeMore(since, n);
      utterance := segmenter.Push(n, frame.speech);
      SegmentsFit(segmenter);
      if utterance.Some? {
        ghost var s := segmenter.segments[|segmenter.segments| - 1];
        RangeSlice(since, n + 1, Low(segmenter.c, s), s.close + 1);
      }
    }

    // One whole utterance becomes at most one text; errors and short transcripts give none.
    method Emit(utterance: seq<nat>, text: string, ghost mid: nat, ghost hi: nat)
      requires assembler.Valid() && utterance != [] && Within(assembler.spans, since, mid) && since <= mid
      requires mid <= utterance[0] && utterance[0] + |utterance| <= hi <= |frames| && Measured(frames, assembler.spans)
      modifies assembler
      ensures Measured(frames, assembler.spans)
      ensures assembler.Valid() && assembler.settled == old(assembler.settled)
      ensures assembler.added == old(assembler.added) + if assembler.strip(text) == "" then [] else [assembler.strip(text)]
      ensures Within(assembler.spans, since, hi)
    {
      WithinWider(assembler.spans, since, mid, hi);
      var lo := utterance[0];
      var seconds := Sum(frames, lo, lo + |utterance|);
      assembler.Add(text, seconds, lo, lo + |utterance|);
      if assembler.strip(text) != "" { WithinMore(old(assembler.spans), since, mid, hi, Span(lo, lo + |utterance|, seconds)); }
    }

    // Non-speech drives the decision that the floor was yielded: what is buffered is committed
    // exactly when the human has left the floor. The session ends when the caller raises for it.
    method Yield(frame: Frame) returns (ended: bool)
      requires Valid()
      modifies assembler, `times
      ensures Valid() && assembler.added == old(assembler.added)
      ensures if old(assembler.parts) != [] && Waited(frames, guard, assembler, old(assembler.parts), old(assembler.spans), n)
              then assembler.parts == [] && assembler.settled == old(assembler.settled)
                     + [Committed(old(assembler.parts), old(assembler.spans), Silent(silenceSeconds))]
              else assembler.settled == old(assembler.settled)
                   && assembler.parts == old(assembler.parts) && assembler.spans == old(assembler.spans)
    {
      hide Machine.Valid, Assembler.Valid, Waited, Assembler.Due, Silence;
      SegmentsFit(segmenter);
      DueIsWaited(frames, guard, assembler, assembler.parts, assembler.spans, n);
      WithinWider(assembler.spans, since, since + End(segmenter.segments), n);
      CleanTurn(frames, guard, assembler.spans, since, n);
      var turn := assembler.OnSilence(silenceSeconds);
      ended := turn.Some? && frame.raises;
      if turn.Some? {
        ghost var done := Committed(old(assembler.parts), old(assembler.spans), Silent(silenceSeconds));
        AllCleanMore(frames, guard, old(assembler.settled), done);
        AllWaitedMore(frames, guard, assembler, old(assembler.settled), times, done, n);
        times := times + [n];
      }
    }

    method OnFrame(frame: Frame) returns (ended: bool)
      requires Valid() && n < |frames| && frame == frames[n]
      modifies this, segmenter, assembler
      ensures Valid() && n == old(n) + 1
      ensures Muted(frames, guard, old(n)) ==>
                assembler.parts == [] && assembler.settled == old(assembler.settled) + Lost(old(assembler.parts))
      ensures !Muted(frames, guard, old(n)) ==>
                assembler.added == old(assembler.added) + Heard(old(segmenter.segments), frame.text)
      ensures !Muted(frames, guard, old(n)) && !frame.speech ==>
                assembler.parts == [] || !Waited(frames, guard, assembler, assembler.parts, assembler.spans, n)
    {
      hide Machine.Valid, Assembler.Valid, Waited;
      var muted := Gate(frame);
      ended := false;
      if muted {
        Drop();
        return;
      }
      Hear(frame);
      if !frame.speech { ended := Yield(frame); }
    }

    // The end of the stream: the tail utterance is emitted and the buffered turn committed.
    method Finish(tail: string)
      requires Valid()
      modifies segmenter, assembler, `times
      ensures assembler.Valid() && assembler.parts == [] && AllClean(frames, guard, assembler.settled)
      ensures AllWaited(frames, guard, assembler, assembler.settled, times)
    {
      EmitTail(tail);
      CleanTurn(frames, guard, assembler.spans, since, n);
      ghost var parts, spans, settled := assembler.parts, assembler.spans, assembler.settled;
      var turn := assembler.Flush();
      if turn.Some? {
        AllCleanMore(frames, guard, settled, Committed(parts, spans, AtEnd));
        AllWaitedMore(frames, guard, assembler, settled, times, Committed(parts, spans, AtEnd), n);
        times := times + [n];
      }
    }

    method EmitTail(tail: string)
      requires segmenter.Valid() && assembler.Valid() && since <= n <= |frames|
      requires segmenter.input == Range(since, n) && Within(assembler.spans, since, since + End(segmenter.segments))
      requires AllClean(frames, guard, assembler.settled) && Measured(frames, assembler.spans)
      modifies segmenter, assembler
      ensures assembler.Valid() && Within(assembler.spans, since, n) && AllClean(frames, guard, assembler.settled)
      ensures assembler.settled == old(assembler.settled)
    {
      hide Machine.Valid;
      ghost var end, lo := End(segmenter.segments), Begin(segmenter.c, End(segmenter.segments), segmenter.onset);
      SegmentsFit(segmenter);
      WithinWider(assembler.spans, since, since + end, n);
      var utterance := segmenter.Flush();
      if utterance.Some? {
        RangeSlice(since, n, lo, n - since);
        Emit(utterance.value, tail, since + end, n);
      }
    }

    // The whole session. Every turn it commits is clean; one committed before the end of the stream
    // was preceded by its gap of unbroken quiet, or had reached the length cap; and when the stream
    // ends normally every text heard is, in order, in exactly one committed turn or dropped batch.
    method Run(tail: string) returns (ended: bool)
      requires Valid() && n == 0
      modifies this, segmenter, assembler
      ensures assembler.Valid() && AllClean(frames, guard, assembler.settled)
      ensures AllWaited(frames, guard, assembler, assembler.settled, times)
      ensures !ended ==> n == |frames| && Flatten(assembler.settled) == assembler.added
    {
      hide Machine.Valid, Assembler.Valid;
      ended := false;
      while n < |frames| && !ended
        invariant Valid()
        decreases |frames| - n
      {
        ended := OnFrame(frames[n]);
      }
      if !ended { Finish(tail); }
    }
  }

  lemma SegmentsFit(m: Machine<nat>)
    requires m.Valid()
    ensures End(m.segments) <= |m.input|
  {
  }

  lemma RangeMore(lo: nat, hi: nat)
    requires lo <= hi
    ensures Range(lo, hi + 1) == Range(lo, hi) + [hi]
  {
  }

  lemma WithinWider(spans: seq<Span>, lo: nat, mid: nat, hi: nat)
    requires Within(spans, lo, mid) && mid <= hi
    ensures Within(spans, lo, hi)
  {
  }

  lemma RangeSlice(lo: nat, hi: nat, i: nat, j: nat)
    requires lo <= hi && i <= j <= hi - lo
    ensures Range(lo, hi)[i..j] == Range(lo + i, lo + j)
  {
  }
}
