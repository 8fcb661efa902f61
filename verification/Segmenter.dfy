// Acoustic segmentation, in two forms: a batch specification over the whole classified stream,
// and the incremental machine, which is proved to produce exactly what the specification says.
module Segmenter {
  import opened Base

  // Frame counts; all but the pre-roll are at least one.
  datatype Config = Config(start: nat, silence: nat, minSpeech: nat, maxFrames: nat, preRoll: nat)

  predicate Positive(c: Config) { c.start >= 1 && c.silence >= 1 && c.minSpeech >= 1 && c.maxFrames >= 1 }

  function AtLeast(x: int, low: nat): (r: nat) { if x < low then low else x }

  // ---------------------------------------------------------------- batch specification

  // `speech` classifies every frame since the last reset.

  predicate AllSpeech(speech: seq<bool>, lo: int, hi: int) { forall k :: lo <= k < hi && 0 <= k < |speech| ==> speech[k] }

  predicate NoSpeech(speech: seq<bool>, lo: int, hi: int) { forall k :: lo <= k < hi && 0 <= k < |speech| ==> !speech[k] }

  function Count(speech: seq<bool>, lo: nat, hi: nat): nat
    requires lo <= hi <= |speech|
    decreases hi
  {
    if hi == lo then 0 else Count(speech, lo, hi - 1) + if speech[hi - 1] then 1 else 0
  }

  // Frame i completes a run of `start` speech frames, all at or after `from`.
  predicate OnsetAt(c: Config, speech: seq<bool>, from: nat, i: nat) {
    i < |speech| && from + c.start <= i + 1 && AllSpeech(speech, i + 1 - c.start, i + 1)
  }

  ghost predicate FirstOnset(c: Config, speech: seq<bool>, from: nat, i: nat) {
    OnsetAt(c, speech, from, i) && forall k :: from <= k < i ==> !OnsetAt(c, speech, from, k)
  }

  // Where the utterance with that onset begins: the run and the pre-roll, but nothing before `from`.
  function Begin(c: Config, from: nat, onset: nat): nat {
    AtLeast(onset + 1 - c.preRoll - c.start, from)
  }

  // Frame j ends it: by a hangover of silence after the onset, or by its length.
  predicate CloseAt(c: Config, speech: seq<bool>, from: nat, onset: nat, j: nat) {
    && onset < j < |speech|
    && (|| (j - onset >= c.silence && NoSpeech(speech, j + 1 - c.silence, j + 1))
        || j + 1 - Begin(c, from, onset) >= c.maxFrames)
  }

  // The stretch from `from` to its close holds one utterance: first onset, then first close.
  datatype Segment = Segment(from: nat, onset: nat, close: nat)

  function Low(c: Config, s: Segment): nat { Begin(c, s.from, s.onset) }

  ghost predicate IsSegment(c: Config, speech: seq<bool>, s: Segment) {
    && s.from <= s.onset < s.close < |speech| && FirstOnset(c, speech, s.from, s.onset)
    && CloseAt(c, speech, s.from, s.onset, s.close)
    && forall k :: s.onset < k < s.close ==> !CloseAt(c, speech, s.from, s.onset, k)
  }

  function End(segments: seq<Segment>): nat { if segments == [] then 0 else segments[|segments| - 1].close + 1 }

  // The segments follow each other from the start of the stream.
  ghost predicate Chain(c: Config, speech: seq<bool>, segments: seq<Segment>)
    decreases |segments|
  {
    segments == []
    || (var n := |segments| - 1;
        Chain(c, speech, segments[..n]) && IsSegment(c, speech, segments[n]) && segments[n].from == End(segments[..n]))
  }

  lemma {:induction false} ChainAt(c: Config, speech: seq<bool>, segments: seq<Segment>, k: nat)
    requires Chain(c, speech, segments) && k < |segments|
    ensures IsSegment(c, speech, segments[k]) && segments[k].from == End(segments[..k])
    decreases |segments|
  {
    var n := |segments| - 1;
    if k < n {
      ChainAt(c, speech, segments[..n], k);
      assert segments[..n][..k] == segments[..k];
    }
  }

  ghost predicate Further(c: Config, speech: seq<bool>, from: nat) {
    exists s :: IsSegment(c, speech, s) && s.from == from
  }

  // ... until no further one is complete.
  ghost predicate Complete(c: Config, speech: seq<bool>, segments: seq<Segment>) {
    Chain(c, speech, segments) && !Further(c, speech, End(segments))
  }

  // An utterance with too little speech is a blip and is dropped.
  predicate Kept(c: Config, speech: seq<bool>, onset: nat, hi: nat)
    requires onset < hi <= |speech|
  {
    c.start + Count(speech, onset + 1, hi) >= c.minSpeech
  }

  // ---------------------------------------------------------------- what a segmentation is like

  lemma SegmentUnique(c: Config, speech: seq<bool>, s: Segment, t: Segment)
    requires IsSegment(c, speech, s) && IsSegment(c, speech, t) && s.from == t.from
    ensures s == t
  {
    assert s.onset < t.onset ==> !OnsetAt(c, speech, t.from, s.onset);
    assert t.onset < s.onset ==> !OnsetAt(c, speech, s.from, t.onset);
    assert s.onset == t.onset && s.close < t.close ==> !CloseAt(c, speech, t.from, t.onset, s.close);
    assert s.onset == t.onset && t.close < s.close ==> !CloseAt(c, speech, s.from, s.onset, t.close);
  }

  lemma NoLonger(c: Config, speech: seq<bool>, a: seq<Segment>, b: seq<Segment>)
    requires Chain(c, speech, a) && Complete(c, speech, b) && |b| <= |a| && a[..|b|] == b
    ensures a == b
  {
    if |b| < |a| {
      ChainAt(c, speech, a, |b|);
    } else {
      assert a[..|a|] == a;
    }
  }

  lemma {:induction false} SameSegments(c: Config, speech: seq<bool>, a: seq<Segment>, b: seq<Segment>, k: nat)
    requires Chain(c, speech, a) && Chain(c, speech, b) && k <= |a| && k <= |b|
    ensures a[..k] == b[..k]
  {
    if k > 0 {
      SameSegments(c, speech, a, b, k - 1);
      ChainAt(c, speech, a, k - 1);
      ChainAt(c, speech, b, k - 1);
      SegmentUnique(c, speech, a[k - 1], b[k - 1]);
      assert a[..k] == a[..k - 1] + [a[k - 1]] && b[..k] == b[..k - 1] + [b[k - 1]];
    }
  }

  // A stream has exactly one complete segmentation.
  lemma SegmentationUnique(c: Config, speech: seq<bool>, a: seq<Segment>, b: seq<Segment>)
    requires Complete(c, speech, a) && Complete(c, speech, b)
    ensures a == b
  {
    if |a| <= |b| {
      SameSegments(c, speech, a, b, |a|);
      assert a[..|a|] == a;
      NoLonger(c, speech, b, a);
    } else {
      SameSegments(c, speech, a, b, |b|);
      assert b[..|b|] == b;
      NoLonger(c, speech, a, b);
    }
  }

  lemma {:induction false} EndsIncrease(c: Config, speech: seq<bool>, segments: seq<Segment>, i: nat, j: nat)
    requires Chain(c, speech, segments) && i < j < |segments|
    ensures segments[i].close < segments[j].from
    decreases j
  {
    ChainAt(c, speech, segments, j - 1);
    ChainAt(c, speech, segments, j);
    assert segments[j].from == segments[j - 1].close + 1;
    if i < j - 1 { EndsIncrease(c, speech, segments, i, j - 1); }
  }

  // Utterances are disjoint slices of the input, in order, and nothing is in two of them.
  lemma SlicesInOrder(c: Config, speech: seq<bool>, segments: seq<Segment>, i: nat, j: nat)
    requires Chain(c, speech, segments) && i < j < |segments|
    ensures Low(c, segments[i]) <= segments[i].close < Low(c, segments[j]) <= segments[j].close
  {
    EndsIncrease(c, speech, segments, i, j);
    ChainAt(c, speech, segments, i);
    ChainAt(c, speech, segments, j);
  }

  lemma {:induction false} CountSplit(speech: seq<bool>, lo: nat, mid: nat, hi: nat)
    requires lo <= mid <= hi <= |speech|
    ensures Count(speech, lo, hi) == Count(speech, lo, mid) + Count(speech, mid, hi)
    decreases hi
  {
    if hi > mid { CountSplit(speech, lo, mid, hi - 1); }
  }

  lemma {:induction false} CountAll(speech: seq<bool>, lo: nat, hi: nat)
    requires lo <= hi <= |speech| && AllSpeech(speech, lo, hi)
    ensures Count(speech, lo, hi) == hi - lo
    decreases hi
  {
    if hi > lo { CountAll(speech, lo, hi - 1); }
  }

  // Every utterance holds its whole onset run, so no leading speech is lost; a kept one holds at
  // least the minimum of speech; and its length is bounded.
  lemma SegmentShape(c: Config, speech: seq<bool>, s: Segment)
    requires Positive(c) && IsSegment(c, speech, s)
    ensures var lo, hi := Low(c, s), s.close + 1;
            && s.from <= lo <= s.onset + 1 - c.start && AllSpeech(speech, s.onset + 1 - c.start, s.onset + 1)
            && (Kept(c, speech, s.onset, hi) ==> Count(speech, lo, hi) >= c.minSpeech)
            && hi - lo <= (if c.maxFrames > c.preRoll + c.start + 1 then c.maxFrames else c.preRoll + c.start + 1)
  {
    var lo, hi, run := Low(c, s), s.close + 1, s.onset + 1 - c.start;
    CountSplit(speech, lo, run, hi);
    CountSplit(speech, run, s.onset + 1, hi);
    CountAll(speech, run, s.onset + 1);
    if s.close > s.onset + 1 {
      assert !CloseAt(c, speech, s.from, s.onset, s.close - 1);
    }
  }

  // n frames of speech from k on, and n frames of silence before k.
  predicate SpeechRun(speech: seq<bool>, k: int, n: nat) { AllSpeech(speech, k, k + n) }

  predicate SilentRun(speech: seq<bool>, k: int, n: nat) { NoSpeech(speech, k - n, k) }

  // Where an utterance starts and ends, frame by frame: the pre-roll reaches back as far as it may,
  // nothing before the onset was a run of speech, and it ends at the first hangover of silence or at
  // the length limit, whichever comes first. It is a blip when it holds too little speech.
  lemma SegmentEnds(c: Config, speech: seq<bool>, s: Segment)
    requires Positive(c) && IsSegment(c, speech, s)
    ensures var lo, hi, ideal := Low(c, s), s.close + 1, s.onset + 1 - c.start - c.preRoll;
            && (ideal <= s.from ==> lo == s.from) && (ideal >= s.from ==> lo == ideal)
            && (forall k :: s.from <= k && k + c.start <= s.onset ==> !SpeechRun(speech, k, c.start))
            && (SilentRun(speech, hi, c.silence) || hi - lo >= c.maxFrames)
            && (forall k :: s.onset + 1 < k < hi ==> !SilentRun(speech, k, c.silence) && k - lo < c.maxFrames)
            && (Kept(c, speech, s.onset, hi) <==> Count(speech, s.onset + 1 - c.start, hi) >= c.minSpeech)
  {
    var run := s.onset + 1 - c.start;
    assert speech[s.onset];
    forall k | s.from <= k && k + c.start <= s.onset ensures !SpeechRun(speech, k, c.start) {
      assert !OnsetAt(c, speech, s.from, k + c.start - 1);
    }
    forall k | s.onset + 1 < k < s.close + 1 ensures !SilentRun(speech, k, c.silence) && k - Low(c, s) < c.maxFrames {
      assert !CloseAt(c, speech, s.from, s.onset, k - 1);
    }
    CountSplit(speech, run, s.onset + 1, s.close + 1);
    CountAll(speech, run, s.onset + 1);
  }

  // ---------------------------------------------------------------- growing the stream

  lemma CountPrefix(speech: seq<bool>, b: bool, lo: nat, hi: nat)
    requires lo <= hi <= |speech|
    ensures Count(speech + [b], lo, hi) == Count(speech, lo, hi)
    decreases hi
  {
    if hi > lo { CountPrefix(speech, b, lo, hi - 1); }
  }

  // What was decided about earlier frames stays decided when one more frame arrives.
  lemma OnsetStable(c: Config, speech: seq<bool>, b: bool, from: nat, i: nat)
    requires i < |speech|
    ensures OnsetAt(c, speech + [b], from, i) <==> OnsetAt(c, speech, from, i)
  {
    var more := speech + [b];
    assert forall k :: 0 <= k < |speech| ==> more[k] == speech[k];
    if OnsetAt(c, more, from, i) {
      assert forall k :: i + 1 - c.start <= k < i + 1 && 0 <= k ==> more[k];
    }
  }

  lemma CloseStable(c: Config, speech: seq<bool>, b: bool, from: nat, onset: nat, j: nat)
    requires j < |speech|
    ensures CloseAt(c, speech + [b], from, onset, j) <==> CloseAt(c, speech, from, onset, j)
  {
    var more := speech + [b];
    assert forall k :: 0 <= k < |speech| ==> more[k] == speech[k];
  }

  lemma SegmentStable(c: Config, speech: seq<bool>, b: bool, s: Segment)
    requires IsSegment(c, speech, s)
    ensures IsSegment(c, speech + [b], s)
  {
    forall k | s.from <= k <= s.onset ensures OnsetAt(c, speech + [b], s.from, k) <==> OnsetAt(c, speech, s.from, k) {
      OnsetStable(c, speech, b, s.from, k);
    }
    forall k | s.onset < k <= s.close
      ensures CloseAt(c, speech + [b], s.from, s.onset, k) <==> CloseAt(c, speech, s.from, s.onset, k)
    {
      CloseStable(c, speech, b, s.from, s.onset, k);
    }
  }

  lemma {:induction false} ChainGrows(c: Config, speech: seq<bool>, b: bool, segments: seq<Segment>)
    requires Chain(c, speech, segments)
    ensures Chain(c, speech + [b], segments)
    decreases |segments|
  {
    if segments != [] {
      var n := |segments| - 1;
      ChainGrows(c, speech, b, segments[..n]);
      SegmentStable(c, speech, b, segments[n]);
    }
  }

  lemma ChainAppend(c: Config, speech: seq<bool>, segments: seq<Segment>, s: Segment)
    requires Chain(c, speech, segments) && IsSegment(c, speech, s) && s.from == End(segments)
    ensures Chain(c, speech, segments + [s])
  {
    assert (segments + [s])[..|segments|] == segments;
  }

  // ---------------------------------------------------------------- the machine

  function LastFew<T>(s: seq<T>, n: nat): seq<T> { if |s| <= n then s else s[|s| - n..] }

  // The invariant parts of the machine, over the stream since the last reset.

  ghost predicate Listening(c: Config, speech: seq<bool>, from: nat, run: nat) {
    && from <= |speech| && run < c.start && run <= |speech| - from && AllSpeech(speech, |speech| - run, |speech|)
    && (run == |speech| - from || !speech[|speech| - run - 1])
    && forall k :: from <= k < |speech| ==> !OnsetAt(c, speech, from, k)
  }

  ghost predicate Recording(c: Config, speech: seq<bool>, from: nat, onset: nat, trailing: nat, count: nat) {
    && from <= onset < |speech| && FirstOnset(c, speech, from, onset)
    && trailing < |speech| - onset && NoSpeech(speech, |speech| - trailing, |speech|)
    && (trailing == |speech| - 1 - onset || speech[|speech| - trailing - 1])
    && count == c.start + Count(speech, onset + 1, |speech|)
    && forall k :: onset < k < |speech| ==> !CloseAt(c, speech, from, onset, k)
  }

  // What an utterance cut off by the end of the stream is like: it holds its whole onset run, at
  // least the minimum of speech if it is kept, and no full hangover of silence; its length is bounded.
  ghost predicate IsTail(c: Config, speech: seq<bool>, from: nat, onset: nat) {
    && from <= onset < |speech|
    && var lo, hi := Begin(c, from, onset), |speech|;
       && from <= lo <= onset + 1 - c.start && AllSpeech(speech, onset + 1 - c.start, onset + 1)
       && (Kept(c, speech, onset, hi) ==> Count(speech, lo, hi) >= c.minSpeech)
       && !NoSpeech(speech, hi - c.silence, hi)
       && hi - lo <= (if c.maxFrames - 1 > c.preRoll + c.start then c.maxFrames - 1 else c.preRoll + c.start)
  }

  lemma TailShape(c: Config, speech: seq<bool>, from: nat, onset: nat, trailing: nat, count: nat)
    requires Positive(c) && Recording(c, speech, from, onset, trailing, count)
    ensures IsTail(c, speech, from, onset)
  {
    var lo, hi, run := Begin(c, from, onset), |speech|, onset + 1 - c.start;
    CountSplit(speech, lo, run, hi);
    CountSplit(speech, run, onset + 1, hi);
    CountAll(speech, run, onset + 1);
    assert speech[onset];
    if hi > onset + 1 { assert !CloseAt(c, speech, from, onset, hi - 1); }
  }

  // While listening: the new frame completes an onset exactly when the run is long enough.
  lemma ListenMore(c: Config, speech: seq<bool>, from: nat, run: nat, b: bool)
    requires Positive(c) && Listening(c, speech, from, run)
    ensures var run', more := if b then run + 1 else 0, speech + [b];
            if run' >= c.start then run' == c.start && FirstOnset(c, more, from, |speech|)
            else Listening(c, more, from, run')
  {
    var run', more, n := if b then run + 1 else 0, speech + [b], |speech|;
    assert forall k :: 0 <= k < n ==> more[k] == speech[k];
    forall k | from <= k < n ensures !OnsetAt(c, more, from, k) { OnsetStable(c, speech, b, from, k); }
    assert run' < n + 1 - from ==> !more[n - run'];
  }

  // While recording: the new frame closes the utterance exactly when a counter says so.
  lemma RecordMore(c: Config, speech: seq<bool>, from: nat, onset: nat, trailing: nat, count: nat, b: bool)
    requires Positive(c) && Recording(c, speech, from, onset, trailing, count)
    ensures var n, more := |speech|, speech + [b];
            var trailing' := if b then 0 else trailing + 1;
            var count' := if b then count + 1 else count;
            var long := n + 1 - Begin(c, from, onset) >= c.maxFrames;
            && count' == c.start + Count(more, onset + 1, n + 1)
            && if trailing' >= c.silence || long then IsSegment(c, more, Segment(from, onset, n))
               else Recording(c, more, from, onset, trailing', count')
  {
    var n, more := |speech|, speech + [b];
    var trailing' := if b then 0 else trailing + 1;
    assert forall k :: 0 <= k < n ==> more[k] == speech[k];
    CountPrefix(speech, b, onset + 1, n);
    forall k | from <= k <= onset ensures OnsetAt(c, more, from, k) <==> OnsetAt(c, speech, from, k) {
      OnsetStable(c, speech, b, from, k);
    }
    forall k | onset < k < n ensures !CloseAt(c, more, from, onset, k) { CloseStable(c, speech, b, from, onset, k); }
    if n - onset >= c.silence { TrailingIsHangover(more, n, onset, trailing', c.silence); }
  }

  lemma TrailingIsHangover(speech: seq<bool>, n: nat, onset: nat, trailing: nat, silence: nat)
    requires |speech| == n + 1 && onset < n && trailing <= n - onset && NoSpeech(speech, n + 1 - trailing, n + 1)
    requires trailing == n - onset || speech[n - trailing]
    requires 1 <= silence <= n - onset
    ensures NoSpeech(speech, n + 1 - silence, n + 1) <==> trailing >= silence
  {
    if trailing < silence { assert n + 1 - silence <= n - trailing < n + 1; }
  }

  lemma ListeningIsComplete(c: Config, speech: seq<bool>, segments: seq<Segment>, run: nat)
    requires Chain(c, speech, segments) && Listening(c, speech, End(segments), run)
    ensures Complete(c, speech, segments)
  {
  }

  lemma RecordingIsComplete(c: Config, speech: seq<bool>, segments: seq<Segment>, onset: nat, trailing: nat, count: nat)
    requires Chain(c, speech, segments) && Recording(c, speech, End(segments), onset, trailing, count)
    ensures Complete(c, speech, segments)
  {
    var from := End(segments);
    forall s | IsSegment(c, speech, s) && s.from == from ensures s.onset == onset {
      assert s.onset < onset ==> !OnsetAt(c, speech, from, s.onset);
      assert onset < s.onset ==> !OnsetAt(c, speech, from, onset);
    }
  }

  lemma RecordingStarts(c: Config, speech: seq<bool>, from: nat)
    requires Positive(c) && speech != [] && FirstOnset(c, speech, from, |speech| - 1)
    ensures Recording(c, speech, from, |speech| - 1, 0, c.start)
  {
  }

  lemma ListeningStarts(c: Config, speech: seq<bool>)
    requires Positive(c)
    ensures Listening(c, speech, |speech|, 0)
  {
  }

  // The rolling window over the frames from `from` on.
  lemma WindowMore<T>(input: seq<T>, from: nat, frame: T, few: nat)
    requires from <= |input|
    ensures LastFew(LastFew(input[from..], few) + [frame], few) == LastFew((input + [frame])[from..], few)
  {
    assert (input + [frame])[from..] == input[from..] + [frame];
  }

  // Once an onset is complete the window holds exactly the pre-roll and the onset run.
  lemma WindowSeeds<T>(c: Config, input: seq<T>, from: nat)
    requires from < |input|
    ensures LastFew(LastFew(input[from..], c.preRoll + c.start), c.preRoll + c.start) == input[Begin(c, from, |input| - 1)..]
  {
  }

  // One more frame heard while listening: either the onset is complete, or it goes on listening.
  lemma HearSpeech(c: Config, speech: seq<bool>, from: nat, run: nat, b: bool)
    requires Positive(c) && Listening(c, speech, from, run)
    ensures var run' := if b then run + 1 else 0;
            if run' >= c.start then run' == c.start && Recording(c, speech + [b], from, |speech|, 0, run')
            else Listening(c, speech + [b], from, run')
  {
    ListenMore(c, speech, from, run, b);
    if b && run + 1 >= c.start { RecordingStarts(c, speech + [b], from); }
  }

  // ... and the window follows; with a complete onset it is the seed of the buffer.
  lemma HearWindow<T>(c: Config, input: seq<T>, from: nat, context: seq<T>, frame: T)
    requires from <= |input| && context == LastFew(input[from..], c.preRoll + c.start)
    ensures var context' := LastFew(context + [frame], c.preRoll + c.start);
            && context' == LastFew((input + [frame])[from..], c.preRoll + c.start)
            && Begin(c, from, |input|) <= |input| + 1
            && LastFew(context', c.preRoll + c.start) == (input + [frame])[Begin(c, from, |input|)..]
  {
    WindowMore(input, from, frame, c.preRoll + c.start);
    WindowSeeds(c, input + [frame], from);
  }

  lemma SliceMore<T>(input: seq<T>, lo: nat, frame: T)
    requires lo <= |input|
    ensures (input + [frame])[lo..] == input[lo..] + [frame]
  {
  }

  class Machine<T> {
    const c: Config
    var context: seq<T>
    var inSpeech: bool
    var buffer: seq<T>
    var speechRun: nat
    var trailingSilence: nat
    var speechCount: nat
    // the stream since the last reset, its segmentation so far, and the onset being recorded
    ghost var input: seq<T>
    ghost var speech: seq<bool>
    ghost var segments: seq<Segment>
    ghost var onset: nat

    ghost predicate Valid()
      reads this
    {
      Chain(c, speech, segments) && Tracks()
    }

    // The fields say how far the segment after the last complete one has come.
    ghost predicate Tracks()
      reads this
    {
      && Positive(c) && |input| == |speech| && End(segments) <= |input|
      && if inSpeech then Captures() else Waits()
    }

    ghost predicate Captures()
      reads this
    {
      && Recording(c, speech, End(segments), onset, trailingSilence, speechCount)
      && Begin(c, End(segments), onset) <= |input| && buffer == input[Begin(c, End(segments), onset)..]
    }

    ghost predicate Waits()
      reads this
    {
      && Listening(c, speech, End(segments), speechRun)
      && End(segments) <= |input| && context == LastFew(input[End(segments)..], c.preRoll + c.start)
    }

    constructor (start: int, silence: int, minSpeech: int, maxFrames: int, preRoll: int)
      ensures Valid() && input == [] && segments == []
      ensures c == Config(AtLeast(start, 1), AtLeast(silence, 1), AtLeast(minSpeech, 1), AtLeast(maxFrames, 1), AtLeast(preRoll, 0))
    {
      c := Config(AtLeast(start, 1), AtLeast(silence, 1), AtLeast(minSpeech, 1), AtLeast(maxFrames, 1), AtLeast(preRoll, 0));
      context, inSpeech, buffer := [], false, [];
      speechRun, trailingSilence, speechCount := 0, 0, 0;
      input, speech, segments, onset := [], [], [], 0;
    }

    // The machine's segmentation is always the one complete segmentation of its input.
    lemma IsTheSegmentation()
      requires Valid()
      ensures Complete(c, speech, segments)
    {
      if inSpeech {
        RecordingIsComplete(c, speech, segments, onset, trailingSilence, speechCount);
      } else {
        ListeningIsComplete(c, speech, segments, speechRun);
      }
    }

    // One frame: it completes at most one segment, the one that closes at this frame, and that
    // segment's slice of the input is returned unless it is a blip.
    method Push(frame: T, isSpeech: bool) returns (utterance: Option<seq<T>>)
      requires Valid()
      modifies this
      ensures Valid() && input == old(input) + [frame] && speech == old(speech) + [isSpeech]
      ensures segments == old(segments)
              || (&& |segments| == |old(segments)| + 1 && segments[..|old(segments)|] == old(segments)
                  && segments[|old(segments)|].close == |old(input)|)
      ensures segments != old(segments) ==>
                End(old(segments)) <= Low(c, segments[|segments| - 1]) <= |old(input)| && End(segments) == |input|
      ensures utterance == if segments == old(segments) then None else Spoken(c, input, speech, segments[|segments| - 1])
    {
      ChainGrows(c, speech, isSpeech, segments);
      if !inSpeech {
        Listen(frame, isSpeech);
        return None;
      }
      utterance := Record(frame, isSpeech);
      if segments != old(segments) {
        ChainAppend(c, speech, old(segments), segments[|old(segments)|]);
        assert segments == old(segments) + [segments[|old(segments)|]];
      }
    }

    method Listen(frame: T, isSpeech: bool)
      requires Tracks() && !inSpeech
      modifies this
      ensures Tracks() && input == old(input) + [frame] && speech == old(speech) + [isSpeech] && segments == old(segments)
    {
      if isSpeech && speechRun + 1 >= c.start { Confirm(frame); } else { Wait(frame, isSpeech); }
    }

    method Wait(frame: T, isSpeech: bool)
      requires Tracks() && !inSpeech && (isSpeech ==> speechRun + 1 < c.start)
      modifies this
      ensures Tracks() && !inSpeech && segments == old(segments)
      ensures input == old(input) + [frame] && speech == old(speech) + [isSpeech]
    {
      HearSpeech(c, speech, End(segments), speechRun, isSpeech);
      HearWindow(c, input, End(segments), context, frame);
      Hear(frame, isSpeech);
    }

    method Confirm(frame: T)
      requires Tracks() && !inSpeech && speechRun + 1 >= c.start
      modifies this
      ensures Tracks() && inSpeech && segments == old(segments)
      ensures input == old(input) + [frame] && speech == old(speech) + [true]
    {
      hide Recording, Listening, LastFew, Begin, Count;
      HearSpeech(c, speech, End(segments), speechRun, true);
      HearWindow(c, input, End(segments), context, frame);
      Hear(frame, true);
      onset := |input| - 1;
      BeginUtterance();
    }

    method Hear(frame: T, isSpeech: bool)
      modifies `input, `speech, `context, `speechRun
      ensures input == old(input) + [frame] && speech == old(speech) + [isSpeech]
      ensures context == LastFew(old(context) + [frame], c.preRoll + c.start)
      ensures speechRun == if isSpeech then old(speechRun) + 1 else 0
    {
      input, speech := input + [frame], speech + [isSpeech];
      context := LastFew(context + [frame], c.preRoll + c.start);
      speechRun := if isSpeech then speechRun + 1 else 0;
    }

    method Record(frame: T, isSpeech: bool) returns (utterance: Option<seq<T>>)
      requires Tracks() && inSpeech
      modifies this
      ensures Tracks() && input == old(input) + [frame] && speech == old(speech) + [isSpeech]
      ensures var s := Segment(End(old(segments)), old(onset), |old(input)|);
              || (segments == old(segments) && utterance == None)
              || (segments == old(segments) + [s] && IsSegment(c, speech, s) && utterance == Spoken(c, input, speech, s))
    {
      ghost var from, n := End(segments), |input|;
      RecordMore(c, speech, from, onset, trailingSilence, speechCount, isSpeech);
      SliceMore(input, Begin(c, from, onset), frame);
      input, speech := input + [frame], speech + [isSpeech];
      CountFrame(frame, isSpeech);
      if trailingSilence < c.silence && |buffer| < c.maxFrames { return None; }
      utterance := Close(Segment(from, onset, n));
    }

    method CountFrame(frame: T, isSpeech: bool)
      modifies `buffer, `speechCount, `trailingSilence
      ensures buffer == old(buffer) + [frame]
      ensures speechCount == if isSpeech then old(speechCount) + 1 else old(speechCount)
      ensures trailingSilence == if isSpeech then 0 else old(trailingSilence) + 1
    {
      buffer := buffer + [frame];
      if isSpeech {
        speechCount := speechCount + 1;
        trailingSilence := 0;
      } else {
        trailingSilence := trailingSilence + 1;
      }
    }

    method Close(ghost s: Segment) returns (utterance: Option<seq<T>>)
      requires Positive(c) && |input| == |speech| == s.close + 1 && s.from == End(segments)
      requires IsSegment(c, speech, s) && buffer == input[Low(c, s)..]
      requires speechCount == c.start + Count(speech, s.onset + 1, s.close + 1)
      modifies this
      ensures Tracks() && input == old(input) && speech == old(speech)
      ensures segments == old(segments) + [s] && utterance == Spoken(c, input, speech, s)
    {
      ListeningStarts(c, speech);
      segments := segments + [s];
      assert input[Low(c, s)..s.close + 1] == buffer;
      utterance := Finish();
      assert LastFew(input[|input|..], c.preRoll + c.start) == [];
    }

    // The buffer starts with the onset run and the pre-roll before it.
    method BeginUtterance()
      requires Positive(c) && |input| == |speech| && End(segments) <= |input|
      requires Recording(c, speech, End(segments), onset, 0, speechRun)
      requires Begin(c, End(segments), onset) <= |input|
      requires LastFew(context, c.preRoll + speechRun) == input[Begin(c, End(segments), onset)..]
      modifies `inSpeech, `buffer, `speechCount, `trailingSilence
      ensures Tracks() && inSpeech
    {
      inSpeech := true;
      buffer := LastFew(context, c.preRoll + speechRun);
      speechCount := speechRun;
      trailingSilence := 0;
    }

    method Finish() returns (utterance: Option<seq<T>>)
      modifies `context, `inSpeech, `buffer, `speechRun, `trailingSilence, `speechCount
      ensures utterance == if old(speechCount) < c.minSpeech then None else Some(old(buffer))
      ensures !inSpeech && context == [] && speechRun == 0
    {
      var frames, count := buffer, speechCount;
      ResetSilence();
      utterance := if count < c.minSpeech then None else Some(frames);
    }

    method ResetSilence()
      modifies `context, `inSpeech, `buffer, `speechRun, `trailingSilence, `speechCount
      ensures !inSpeech && context == [] && speechRun == 0
    {
      inSpeech, buffer := false, [];
      speechRun, trailingSilence, speechCount := 0, 0, 0;
      context := [];
    }

    // The end of the stream: what is being recorded is returned up to its last frame.
    method Flush() returns (utterance: Option<seq<T>>)
      requires Valid()
      modifies this
      ensures Valid() && input == [] && speech == [] && segments == []
      ensures utterance == if old(inSpeech) && Kept(c, old(speech), old(onset), |old(input)|)
                           then Some(old(input)[Begin(c, End(old(segments)), old(onset))..]) else None
      ensures old(inSpeech) ==> IsTail(c, old(speech), End(old(segments)), old(onset))
      ensures old(inSpeech) ==> End(old(segments)) <= Begin(c, End(old(segments)), old(onset)) < |old(input)|
    {
      utterance := None;
      if inSpeech { TailShape(c, speech, End(segments), onset, trailingSilence, speechCount); }
      if inSpeech { utterance := Finish(); } else { ResetSilence(); }
      input, speech, segments := [], [], [];
    }

    // The half-duplex gate: everything in progress is discarded.
    method Reset()
      requires Positive(c)
      modifies this
      ensures Valid() && input == [] && speech == [] && segments == [] && !inSpeech
    {
      ResetSilence();
      input, speech, segments := [], [], [];
    }
  }

  // What a completed segment gives: its slice of the input, or nothing for a blip.
  function Spoken<T>(c: Config, input: seq<T>, speech: seq<bool>, s: Segment): Option<seq<T>> {
    if s.onset < s.close < |input| == |speech| && Low(c, s) <= s.close && Kept(c, speech, s.onset, s.close + 1)
    then Some(input[Low(c, s)..s.close + 1]) else None
  }
}
