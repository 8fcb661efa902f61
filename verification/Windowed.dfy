// The windowed voice detector: bytes arrive in frames of any size, the model sees full windows.
module Windowed {
  import opened Base

  type Byte = bv8

  // The consecutive full windows of a stream, and what is left over.
  function Windows(s: seq<Byte>, w: nat): seq<seq<Byte>>
    requires w > 0
    decreases |s|
  {
    if |s| < w then [] else [s[..w]] + Windows(s[w..], w)
  }

  function Rest(s: seq<Byte>, w: nat): seq<Byte>
    requires w > 0
    decreases |s|
  {
    if |s| < w then s else Rest(s[w..], w)
  }

  // Window k is bytes k*w to (k+1)*w, none is missed, and less than a window is left.
  lemma {:induction false} WindowAt(s: seq<Byte>, w: nat, k: nat)
    requires w > 0
    ensures k < |Windows(s, w)| <==> k * w + w <= |s|
    ensures k < |Windows(s, w)| ==> Windows(s, w)[k] == s[k * w..k * w + w]
    decreases |s|
  {
    if |s| >= w {
      if k > 0 {
        WindowAt(s[w..], w, k - 1);
        var o := (k - 1) * w;
        Negligible(k - 1, w);
        assert k * w == o + w;
        if o + w <= |s[w..]| { assert s[w..][o..o + w] == s[o + w..o + w + w]; }
      } else {
        assert s[0..w] == s[..w];
      }
    } else {
      Negligible(k, w);
    }
  }

  lemma Negligible(k: nat, w: nat)
    ensures k * w >= 0
  {
  }

  lemma {:induction false} LessThanAWindow(s: seq<Byte>, w: nat)
    requires w > 0
    ensures |Rest(s, w)| < w && Rest(s, w) == s[|s| - |Rest(s, w)|..]
    ensures Windows(Rest(s, w), w) == []
    decreases |s|
  {
    if |s| >= w { LessThanAWindow(s[w..], w); }
  }

  // Splitting the stream anywhere changes neither the windows nor what is left.
  lemma {:induction false} Splitting(a: seq<Byte>, b: seq<Byte>, w: nat)
    requires w > 0
    ensures Windows(a + b, w) == Windows(a, w) + Windows(Rest(a, w) + b, w)
    ensures Rest(a + b, w) == Rest(Rest(a, w) + b, w)
    decreases |a|
  {
    if |a| >= w {
      Splitting(a[w..], b, w);
      assert (a + b)[..w] == a[..w] && (a + b)[w..] == a[w..] + b;
    }
  }

  function Concat(chunks: seq<seq<Byte>>): seq<Byte> {
    if chunks == [] then [] else Concat(chunks[..|chunks| - 1]) + chunks[|chunks| - 1]
  }

  // What pushing the chunks one after the other leaves in the buffer, and the windows scored.
  function Held(chunks: seq<seq<Byte>>, w: nat): seq<Byte>
    requires w > 0
  {
    if chunks == [] then [] else Rest(Held(chunks[..|chunks| - 1], w) + chunks[|chunks| - 1], w)
  }

  function Scored(chunks: seq<seq<Byte>>, w: nat): seq<seq<Byte>>
    requires w > 0
  {
    if chunks == [] then []
    else
      var before := chunks[..|chunks| - 1];
      Scored(before, w) + Windows(Held(before, w) + chunks[|chunks| - 1], w)
  }

  // However the bytes are cut into pushes: the windows scored, and the part of one that is held,
  // are those of the bytes as a whole.
  lemma {:induction false} AnyChunks(chunks: seq<seq<Byte>>, w: nat)
    requires w > 0
    ensures Scored(chunks, w) == Windows(Concat(chunks), w) && Held(chunks, w) == Rest(Concat(chunks), w)
  {
    if chunks != [] {
      var before := chunks[..|chunks| - 1];
      AnyChunks(before, w);
      Splitting(Concat(before), chunks[|chunks| - 1], w);
    }
  }

  function Sum(xs: seq<real>): real { if xs == [] then 0.0 else Sum(xs[..|xs| - 1]) + xs[|xs| - 1] }

  function Scores(score: seq<Byte> -> real, windows: seq<seq<Byte>>): seq<real> {
    seq(|windows|, i requires 0 <= i < |windows| => score(windows[i]))
  }

  function Verdict(score: seq<Byte> -> real, windows: seq<seq<Byte>>, threshold: real): bool
    requires windows != []
  {
    Sum(Scores(score, windows)) / |windows| as real >= threshold
  }

  lemma {:induction false} SumSplits(a: seq<real>, b: seq<real>)
    ensures Sum(a + b) == Sum(a) + Sum(b)
    ensures forall x: real :: Sum([x]) == x
  {
    forall x: real ensures Sum([x]) == x { assert [x][..0] == []; }
    if b == [] {
      assert a + b == a;
    } else {
      SumSplits(a, b[..|b| - 1]);
      assert (a + b)[..|a + b| - 1] == a + b[..|b| - 1];
    }
  }

  lemma {:induction false} SumBounds(xs: seq<real>, threshold: real)
    requires xs != []
    ensures (forall i :: 0 <= i < |xs| ==> xs[i] >= threshold) ==> Sum(xs) >= threshold * |xs| as real
    ensures (forall i :: 0 <= i < |xs| ==> xs[i] < threshold) ==> Sum(xs) < threshold * |xs| as real
  {
    var n := |xs| - 1;
    if n == 0 {
      assert xs[..0] == [];
    } else {
      SumBounds(xs[..n], threshold);
      assert threshold * |xs| as real == threshold * n as real + threshold;
    }
  }

  lemma Mean(sum: real, n: real, threshold: real)
    requires n > 0.0
    ensures sum / n >= threshold <==> sum >= threshold * n
  {
    var q := sum / n;
    assert q * n == sum && (q - threshold) * n == q * n - threshold * n;
  }

  // The verdict is that of the average, which the sum of the scores decides; so it is speech when every
  // window scores at least the threshold, and no speech when every one scores less.
  lemma VerdictMeans(score: seq<Byte> -> real, windows: seq<seq<Byte>>, threshold: real)
    requires windows != []
    ensures var xs := seq(|windows|, i requires 0 <= i < |windows| => score(windows[i]));
            Verdict(score, windows, threshold) <==> Sum(xs) >= threshold * |windows| as real
    ensures (forall i :: 0 <= i < |windows| ==> score(windows[i]) >= threshold) ==> Verdict(score, windows, threshold)
    ensures (forall i :: 0 <= i < |windows| ==> score(windows[i]) < threshold) ==> !Verdict(score, windows, threshold)
  {
    var xs := Scores(score, windows);
    assert xs == seq(|windows|, i requires 0 <= i < |windows| => score(windows[i]));
    SumBounds(xs, threshold);
    Mean(Sum(xs), |windows| as real, threshold);
  }

  class Detector {
    const window: nat
    const threshold: real
    const score: seq<Byte> -> real
    var buffer: seq<Byte>
    var last: bool
    // every byte and every window scored since the last reset
    ghost var fed: seq<Byte>
    ghost var scored: seq<seq<Byte>>

    ghost predicate Valid()
      reads this
    {
      window > 0 && scored == Windows(fed, window) && buffer == Rest(fed, window) && |buffer| < window
    }

    constructor (samples: nat, threshold: real, score: seq<Byte> -> real)
      requires samples > 0
      ensures Valid() && fed == [] && !last
      ensures window == 2 * samples && this.threshold == threshold && this.score == score
    {
      window, this.threshold, this.score := 2 * samples, threshold, score;
      buffer, last, fed, scored := [], false, [], [];
    }

    // However the bytes were split into pushes, the windows scored are those of their concatenation.
    method Push(pcm: seq<Byte>) returns (speech: bool)
      requires Valid()
      modifies this
      ensures Valid() && fed == old(fed) + pcm
      ensures var windows := Windows(old(buffer) + pcm, window);
              && scored == old(scored) + windows
              && speech == last
              && last == (if windows == [] then old(last) else Verdict(score, windows, threshold))
    {
      Splitting(fed, pcm, window);
      LessThanAWindow(fed + pcm, window);
      buffer := buffer + pcm;
      var probs: seq<real> := [];
      ghost var all := Windows(buffer, window);
      ghost var done: seq<seq<Byte>> := [];
      while |buffer| >= window
        invariant done + Windows(buffer, window) == all
        invariant probs == Scores(score, done)
        invariant Rest(buffer, window) == Rest(old(buffer) + pcm, window)
        invariant fed == old(fed) && scored == old(scored) && last == old(last)
        decreases |buffer|
      {
        var head := buffer[..window];
        buffer := buffer[window..];
        probs := probs + [score(head)];
        done := done + [head];
      }
      assert done == all;
      if probs != [] { last := Sum(probs) / |probs| as real >= threshold; }
      fed, scored := fed + pcm, scored + all;
      speech := last;
    }

    method Reset()
      requires window > 0
      modifies this
      ensures Valid() && fed == [] && !last
    {
      buffer, last, fed, scored := [], false, [], [];
    }
  }
}
