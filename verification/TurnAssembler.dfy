// Joining utterances into turns, and the controller that says who holds the audio floor.
module TurnAssembler {
  import opened Base

  // The frames an utterance covers, as a half-open interval of the stream, and how long it lasted.
  datatype Span = Span(lo: nat, hi: nat, seconds: real)

  // Why a turn was committed: after that much silence, or because the stream ended.
  datatype Cause = Silent(silence: real) | AtEnd

  // What became of buffered texts: committed together as one turn, or dropped by a clear.
  datatype Settled = Committed(texts: seq<string>, spans: seq<Span>, cause: Cause) | Dropped(texts: seq<string>)

  // How long the utterances of a turn lasted together.
  function Length(spans: seq<Span>): real {
    if spans == [] then 0.0
    else
      var s := spans[|spans| - 1].seconds;
      Length(spans[..|spans| - 1]) + if s > 0.0 then s else 0.0
  }

  lemma LengthMore(spans: seq<Span>, span: Span)
    ensures Length(spans + [span]) == Length(spans) + if span.seconds > 0.0 then span.seconds else 0.0
  {
    assert (spans + [span])[..|spans|] == spans;
  }

  function Flatten(settled: seq<Settled>): seq<string> {
    if settled == [] then [] else Flatten(settled[..|settled| - 1]) + settled[|settled| - 1].texts
  }

  lemma FlattenMore(settled: seq<Settled>, s: Settled)
    ensures Flatten(settled + [s]) == Flatten(settled) + s.texts
  {
    assert (settled + [s])[..|settled|] == settled;
  }

  class Assembler {
    const turnGap: real
    const continuationGap: real
    const maxTurn: real
    const strip: string -> string            // text without the white space around it
    const unfinished: seq<string> -> bool    // whether the joined text ends on a word that expects more
    var parts: seq<string>
    var turnSeconds: real
    // where each part was heard, every text added so far, and what became of those no longer buffered
    ghost var spans: seq<Span>
    ghost var added: seq<string>
    ghost var settled: seq<Settled>

    // Each text added, in order, is in exactly one committed turn or dropped batch, or still buffered.
    ghost predicate Valid()
      reads this
    {
      && Flatten(settled) + parts == added && |spans| == |parts|
      && (forall i :: 0 <= i < |parts| ==> parts[i] != "")
      && (forall i :: 0 <= i < |settled| ==> Sound(settled[i]))
      && turnSeconds == Length(spans)
    }

    // Nothing empty is committed or dropped, and no turn is committed on silence before it is due.
    predicate Sound(s: Settled) {
      s.texts != [] && (s.Committed? && s.cause.Silent? ==> Due(s.texts, s.spans, s.cause.silence))
    }

    // A turn of these texts has waited for its gap, or has reached the length cap.
    predicate Due(texts: seq<string>, spans: seq<Span>, silence: real) {
      || (unfinished(texts) && silence >= continuationGap)
      || (!unfinished(texts) && silence >= turnGap)
      || Length(spans) >= maxTurn
    }

    constructor (turnGap: real, continuationGap: real, maxTurn: real, strip: string -> string, unfinished: seq<string> -> bool)
      ensures Valid() && parts == [] && settled == [] && added == []
      ensures this.turnGap == turnGap && this.continuationGap == continuationGap && this.maxTurn == maxTurn
      ensures this.strip == strip && this.unfinished == unfinished
    {
      this.turnGap, this.continuationGap, this.maxTurn := turnGap, continuationGap, maxTurn;
      this.strip, this.unfinished := strip, unfinished;
      parts, turnSeconds, spans, added, settled := [], 0.0, [], [], [];
    }

    // A text joins the turn, stripped, unless nothing is left of it.
    method Add(text: string, seconds: real, ghost lo: nat, ghost hi: nat)
      requires Valid()
      modifies `parts, `turnSeconds, `spans, `added
      ensures Valid() && settled == old(settled)
      ensures if strip(text) == ""
              then parts == old(parts) && spans == old(spans) && added == old(added) && turnSeconds == old(turnSeconds)
              else parts == old(parts) + [strip(text)] && added == old(added) + [strip(text)]
                   && spans == old(spans) + [Span(lo, hi, seconds)]
                   && turnSeconds == old(turnSeconds) + if seconds > 0.0 then seconds else 0.0
    {
      var stripped := strip(text);
      if stripped != "" {
        LengthMore(spans, Span(lo, hi, seconds));
        parts, spans, added := parts + [stripped], spans + [Span(lo, hi, seconds)], added + [stripped];
        turnSeconds := turnSeconds + if seconds > 0.0 then seconds else 0.0;
      }
    }

    // The floor is yielded exactly when something is buffered and its gap, or the length cap, is reached.
    method OnSilence(silence: real) returns (turn: Option<seq<string>>)
      requires Valid()
      modifies `parts, `turnSeconds, `spans, `settled
      ensures Valid() && added == old(added)
      ensures if old(parts) != [] && Due(old(parts), old(spans), silence)
              then turn == Some(old(parts)) && parts == [] && spans == []
                   && settled == old(settled) + [Committed(old(parts), old(spans), Silent(silence))]
              else turn == None && parts == old(parts) && spans == old(spans) && settled == old(settled)
    {
      if parts == [] { return None; }
      var gap := if unfinished(parts) then continuationGap else turnGap;
      if silence >= gap || turnSeconds >= maxTurn {
        turn := Commit(Silent(silence));
      } else {
        turn := None;
      }
    }

    method Flush() returns (turn: Option<seq<string>>)
      requires Valid()
      modifies `parts, `turnSeconds, `spans, `settled
      ensures Valid() && added == old(added) && parts == [] && spans == []
      ensures if old(parts) != []
              then turn == Some(old(parts)) && settled == old(settled) + [Committed(old(parts), old(spans), AtEnd)]
              else turn == None && settled == old(settled)
    {
      turn := None;
      if parts != [] { turn := Commit(AtEnd); }
    }

    // The buffer is emptied before the turn is handed on, so a turn is handed on once even if the
    // callback raises.
    method Commit(ghost cause: Cause) returns (turn: Option<seq<string>>)
      requires Valid() && parts != [] && (cause.Silent? ==> Due(parts, spans, cause.silence))
      modifies `parts, `turnSeconds, `spans, `settled
      ensures Valid() && parts == [] && spans == [] && added == old(added)
      ensures turn == Some(old(parts)) && settled == old(settled) + [Committed(old(parts), old(spans), cause)]
    {
      assert Length([]) == 0.0 && Sound(Committed(parts, spans, cause));
      hide Length, Flatten, Due, Sound;
      turn := Some(parts);
      FlattenMore(settled, Committed(parts, spans, cause));
      settled := settled + [Committed(parts, spans, cause)];
      parts, turnSeconds, spans := [], 0.0, [];
    }

    method Clear()
      requires Valid()
      modifies `parts, `turnSeconds, `spans, `settled
      ensures Valid() && parts == [] && spans == [] && added == old(added)
      ensures settled == if old(parts) == [] then old(settled) else old(settled) + [Dropped(old(parts))]
    {
      assert Length([]) == 0.0 && (parts != [] ==> Sound(Dropped(parts)));
      hide Length, Flatten, Due, Sound;
      if parts != [] {
        FlattenMore(settled, Dropped(parts));
        settled := settled + [Dropped(parts)];
      }
      parts, turnSeconds, spans := [], 0.0, [];
    }
  }

  // ---------------------------------------------------------------- the speech controller

  // The counter says exactly how many accepted utterances are queued or being spoken, so the floor
  // is held from the moment one is accepted until the last of them has ended.
  class SpeechController {
    const engineEnabled: bool
    var queue: seq<string>
    var failed: bool
    var inflight: int
    ghost var current: Option<string>    // taken by the speaker task and not finished

    ghost predicate Valid()
      reads this
    {
      inflight == |queue| + if current.Some? then 1 else 0
    }

    constructor (enabled: bool)
      ensures Valid() && queue == [] && current == None && !failed && engineEnabled == enabled
    {
      engineEnabled, queue, failed, inflight, current := enabled, [], false, 0, None;
    }

    method Speaking() returns (held: bool)
      requires Valid()
      ensures held <==> queue != [] || current.Some?
    {
      held := inflight > 0;
    }

    // `spoken` is the cleaned text; nothing is queued when it is empty or speech is off.
    method Submit(spoken: string)
      requires Valid()
      modifies `queue, `inflight
      ensures Valid() && queue == if engineEnabled && !failed && spoken != "" then old(queue) + [spoken] else old(queue)
    {
      if !engineEnabled || failed { return; }
      if spoken != "" {
        inflight := inflight + 1;
        queue := queue + [spoken];
      }
    }

    // Barge-in: the backlog goes; the utterance being spoken stays counted until it unwinds.
    method Interrupt()
      requires Valid()
      modifies `queue, `inflight
      ensures Valid() && queue == if engineEnabled && !failed then [] else old(queue)
    {
      if !engineEnabled || failed { return; }
      while queue != []
        invariant Valid()
        decreases |queue|
      {
        queue := queue[1..];
        inflight := inflight - 1;
      }
    }

    // The speaker task takes the oldest utterance; once failed it drops it at once.
    method TakeNext() returns (text: Option<string>)
      requires Valid() && queue != [] && current.None?
      modifies `queue, `inflight, `current
      ensures Valid() && queue == old(queue)[1..]
      ensures text == current == if failed then None else Some(old(queue)[0])
    {
      text := Some(queue[0]);
      queue := queue[1..];
      current := text;
      if failed {
        inflight := inflight - 1;
        text, current := None, None;
      }
    }

    // Playback ended: normally, by an error, which latches speech off, or by cancellation.
    method Finish(error: bool)
      requires Valid() && current.Some?
      modifies `failed, `inflight, `current
      ensures Valid() && current.None? && failed == (old(failed) || error)
    {
      if error { failed := true; }
      inflight := inflight - 1;
      current := None;
    }
  }
}
