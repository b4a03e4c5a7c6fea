/** Capturing two output streams of one child process under a shared byte limit. */
module Capture {
  datatype Stream = Stdout | Stderr

  /** One ready stream: what a read of it returned. No bytes is the end of the
      stream; a read may also find that there was nothing to read after all. */
  datatype Arrival = Arrival(stream: Stream, bytes: seq<bv8>, blocked: bool)

  /** One turn of the polling loop. */
  datatype Round = Round(cancelled: bool, expired: bool, arrivals: seq<Arrival>)

  datatype Completed = Completed(stdout: seq<bv8>, stderr: seq<bv8>, timedOut: bool, limited: bool, cancelled: bool)

  // ------------------------------------------------------- what a stream produced

  predicate Ended(arrivals: seq<Arrival>, s: Stream) {
    exists i :: 0 <= i < |arrivals| && arrivals[i].stream == s && !arrivals[i].blocked && arrivals[i].bytes == []
  }

  /** What the stream delivered, up to its end. */
  function Produced(arrivals: seq<Arrival>, s: Stream): seq<bv8> {
    if arrivals == [] then []
    else
      var k := |arrivals| - 1;
      Produced(arrivals[..k], s)
      + if arrivals[k].stream == s && !arrivals[k].blocked && !Ended(arrivals[..k], s) then arrivals[k].bytes else []
  }

  function Total(arrivals: seq<Arrival>): nat {
    |Produced(arrivals, Stdout)| + |Produced(arrivals, Stderr)|
  }

  function Flat(rounds: seq<Round>): seq<Arrival> {
    if rounds == [] then [] else Flat(rounds[..|rounds| - 1]) + rounds[|rounds| - 1].arrivals
  }

  lemma {:induction false} FlatPrefix(rounds: seq<Round>, i: nat, j: nat)
    requires i < |rounds| && j <= |rounds[i].arrivals|
    ensures Flat(rounds[..i]) + rounds[i].arrivals[..j] <= Flat(rounds)
    decreases |rounds|
  {
    var k := |rounds| - 1;
    if i == k {
      assert rounds[i].arrivals == rounds[i].arrivals[..j] + rounds[i].arrivals[j..];
    } else {
      assert rounds[..k][..i] == rounds[..i];
      FlatPrefix(rounds[..k], i, j);
    }
  }

  lemma OneMore(arrivals: seq<Arrival>, a: Arrival, s: Stream)
    ensures Produced(arrivals + [a], s)
            == Produced(arrivals, s) + if a.stream == s && !a.blocked && !Ended(arrivals, s) then a.bytes else []
    ensures Ended(arrivals + [a], s) <==> Ended(arrivals, s) || (a.stream == s && !a.blocked && a.bytes == [])
  {
    var more := arrivals + [a];
    assert more[..|arrivals|] == arrivals && more[|arrivals|] == a;
    if Ended(arrivals, s) {
      var i :| 0 <= i < |arrivals| && arrivals[i].stream == s && !arrivals[i].blocked && arrivals[i].bytes == [];
      assert more[i] == arrivals[i];
    }
  }

  /** What has been kept of what these arrivals delivered. */
  predicate Keeps(arrivals: seq<Arrival>, limit: nat, stdout: seq<bv8>, stderr: seq<bv8>, captured: nat,
      limited: bool) {
    && |stdout| + |stderr| == captured && stdout <= Produced(arrivals, Stdout) && stderr <= Produced(arrivals, Stderr)
    && (if limited then captured == limit < Total(arrivals)
        else captured <= limit && stdout == Produced(arrivals, Stdout) && stderr == Produced(arrivals, Stderr))
  }

  /** After `before`, the read `a` is too much: it is kept up to the limit. */
  predicate Cuts(before: seq<Arrival>, a: Arrival, limit: nat, stdout: seq<bv8>, stderr: seq<bv8>) {
    && !a.blocked && !Ended(before, a.stream)
    && Total(before) <= limit < Total(before) + |a.bytes|
    && var part := a.bytes[..limit - Total(before)];
       && stdout == Produced(before, Stdout) + (if a.stream == Stdout then part else [])
       && stderr == Produced(before, Stderr) + (if a.stream == Stderr then part else [])
  }

  /** Reads one ready stream. */
  method Take(a: Arrival, limit: nat, stdout: seq<bv8>, stderr: seq<bv8>, captured: nat, open: set<Stream>,
      ghost past: seq<Arrival>)
    returns (out: seq<bv8>, err: seq<bv8>, count: nat, still: set<Stream>, limited: bool)
    requires Keeps(past, limit, stdout, stderr, captured, false)
    requires forall s :: s in open <==> !Ended(past, s)
    ensures Keeps(past + [a], limit, out, err, count, limited)
    ensures limited ==> Cuts(past, a, limit, out, err)
    ensures forall s :: s in still <==> !Ended(past + [a], s)
  {
    out, err, count, still, limited := stdout, stderr, captured, open, false;
    OneMore(past, a, Stdout);
    OneMore(past, a, Stderr);
    if a.stream !in open || a.blocked {
      return;
    }
    if a.bytes == [] {
      still := open - {a.stream};
      return;
    }
    var chunk := a.bytes;
    if captured + |chunk| > limit {
      chunk := chunk[..limit - captured];
      count := limit;
      limited := true;
    } else {
      count := captured + |chunk|;
    }
    if a.stream == Stdout {
      out := stdout + chunk;
    } else {
      err := stderr + chunk;
    }
  }

  /** Reads everything one round found ready, unless the limit cuts it short. */
  method TakeRound(round: Round, limit: nat, stdout: seq<bv8>, stderr: seq<bv8>, captured: nat, open: set<Stream>,
                   ghost past: seq<Arrival>)
    returns (out: seq<bv8>, err: seq<bv8>, count: nat, still: set<Stream>, limited: bool, ghost taken: nat)
    requires Keeps(past, limit, stdout, stderr, captured, false)
    requires forall s :: s in open <==> !Ended(past, s)
    ensures taken <= |round.arrivals| && (!limited ==> taken == |round.arrivals|)
    ensures Keeps(past + round.arrivals[..taken], limit, out, err, count, limited)
    ensures limited ==> taken > 0 && Cuts(past + round.arrivals[..taken - 1], round.arrivals[taken - 1], limit, out, err)
    ensures forall s :: s in still <==> !Ended(past + round.arrivals[..taken], s)
  {
    out, err, count, still, limited, taken := stdout, stderr, captured, open, false, 0;
    assert past + round.arrivals[..0] == past;
    for j := 0 to |round.arrivals|
      invariant taken == j && !limited
      invariant Keeps(past + round.arrivals[..j], limit, out, err, count, false)
      invariant forall s :: s in still <==> !Ended(past + round.arrivals[..j], s)
    {
      var a := round.arrivals[j];
      assert past + round.arrivals[..j] + [a] == past + round.arrivals[..j + 1];
      out, err, count, still, limited := Take(a, limit, out, err, count, still, past + round.arrivals[..j]);
      taken := j + 1;
      if limited {
        return;
      }
    }
  }

  predicate BothEnded(arrivals: seq<Arrival>) {
    Ended(arrivals, Stdout) && Ended(arrivals, Stderr)
  }

  /** After these reads nothing stops this round or makes it the last. */
  predicate Passes(past: seq<Arrival>, round: Round, limit: nat) {
    !BothEnded(past) && !round.cancelled && !round.expired && Total(past + round.arrivals) <= limit
  }

  /** The polling goes on after each of the first `stop` rounds. */
  predicate GoesOn(rounds: seq<Round>, limit: nat, stop: nat)
    requires stop <= |rounds|
  {
    forall k :: 0 <= k < stop ==> Passes(Flat(rounds[..k]), rounds[k], limit)
  }

  predicate Uncut(done: Completed, arrivals: seq<Arrival>) {
    done.stdout == Produced(arrivals, Stdout) && done.stderr == Produced(arrivals, Stderr)
  }

  /** What a capture is when it stops in round `stop` after `taken` of its reads.
      Rounds that run out with a stream still open ran into the deadline. */
  predicate Ends(rounds: seq<Round>, limit: nat, stop: nat, taken: nat, done: Completed) {
    && stop <= |rounds| && GoesOn(rounds, limit, stop)
    && var past := Flat(rounds[..stop]);
       if BothEnded(past) then
         taken == 0 && Uncut(done, past) && !done.cancelled && !done.timedOut && !done.limited
       else if stop == |rounds| then
         taken == 0 && Uncut(done, past) && !done.cancelled && done.timedOut && !done.limited
       else if rounds[stop].cancelled then
         taken == 0 && Uncut(done, past) && done.cancelled && !done.timedOut && !done.limited
       else if rounds[stop].expired then
         taken == 0 && Uncut(done, past) && !done.cancelled && done.timedOut && !done.limited
       else
         && 0 < taken <= |rounds[stop].arrivals| && !done.cancelled && !done.timedOut && done.limited
         && Cuts(past + rounds[stop].arrivals[..taken - 1], rounds[stop].arrivals[taken - 1], limit, done.stdout, done.stderr)
  }

  /** Everything that was read. */
  function Consumed(rounds: seq<Round>, stop: nat, taken: nat): seq<Arrival>
    requires stop <= |rounds| && (taken > 0 ==> stop < |rounds| && taken <= |rounds[stop].arrivals|)
  {
    Flat(rounds[..stop]) + if taken == 0 then [] else rounds[stop].arrivals[..taken]
  }

  lemma {:induction false} LaterOnlyAdds(before: seq<Arrival>, more: seq<Arrival>, s: Stream)
    ensures Produced(before, s) <= Produced(before + more, s)
    ensures Ended(before, s) ==> Ended(before + more, s) && Produced(before + more, s) == Produced(before, s)
    decreases |more|
  {
    if more == [] {
      assert before + more == before;
    } else {
      var k := |more| - 1;
      assert before + more == (before + more[..k]) + [more[k]];
      LaterOnlyAdds(before, more[..k], s);
      OneMore(before + more[..k], more[k], s);
    }
  }

  lemma MoreIsMore(before: seq<Arrival>, all: seq<Arrival>)
    requires before <= all
    ensures Total(before) <= Total(all)
    ensures BothEnded(before) ==> BothEnded(all) && forall s :: Produced(all, s) == Produced(before, s)
  {
    assert all == before + all[|before|..];
    LaterOnlyAdds(before, all[|before|..], Stdout);
    LaterOnlyAdds(before, all[|before|..], Stderr);
    forall s | BothEnded(before) ensures Produced(all, s) == Produced(before, s) {
      LaterOnlyAdds(before, all[|before|..], s);
    }
  }

  lemma CutIsTooMuch(before: seq<Arrival>, a: Arrival, limit: nat, stdout: seq<bv8>, stderr: seq<bv8>)
    requires Cuts(before, a, limit, stdout, stderr)
    ensures Total(before + [a]) > limit
    ensures stdout <= Produced(before + [a], Stdout) && stderr <= Produced(before + [a], Stderr)
    ensures |stdout| + |stderr| == limit
  {
    OneMore(before, a, Stdout);
    OneMore(before, a, Stderr);
  }

  lemma LastTaken(past: seq<Arrival>, arrivals: seq<Arrival>, taken: nat)
    requires 0 < taken <= |arrivals|
    ensures past + arrivals[..taken - 1] + [arrivals[taken - 1]] == past + arrivals[..taken]
  {
  }

  /** What the captured output means: prefixes of what the streams delivered,
      together never more than the limit, cut exactly when more was read, and
      complete otherwise. */
  lemma CaptureMeans(rounds: seq<Round>, limit: nat, stop: nat, taken: nat, done: Completed)
    requires Ends(rounds, limit, stop, taken, done) && Total(Flat(rounds[..stop])) <= limit
    ensures var consumed := Consumed(rounds, stop, taken);
      && consumed <= Flat(rounds)
      && done.stdout <= Produced(consumed, Stdout) && done.stderr <= Produced(consumed, Stderr)
      && |done.stdout| + |done.stderr| == (if Total(consumed) <= limit then Total(consumed) else limit)
      && (done.limited <==> Total(consumed) > limit)
      && (!done.limited ==> Uncut(done, consumed))
      && (!done.limited && !done.timedOut && !done.cancelled ==> BothEnded(consumed))
  {
    var past := Flat(rounds[..stop]);
    assert past + [] == past;
    if stop < |rounds| {
      FlatPrefix(rounds, stop, taken);
    } else {
      assert rounds[..stop] == rounds;
    }
    if done.limited {
      var arrivals := rounds[stop].arrivals;
      LastTaken(past, arrivals, taken);
      CutIsTooMuch(past + arrivals[..taken - 1], arrivals[taken - 1], limit, done.stdout, done.stderr);
    }
  }

  /** A capture that stops in one round does not go on to a later one. */
  lemma StopsHere(rounds: seq<Round>, limit: nat, stop: nat, taken: nat, done: Completed, later: nat)
    requires Ends(rounds, limit, stop, taken, done) && stop < later <= |rounds|
    ensures !GoesOn(rounds, limit, later)
  {
    if GoesOn(rounds, limit, later) {
      var past, arrivals := Flat(rounds[..stop]), rounds[stop].arrivals;
      assert Passes(past, rounds[stop], limit);
      LastTaken(past, arrivals, taken);
      CutIsTooMuch(past + arrivals[..taken - 1], arrivals[taken - 1], limit, done.stdout, done.stderr);
      MoreIsMore(past + arrivals[..taken], past + arrivals);
      assert false;
    }
  }

  /** The rounds and the limit determine where a capture stops and what it is. */
  lemma CaptureIsUnique(rounds: seq<Round>, limit: nat, stop: nat, taken: nat, done: Completed, stop': nat, taken': nat,
      done': Completed)
    requires Ends(rounds, limit, stop, taken, done) && Ends(rounds, limit, stop', taken', done')
    ensures stop == stop' && taken == taken' && done == done'
  {
    if stop < stop' {
      StopsHere(rounds, limit, stop, taken, done, stop');
    } else if stop' < stop {
      StopsHere(rounds, limit, stop', taken', done', stop);
    } else if done.limited {
      CutsOnce(rounds, limit, stop, taken, done, taken', done');
    }
  }

  lemma CutsOnce(rounds: seq<Round>, limit: nat, stop: nat, taken: nat, done: Completed, taken': nat, done': Completed)
    requires Ends(rounds, limit, stop, taken, done) && Ends(rounds, limit, stop, taken', done') && done.limited
    ensures taken == taken'
  {
    var past, arrivals := Flat(rounds[..stop]), rounds[stop].arrivals;
    LastTaken(past, arrivals, taken);
    LastTaken(past, arrivals, taken');
    CutIsTooMuch(past + arrivals[..taken - 1], arrivals[taken - 1], limit, done.stdout, done.stderr);
    CutIsTooMuch(past + arrivals[..taken' - 1], arrivals[taken' - 1], limit, done'.stdout, done'.stderr);
    if taken < taken' {
      MoreIsMore(past + arrivals[..taken], past + arrivals[..taken' - 1]);
    } else if taken' < taken {
      MoreIsMore(past + arrivals[..taken'], past + arrivals[..taken - 1]);
    }
  }

  lemma {:induction false} GoesOnWithin(rounds: seq<Round>, limit: nat, stop: nat)
    requires stop <= |rounds| && GoesOn(rounds, limit, stop)
    ensures Total(Flat(rounds[..stop])) <= limit
  {
    if stop > 0 {
      assert Passes(Flat(rounds[..stop - 1]), rounds[stop - 1], limit);
      assert rounds[..stop][..stop - 1] == rounds[..stop - 1];
    }
  }

  /** A child that nobody cancels and that closes both streams in time is cut
      exactly when it delivered more than the limit, and is captured completely
      otherwise, whatever the reads were. */
  lemma CutExactlyWhenTooMuch(rounds: seq<Round>, limit: nat, stop: nat, taken: nat, done: Completed)
    requires Ends(rounds, limit, stop, taken, done) && BothEnded(Flat(rounds))
    requires forall i :: 0 <= i < |rounds| ==> !rounds[i].cancelled && !rounds[i].expired
    ensures done.limited <==> Total(Flat(rounds)) > limit
    ensures !done.limited ==> Uncut(done, Flat(rounds)) && !done.timedOut && !done.cancelled
  {
    GoesOnWithin(rounds, limit, stop);
    CaptureMeans(rounds, limit, stop, taken, done);
    assert rounds[..|rounds|] == rounds;
    MoreIsMore(Consumed(rounds, stop, taken), Flat(rounds));
  }

  /** The polling loop stops where, and with what, `Ends` says. However the reads
      of the two streams interleave, both captures are exact prefixes of what the
      streams delivered, together they never exceed the limit, and output is cut
      exactly when more than the limit was read; uncut captures are complete. */
  method CaptureOutput(rounds: seq<Round>, limit: nat)
    returns (done: Completed, ghost stop: nat, ghost taken: nat)
    ensures Ends(rounds, limit, stop, taken, done)
    ensures var consumed := Consumed(rounds, stop, taken);
      && consumed <= Flat(rounds)
      && done.stdout <= Produced(consumed, Stdout) && done.stderr <= Produced(consumed, Stderr)
      && |done.stdout| + |done.stderr| == (if Total(consumed) <= limit then Total(consumed) else limit)
      && (done.limited <==> Total(consumed) > limit)
      && (!done.limited ==> Uncut(done, consumed))
      && (!done.limited && !done.timedOut && !done.cancelled ==> BothEnded(consumed))
    ensures !(done.limited && done.timedOut) && !(done.limited && done.cancelled) && !(done.timedOut && done.cancelled)
  {
    done, stop, taken := Poll(rounds, limit);
    GoesOnWithin(rounds, limit, stop);
    CaptureMeans(rounds, limit, stop, taken, done);
  }

  lemma OpenMeans(open: set<Stream>, past: seq<Arrival>)
    requires forall s :: s in open <==> !Ended(past, s)
    ensures open == {} <==> BothEnded(past)
  {
    if s :| s in open {
      match s
      case Stdout =>
      case Stderr =>
    }
  }

  lemma NextRound(rounds: seq<Round>, limit: nat, i: nat, past: seq<Arrival>)
    requires i < |rounds| && GoesOn(rounds, limit, i) && past == Flat(rounds[..i]) && Passes(past, rounds[i], limit)
    ensures GoesOn(rounds, limit, i + 1) && Flat(rounds[..i + 1]) == past + rounds[i].arrivals
  {
    assert rounds[..i + 1][..i] == rounds[..i];
  }

  /** The first `i` rounds have been read, and nothing else. */
  ghost predicate Reading(rounds: seq<Round>, limit: nat, i: nat, past: seq<Arrival>) {
    i <= |rounds| && GoesOn(rounds, limit, i) && past == Flat(rounds[..i])
  }

  lemma EndsUncut(rounds: seq<Round>, limit: nat, i: nat, past: seq<Arrival>, done: Completed)
    requires Reading(rounds, limit, i, past) && Uncut(done, past) && !done.limited
    requires if BothEnded(past) then !done.cancelled && !done.timedOut
             else if i == |rounds| || (rounds[i].expired && !rounds[i].cancelled) then !done.cancelled && done.timedOut
             else rounds[i].cancelled && done.cancelled && !done.timedOut
    ensures Ends(rounds, limit, i, 0, done)
  {
  }

  lemma EndsCut(rounds: seq<Round>, limit: nat, i: nat, past: seq<Arrival>, read: nat, done: Completed)
    requires Reading(rounds, limit, i, past) && !BothEnded(past) && i < |rounds|
    requires !rounds[i].cancelled && !rounds[i].expired && 0 < read <= |rounds[i].arrivals|
    requires Cuts(past + rounds[i].arrivals[..read - 1], rounds[i].arrivals[read - 1], limit, done.stdout, done.stderr)
    requires !done.cancelled && !done.timedOut && done.limited
    ensures Ends(rounds, limit, i, read, done)
  {
  }

  method Poll(rounds: seq<Round>, limit: nat) returns (done: Completed, ghost stop: nat, ghost taken: nat)
    ensures Ends(rounds, limit, stop, taken, done)
  {
    var stdout, stderr: seq<bv8> := [], [];
    var captured, open := 0, {Stdout, Stderr};
    var i := 0;
    ghost var past: seq<Arrival> := [];
    forall s ensures s in open && !Ended(past, s) {
      assert s == Stdout || s == Stderr;
    }
    while open != {} && i < |rounds|
      invariant Reading(rounds, limit, i, past)
      invariant Keeps(past, limit, stdout, stderr, captured, false)
      invariant forall s :: s in open <==> !Ended(past, s)
      decreases |rounds| - i
    {
      OpenMeans(open, past);
      if rounds[i].cancelled {
        done := Completed(stdout, stderr, false, false, true);
        EndsUncut(rounds, limit, i, past, done);
        return done, i, 0;
      }
      if rounds[i].expired {
        done := Completed(stdout, stderr, true, false, false);
        EndsUncut(rounds, limit, i, past, done);
        return done, i, 0;
      }
      var limited;
      ghost var read;
      stdout, stderr, captured, open, limited, read := TakeRound(rounds[i], limit, stdout, stderr, captured, open, past);
      if limited {
        done := Completed(stdout, stderr, false, true, false);
        EndsCut(rounds, limit, i, past, read, done);
        return done, i, read;
      }
      assert rounds[i].arrivals[..read] == rounds[i].arrivals;
      NextRound(rounds, limit, i, past);
      past := past + rounds[i].arrivals;
      i := i + 1;
    }
    OpenMeans(open, past);
    done := Completed(stdout, stderr, open != {}, false, false);
    EndsUncut(rounds, limit, i, past, done);
    return done, i, 0;
  }

  /** Filling the limit is not the same as being cut: a child whose whole output
      is exactly the limit is captured completely and not reported as cut. */
  lemma ExactFitIsNotCut(rounds: seq<Round>, limit: nat, stop: nat, taken: nat, done: Completed)
    requires Ends(rounds, limit, stop, taken, done) && BothEnded(Flat(rounds)) && Total(Flat(rounds)) == limit
    requires forall i :: 0 <= i < |rounds| ==> !rounds[i].cancelled && !rounds[i].expired
    ensures |done.stdout| + |done.stderr| == limit && !done.limited && Uncut(done, Flat(rounds))
  {
    CutExactlyWhenTooMuch(rounds, limit, stop, taken, done);
  }
}
