/** One server connection: the recovery hand-over, then a loop over broadcasts and recovery ticks. */
module CollaborationConnection {
  import opened Wrappers
  import opened WorkingDocument
  import opened Sequences

  datatype Frame =
    | Hello
    | SnapshotFrame(snapshot: Snapshot)
    | UpdateFrame(update: Update)
    | Ready(latest: nat)
    | TextFrame

  function UpdateFrames(updates: seq<Update>): (frames: seq<Frame>)
    ensures |frames| == |updates|
    ensures forall i | 0 <= i < |updates| :: frames[i] == UpdateFrame(updates[i])
  {
    if updates == [] then []
    else UpdateFrames(updates[..|updates| - 1]) + [UpdateFrame(updates[|updates| - 1])]
  }

  function RecoveryFrames(r: Recovery): seq<Frame> {
    [Hello] + (if r.snapshot.Some? then [SnapshotFrame(r.snapshot.value)] else []) +
    UpdateFrames(r.updates) + [Ready(r.latest)]
  }

  // What one round of the select loop sees. A read that fails is None.
  datatype Select =
    | ContextDone
    | Tick(authorized: bool, recovery: Option<Recovery>)
    | Message(authorized: bool, frame: Frame)
    | Unreadable
    | ChannelClosed

  // The durable sequence the connection vouches for once this round is over.
  function Advance(sequence: nat, select: Select): nat {
    match select
    case Tick(true, Some(r)) => if r.active && r.latest > sequence then r.latest else sequence
    case Message(_, UpdateFrame(u)) => if u.sequence == sequence + 1 then u.sequence else sequence
    case Message(_, SnapshotFrame(s)) => if s.upTo == sequence + 1 then s.upTo else sequence
    case _ => sequence
  }

  // The frames this round writes when the socket takes them.
  function Output(sequence: nat, select: Select): seq<Frame> {
    match select
    case Tick(true, Some(r)) => if r.active && r.latest > sequence then RecoveryFrames(r) else []
    case Message(true, frame) => [frame]
    case _ => []
  }

  predicate StaysOpen(select: Select) {
    match select
    case Tick(authorized, recovery) => authorized && recovery.Some? && recovery.value.active
    case Message(authorized, _) => authorized
    case _ => false
  }

  // ---- What a round does, said of the round itself ----

  // The rounds that close the connection: the context or the channel ended, a message could not be read,
  // the actor may no longer edit, or the document could not be loaded or is no longer active.
  predicate Closes(round: Select) {
    || round.ContextDone? || round.Unreadable? || round.ChannelClosed?
    || (round.Tick? && (!round.authorized || round.recovery.None? || !round.recovery.value.active))
    || (round.Message? && !round.authorized)
  }

  // A tick that found durable updates past this sequence.
  predicate Newer(round: Select, sequence: nat) {
    round.Tick? && !Closes(round) && round.recovery.value.latest > sequence
  }

  // A frame of the recovery read by a tick.
  predicate OfRecovery(frame: Frame, r: Recovery) {
    || frame == Hello || frame == Ready(r.latest)
    || (frame.SnapshotFrame? && Some(frame.snapshot) == r.snapshot)
    || (frame.UpdateFrame? && frame.update in r.updates)
  }

  // A frame this round may write.
  predicate Sends(round: Select, sequence: nat, frame: Frame) {
    || (round.Message? && round.authorized && frame == round.frame)
    || (Newer(round, sequence) && OfRecovery(frame, round.recovery.value))
  }

  // A message that carries the update right behind this sequence.
  predicate Follows(round: Select, sequence: nat) {
    && round.Message?
    && ((round.frame.UpdateFrame? && round.frame.update.sequence == sequence + 1)
        || (round.frame.SnapshotFrame? && round.frame.snapshot.upTo == sequence + 1))
  }

  /** A round closes the connection without writing, or writes the message it got, or all of a recovery
      that has something newer; and only the next update or such a recovery moves the sequence. */
  lemma RoundSays(sequence: nat, round: Select)
    ensures StaysOpen(round) <==> !Closes(round)
    ensures Closes(round) ==> Output(sequence, round) == []
    ensures round.Message? && !Closes(round) ==> Output(sequence, round) == [round.frame]
    ensures round.Tick? && !Closes(round) ==>
      var r := round.recovery.value;
      Output(sequence, round) ==
        if Newer(round, sequence) then
          [Hello] + (if r.snapshot.Some? then [SnapshotFrame(r.snapshot.value)] else [])
          + seq(|r.updates|, i requires 0 <= i < |r.updates| => UpdateFrame(r.updates[i])) + [Ready(r.latest)]
        else []
    ensures forall frame <- Output(sequence, round) :: Sends(round, sequence, frame)
    ensures !Newer(round, sequence) && !Follows(round, sequence) && !Closes(round) ==>
      Advance(sequence, round) == sequence
    ensures Newer(round, sequence) ==> Advance(sequence, round) == round.recovery.value.latest
    ensures Follows(round, sequence) ==> Advance(sequence, round) == sequence + 1
  {
    if round.Tick? && !Closes(round) {
      var updates := round.recovery.value.updates;
      assert UpdateFrames(updates) == seq(|updates|, i requires 0 <= i < |updates| => UpdateFrame(updates[i]));
    }
  }

  // The rounds before the first one that closes the connection, folded.
  function SequenceAfter(sequence: nat, script: seq<Select>): nat {
    if script == [] then sequence
    else Advance(SequenceAfter(sequence, script[..|script| - 1]), script[|script| - 1])
  }

  function OutputAfter(sequence: nat, script: seq<Select>): seq<Frame> {
    if script == [] then []
    else
      var before := script[..|script| - 1];
      OutputAfter(sequence, before) + Output(SequenceAfter(sequence, before), script[|script| - 1])
  }

  // Sequence and output are the folds of these rounds over a socket that held `base`.
  predicate Reached(base: seq<Frame>, start: nat, script: seq<Select>, sequence: nat, written: seq<Frame>) {
    sequence == SequenceAfter(start, script) && written == base + OutputAfter(start, script)
  }

  // All of the first k rounds was written, and at most a prefix of round k.
  predicate CutShort(base: seq<Frame>, start: nat, script: seq<Select>, k: nat, written: seq<Frame>)
    requires k < |script|
  {
    base + OutputAfter(start, script[..k]) <= written <= base + OutputAfter(start, script[..k + 1])
  }

  // One of the first n rounds sends this frame, at the sequence it meets.
  ghost predicate SentIn(start: nat, script: seq<Select>, n: nat, frame: Frame)
    requires n <= |script|
  {
    exists i | 0 <= i < n :: Sends(script[i], SequenceAfter(start, script[..i]), frame)
  }

  lemma SentInPrefix(start: nat, script: seq<Select>, n: nat, frame: Frame)
    requires n <= |script| && SentIn(start, script[..n], n, frame)
    ensures SentIn(start, script, n, frame)
  {
    var i :| 0 <= i < n && Sends(script[..n][i], SequenceAfter(start, script[..n][..i]), frame);
    assert script[..n][..i] == script[..i];
  }

  lemma {:induction false} OutputIsSent(start: nat, script: seq<Select>)
    ensures forall frame <- OutputAfter(start, script) :: SentIn(start, script, |script|, frame)
  {
    if script != [] {
      var before, n := script[..|script| - 1], |script| - 1;
      OutputIsSent(start, before);
      RoundSays(SequenceAfter(start, before), script[n]);
      forall frame <- OutputAfter(start, script) ensures SentIn(start, script, |script|, frame) {
        if frame in OutputAfter(start, before) {
          SentInPrefix(start, script, n, frame);
          assert SentIn(start, script, n, frame);
        } else {
          assert Sends(script[n], SequenceAfter(start, script[..n]), frame);
        }
      }
    }
  }

  // Whatever was written behind `base` was sent by one of these rounds.
  ghost predicate SentBy(base: seq<Frame>, start: nat, script: seq<Select>, rounds: nat, written: seq<Frame>)
    requires rounds <= |script|
  {
    base <= written && forall frame <- written[|base|..] :: SentIn(start, script, rounds, frame)
  }

  lemma PrefixIsSent(base: seq<Frame>, start: nat, script: seq<Select>, n: nat, written: seq<Frame>)
    requires n <= |script| && base <= written <= base + OutputAfter(start, script[..n])
    ensures SentBy(base, start, script, n, written)
  {
    var output := OutputAfter(start, script[..n]);
    OutputIsSent(start, script[..n]);
    assert (base + output)[|base|..] == output;
    assert written[|base|..] <= output;
    forall frame <- written[|base|..] ensures SentIn(start, script, n, frame) {
      assert frame in output;
      SentInPrefix(start, script, n, frame);
    }
  }

  // A round that closes the connection ends the output.
  lemma ClosedMeansDone(base: seq<Frame>, start: nat, script: seq<Select>, k: nat, written: seq<Frame>)
    requires k < |script| && CutShort(base, start, script, k, written) && Closes(script[k])
    ensures written == base + OutputAfter(start, script[..k])
  {
    OneMoreRound(start, script, k);
    RoundSays(SequenceAfter(start, script[..k]), script[k]);
    assert OutputAfter(start, script[..k]) + [] == OutputAfter(start, script[..k]);
  }

  lemma AfterCut(base: seq<Frame>, start: nat, script: seq<Select>, k: nat, written: seq<Frame>)
    requires k < |script| && CutShort(base, start, script, k, written)
    ensures SentBy(base, start, script, k + 1, written)
    ensures Closes(script[k]) ==> written == base + OutputAfter(start, script[..k])
  {
    PrefixIsSent(base, start, script, k + 1, written);
    if Closes(script[k]) {
      ClosedMeansDone(base, start, script, k, written);
    }
  }

  lemma OneMoreRound(start: nat, script: seq<Select>, k: nat)
    requires k < |script|
    ensures var before, after := script[..k], script[..k + 1];
            && SequenceAfter(start, after) == Advance(SequenceAfter(start, before), script[k])
            && OutputAfter(start, after) == OutputAfter(start, before) + Output(SequenceAfter(start, before), script[k])
  {
    assert script[..k + 1][..k] == script[..k];
  }

  // Broadcasts of these updates, each authorized.
  function Messages(updates: seq<Update>): seq<Select> {
    if updates == [] then []
    else Messages(updates[..|updates| - 1]) + [Message(true, UpdateFrame(updates[|updates| - 1]))]
  }

  /** When broadcasts come in order, the sequence keeps up with them: at the end of them a tick whose
      recovery finds nothing newer writes nothing. */
  lemma {:induction false} InOrderKeepsUp(start: nat, updates: seq<Update>, recovery: Recovery)
    requires forall i | 0 <= i < |updates| :: updates[i].sequence == start + 1 + i
    ensures SequenceAfter(start, Messages(updates)) == start + |updates|
    ensures OutputAfter(start, Messages(updates)) == UpdateFrames(updates)
    ensures recovery.latest <= start + |updates| ==>
      Output(SequenceAfter(start, Messages(updates)), Tick(true, Some(recovery))) == []
  {
    if updates != [] {
      var earlier := updates[..|updates| - 1];
      InOrderKeepsUp(start, earlier, recovery);
      assert Messages(updates)[..|Messages(earlier)|] == Messages(earlier);
    }
  }

  class Connection {
    var sequence: nat
    // Everything written so far, and how many more writes the socket will take.
    var written: seq<Frame>
    var budget: nat

    constructor (budget: nat)
      ensures sequence == 0 && written == [] && this.budget == budget
    {
      sequence, written, this.budget := 0, [], budget;
    }

    method WriteSocket(frame: Frame) returns (ok: bool)
      modifies this
      ensures sequence == old(sequence)
      ensures ok == (old(budget) > 0)
      ensures ok ==> written == old(written) + [frame] && budget == old(budget) - 1
      ensures !ok ==> written == old(written) && budget == old(budget)
    {
      ok := budget > 0;
      if ok {
        written, budget := written + [frame], budget - 1;
      }
    }

    /** writeRecovery: hello, the snapshot if there is one, every update in order, ready. A failing
        socket leaves a prefix of that. */
    method WriteRecovery(r: Recovery) returns (ok: bool)
      modifies this
      ensures sequence == old(sequence)
      ensures ok == (old(budget) >= |RecoveryFrames(r)|)
      ensures ok ==> written == old(written) + RecoveryFrames(r) && budget == old(budget) - |RecoveryFrames(r)|
      ensures !ok ==> written == old(written) + RecoveryFrames(r)[..old(budget)]
    {
      var head := [Hello] + if r.snapshot.Some? then [SnapshotFrame(r.snapshot.value)] else [];
      var updates := UpdateFrames(r.updates);
      assert RecoveryFrames(r) == head + updates + [Ready(r.latest)];
      ok := WriteSocket(Hello);
      if !ok { return; }
      if r.snapshot.Some? {
        ok := WriteSocket(SnapshotFrame(r.snapshot.value));
        if !ok {
          assert RecoveryFrames(r)[..1] == [Hello];
          return;
        }
      }
      assert written == old(written) + head;
      for i := 0 to |r.updates|
        invariant sequence == old(sequence)
        invariant budget == old(budget) - |head| - i
        invariant written == old(written) + (head + updates[..i])
      {
        ok := WriteSocket(UpdateFrame(r.updates[i]));
        if !ok {
          assert RecoveryFrames(r)[..|head| + i] == head + updates[..i];
          return;
        }
        assert head + updates[..i + 1] == (head + updates[..i]) + [UpdateFrame(r.updates[i])];
      }
      assert updates[..|updates|] == updates;
      ok := WriteSocket(Ready(r.latest));
      if !ok {
        assert RecoveryFrames(r)[..|head| + |updates|] == head + updates;
      }
    }

    // One round of the select loop; false when the loop returns.
    method Round(select: Select) returns (open: bool)
      modifies this
      ensures open <==> StaysOpen(select) && |Output(old(sequence), select)| <= old(budget)
      ensures open ==> sequence == Advance(old(sequence), select)
      ensures open ==> written == old(written) + Output(old(sequence), select)
      ensures old(written) <= written <= old(written) + Output(old(sequence), select)
    {
      match select {
        case Tick(authorized, recovery) =>
          if !authorized || recovery.None? || !recovery.value.active {
            return false;
          }
          if recovery.value.latest > sequence {
            open := WriteRecovery(recovery.value);
            if !open { return; }
            sequence := recovery.value.latest;
          }
          return true;
        case Message(authorized, frame) =>
          if frame.UpdateFrame? && frame.update.sequence == sequence + 1 {
            sequence := frame.update.sequence;
          } else if frame.SnapshotFrame? && frame.snapshot.upTo == sequence + 1 {
            sequence := frame.snapshot.upTo;
          }
          if !authorized {
            return false;
          }
          open := WriteSocket(frame);
        case _ =>
          return false;
      }
    }

    // Round k of a script, measured from the start of the loop.
    method ScriptRound(ghost base: seq<Frame>, ghost start: nat, script: seq<Select>, k: nat) returns (open: bool)
      requires k < |script|
      requires Reached(base, start, script[..k], sequence, written)
      modifies this
      ensures open ==> StaysOpen(script[k])
      ensures open ==> Reached(base, start, script[..k + 1], sequence, written)
      ensures CutShort(base, start, script, k, written)
    {
      ghost var done, output := OutputAfter(start, script[..k]), Output(sequence, script[k]);
      OneMoreRound(start, script, k);
      Associate(base, done, output);
      open := Round(script[k]);
    }

    /** writeBroadcasts over a script of select rounds. It runs until the first round that closes the
        connection or overruns the socket; sequence and output are the folds of the rounds before it,
        and of the closing round at most a prefix is written. */
    method WriteBroadcasts(script: seq<Select>, start: nat) returns (rounds: nat)
      modifies this
      ensures rounds <= |script|
      ensures forall i | 0 <= i < rounds :: StaysOpen(script[i])
      ensures rounds == |script| ==> Reached(old(written), start, script, sequence, written)
      ensures rounds < |script| ==> CutShort(old(written), start, script, rounds, written)
      ensures forall i | 0 <= i < rounds :: !Closes(script[i])
      ensures rounds < |script| && Closes(script[rounds]) ==>
        written == old(written) + OutputAfter(start, script[..rounds])
      ensures SentBy(old(written), start, script, if rounds < |script| then rounds + 1 else rounds, written)
    {
      sequence := start;
      rounds := 0;
      while rounds < |script|
        invariant rounds <= |script|
        invariant forall i | 0 <= i < rounds :: StaysOpen(script[i]) && !Closes(script[i])
        invariant Reached(old(written), start, script[..rounds], sequence, written)
      {
        RoundSays(sequence, script[rounds]);
        var open := ScriptRound(old(written), start, script, rounds);
        if !open {
          AfterCut(old(written), start, script, rounds, written);
          return;
        }
        rounds := rounds + 1;
      }
      assert script[..|script|] == script;
      PrefixIsSent(old(written), start, script, |script|, written);
    }
  }
}
