/** The line that the ordered messages of a channel form through `after_message_id`.

    The constraints of the schema do not imply this shape (see `ConstraintsAllowACycle`);
    it is kept by the statements, starting from the table that holds only the nil row. */
module Lines {
  import opened Schema

  predicate Ordered(msgs: Msgs, c: Channel, id: Id) {
    id in msgs && id != NIL && msgs[id].channel == c && msgs[id].after.Some?
  }

  function PredecessorIn(line: seq<Id>, i: nat): Id
    requires i < |line|
  {
    if i == 0 then NIL else line[i - 1]
  }

  /** `line` lists the ordered messages of `c`, each once, and each waits for the one before it. */
  ghost predicate IsLine(msgs: Msgs, c: Channel, line: seq<Id>) {
    && (forall i, j | 0 <= i < j < |line| :: line[i] != line[j])
    && (forall i | 0 <= i < |line| :: Ordered(msgs, c, line[i]))
    && (forall id | Ordered(msgs, c, id) :: id in line)
    && (forall i {:trigger PredecessorIn(line, i)} | 0 <= i < |line| ::
          msgs[line[i]].after == Some(PredecessorIn(line, i)))
  }

  ghost predicate HasLine(msgs: Msgs, c: Channel) {
    exists line :: IsLine(msgs, c, line)
  }

  /** The shape of `mq_msgs`: the nil row is there and waits for nothing, and every channel is a line. */
  ghost predicate Lined(msgs: Msgs) {
    && NIL in msgs && msgs[NIL].after == None
    && forall c :: HasLine(msgs, c)
  }

  ghost function LineOf(msgs: Msgs, c: Channel): (line: seq<Id>)
    requires HasLine(msgs, c)
    ensures IsLine(msgs, c, line)
  {
    var line :| IsLine(msgs, c, line);
    line
  }

  ghost function Tail(msgs: Msgs, c: Channel): Id
    requires HasLine(msgs, c)
  {
    var line := LineOf(msgs, c);
    if line == [] then NIL else line[|line| - 1]
  }

  /** Membership in a line as an index. */
  lemma IndexInLine(msgs: Msgs, c: Channel, line: seq<Id>, id: Id) returns (i: nat)
    requires IsLine(msgs, c, line) && Ordered(msgs, c, id)
    ensures i < |line| && line[i] == id
    ensures msgs[id].after == Some(PredecessorIn(line, i))
  {
    assert id in line;
    i :| i < |line| && line[i] == id;
  }

  lemma {:induction false} LinesAgreeAt(msgs: Msgs, c: Channel, s: seq<Id>, t: seq<Id>, i: nat)
    requires IsLine(msgs, c, s) && IsLine(msgs, c, t) && i < |s|
    ensures i < |t| && s[i] == t[i]
  {
    if i > 0 {
      LinesAgreeAt(msgs, c, s, t, i - 1);
    }
    assert msgs[s[i]].after == Some(PredecessorIn(s, i));
    var j := IndexInLine(msgs, c, t, s[i]);
  }

  /** A table determines the line of each channel. */
  lemma LineUnique(msgs: Msgs, c: Channel, s: seq<Id>, t: seq<Id>)
    requires IsLine(msgs, c, s) && IsLine(msgs, c, t)
    ensures s == t
  {
    if |s| < |t| {
      LinesAgreeAt(msgs, c, t, s, |s|);
    } else if |t| < |s| {
      LinesAgreeAt(msgs, c, s, t, |t|);
    }
    forall i: nat | i < |s| ensures s[i] == t[i] {
      LinesAgreeAt(msgs, c, s, t, i);
    }
  }

  lemma LineIs(msgs: Msgs, c: Channel, line: seq<Id>)
    requires IsLine(msgs, c, line)
    ensures HasLine(msgs, c) && LineOf(msgs, c) == line
  {
    LineUnique(msgs, c, LineOf(msgs, c), line);
  }

  /** An ordered message is at the front of its line exactly when it is a head. */
  lemma HeadIsFirst(msgs: Msgs, c: Channel, line: seq<Id>, i: nat)
    requires IsLine(msgs, c, line) && i < |line|
    ensures line[i] in msgs && (IsHead(msgs[line[i]]) <==> i == 0)
  {
    assert msgs[line[i]].after == Some(PredecessorIn(line, i));
  }

  lemma FirstWaitsForNil(msgs: Msgs, c: Channel, line: seq<Id>)
    requires IsLine(msgs, c, line) && line != []
    ensures Ordered(msgs, c, line[0]) && msgs[line[0]].after == Some(NIL)
  {
    assert msgs[line[0]].after == Some(PredecessorIn(line, 0));
  }

  // Constraints from lines

  /** Lines imply the two constraints that guard the order. */
  lemma LinedImpliesConstraints(msgs: Msgs)
    requires Lined(msgs)
    ensures OrderIndexHolds(msgs) && ForeignKeyHolds(msgs)
  {
    forall a | a in msgs && msgs[a].after.Some? ensures msgs[a].after.value in msgs {
      var c := msgs[a].channel;
      assert HasLine(msgs, c);
      var i := IndexInLine(msgs, c, LineOf(msgs, c), a);
    }
    forall a, b | a in msgs && b in msgs && a != b && msgs[a].after.Some? && msgs[a].channel == msgs[b].channel
      ensures msgs[a].after != msgs[b].after
    {
      if msgs[b].after.Some? {
        var c := msgs[a].channel;
        assert HasLine(msgs, c);
        var line := LineOf(msgs, c);
        var i := IndexInLine(msgs, c, line, a);
        var j := IndexInLine(msgs, c, line, b);
        PredecessorsDiffer(msgs, c, line, i, j);
      }
    }
  }

  lemma PredecessorsDiffer(msgs: Msgs, c: Channel, line: seq<Id>, i: nat, j: nat)
    requires IsLine(msgs, c, line) && i < |line| && j < |line| && i != j
    ensures PredecessorIn(line, i) != PredecessorIn(line, j)
  {
  }

  /** Two messages that wait for each other satisfy both constraints, and are no line. */
  lemma ConstraintsAllowACycle(nilRow: Msg, a: Msg) returns (msgs: Msgs)
    requires nilRow.after == None
    ensures NIL in msgs && msgs[NIL] == nilRow
    ensures OrderIndexHolds(msgs) && ForeignKeyHolds(msgs)
    ensures !HasLine(msgs, a.channel)
  {
    msgs := map[NIL := nilRow, 1 := a.(after := Some(2)), 2 := a.(after := Some(1))];
    if HasLine(msgs, a.channel) {
      var line := LineOf(msgs, a.channel);
      assert Ordered(msgs, a.channel, 1);
      FirstWaitsForNil(msgs, a.channel, line);
    }
  }

  // Frames

  /** `msgs'` has the same ordered messages in `c` as `msgs`, waiting for the same messages. */
  ghost predicate SameOrder(msgs: Msgs, msgs': Msgs, c: Channel) {
    && (forall id :: Ordered(msgs, c, id) <==> Ordered(msgs', c, id))
    && (forall id | Ordered(msgs, c, id) && id in msgs' :: msgs[id].after == msgs'[id].after)
  }

  lemma SameOrderSameLine(msgs: Msgs, msgs': Msgs, c: Channel)
    requires HasLine(msgs, c) && SameOrder(msgs, msgs', c)
    ensures HasLine(msgs', c) && LineOf(msgs', c) == LineOf(msgs, c)
  {
    var line := LineOf(msgs, c);
    forall i | 0 <= i < |line|
      ensures Ordered(msgs', c, line[i]) && msgs'[line[i]].after == Some(PredecessorIn(line, i))
    {
      assert Ordered(msgs, c, line[i]);
    }
    LineIs(msgs', c, line);
  }

  // The tail, as `mq_latest_message` looks for it

  predicate HasSuccessor(msgs: Msgs, id: Id) {
    exists s | s in msgs :: msgs[s].after == Some(id)
  }

  predicate TailCandidate(msgs: Msgs, c: Channel, id: Id) {
    Ordered(msgs, c, id) && !HasSuccessor(msgs, id)
  }

  /** `r` is an answer `mq_latest_message` may give: some newest candidate, nil if there is none. */
  ghost predicate IsLatest(msgs: Msgs, c: Channel, r: Id) {
    if forall id :: !TailCandidate(msgs, c, id) then
      r == NIL
    else
      && TailCandidate(msgs, c, r)
      && forall id | TailCandidate(msgs, c, id) :: msgs[id].createdAt <= msgs[r].createdAt
  }

  /** Only the last message of a line has no successor anywhere in the table. */
  lemma TailCandidateIsLast(msgs: Msgs, c: Channel, id: Id)
    requires Lined(msgs)
    ensures TailCandidate(msgs, c, id) <==> LineOf(msgs, c) != [] && id == Tail(msgs, c)
  {
    assert HasLine(msgs, c);
    var line := LineOf(msgs, c);
    if Ordered(msgs, c, id) {
      var i := IndexInLine(msgs, c, line, id);
      if i + 1 < |line| {
        assert msgs[line[i + 1]].after == Some(PredecessorIn(line, i + 1));
        assert HasSuccessor(msgs, id);
      } else if HasSuccessor(msgs, id) {
        var s :| s in msgs && msgs[s].after == Some(id);
        SuccessorInSameChannel(msgs, c, id, s);
        var j := IndexInLine(msgs, c, line, s);
      }
    }
  }

  lemma SuccessorInSameChannel(msgs: Msgs, c: Channel, id: Id, s: Id)
    requires Lined(msgs) && Ordered(msgs, c, id)
    requires s in msgs && msgs[s].after == Some(id)
    ensures Ordered(msgs, c, s)
  {
    var d := msgs[s].channel;
    assert HasLine(msgs, d);
    var line := LineOf(msgs, d);
    var j := IndexInLine(msgs, d, line, s);
  }

  /** `mq_latest_message` finds the tail of the line, whatever the creation times are: its
      ORDER BY and LIMIT never decide anything. */
  lemma LatestIsTail(msgs: Msgs, c: Channel, r: Id)
    requires Lined(msgs)
    ensures IsLatest(msgs, c, r) <==> HasLine(msgs, c) && r == Tail(msgs, c)
  {
    assert HasLine(msgs, c);
    forall id ensures TailCandidate(msgs, c, id) <==> LineOf(msgs, c) != [] && id == Tail(msgs, c) {
      TailCandidateIsLast(msgs, c, id);
    }
    assert LineOf(msgs, c) != [] ==> TailCandidate(msgs, c, Tail(msgs, c));
  }
}
