/** When `mq_delete` may go through, and what it leaves: in every channel, one contiguous
    segment of the old line. */
module Deletion {
  import opened Schema
  import opened Lines
  import opened Statements

  /** Of `line`, exactly the messages from `lo` up to `hi` are not in `ids`. */
  ghost predicate Keeps(line: seq<Id>, ids: set<Id>, lo: nat, hi: nat) {
    && lo <= hi <= |line|
    && forall k | 0 <= k < |line| :: line[k] !in ids <==> lo <= k < hi
  }

  ghost predicate Contiguous(line: seq<Id>, ids: set<Id>) {
    exists lo, hi :: Keeps(line, ids, lo, hi)
  }

  /** A kept message whose predecessor goes: deletion makes it wait for nil. */
  ghost predicate Starts(line: seq<Id>, ids: set<Id>, i: nat) {
    i < |line| && line[i] !in ids && (i == 0 || line[i - 1] in ids)
  }

  /** A line that is cut apart has two kept messages that both end up at the front. */
  lemma {:induction false} CutApart(line: seq<Id>, ids: set<Id>) returns (i: nat, j: nat)
    requires !Contiguous(line, ids)
    ensures i < j && Starts(line, ids, i) && Starts(line, ids, j)
  {
    if |line| == 0 {
      assert Keeps(line, ids, 0, 0);
    }
    var front, last := line[..|line| - 1], line[|line| - 1];
    if Contiguous(front, ids) {
      var lo, hi :| Keeps(front, ids, lo, hi);
      if last in ids {
        assert Keeps(line, ids, lo, hi);
      } else if lo == hi {
        assert Keeps(line, ids, |front|, |line|);
      } else if hi == |front| {
        assert Keeps(line, ids, lo, |line|);
      }
      i, j := lo, |front|;
    } else {
      i, j := CutApart(front, ids);
    }
  }

  /** What deletion does to a surviving ordered message. */
  lemma SurvivorAfter(msgs: Msgs, c: Channel, ids: set<Id>, line: seq<Id>, i: nat)
    requires IsLine(msgs, c, line) && i < |line| && line[i] !in ids && NIL !in ids
    ensures line[i] in msgs && line[i] in Promote(msgs, ids * msgs.Keys)
    ensures Promote(msgs, ids * msgs.Keys)[line[i]].channel == c
    ensures Promote(msgs, ids * msgs.Keys)[line[i]].after ==
            Some(if Starts(line, ids, i) then NIL else PredecessorIn(line, i))
  {
    assert msgs[line[i]].after == Some(PredecessorIn(line, i));
    assert Ordered(msgs, c, line[i]);
    if i > 0 {
      assert Ordered(msgs, c, line[i - 1]);
    }
  }

  lemma CutApartViolates(msgs: Msgs, c: Channel, ids: set<Id>)
    requires Lined(msgs) && NIL !in ids
    requires HasLine(msgs, c) && !Contiguous(LineOf(msgs, c), ids)
    ensures !OrderIndexHolds(Promote(msgs, ids * msgs.Keys))
  {
    var line := LineOf(msgs, c);
    var i, j := CutApart(line, ids);
    SurvivorAfter(msgs, c, ids, line, i);
    SurvivorAfter(msgs, c, ids, line, j);
    assert line[i] != line[j];
  }

  /** The kept segment is the new line. */
  lemma SegmentIsLine(msgs: Msgs, c: Channel, ids: set<Id>, line: seq<Id>, lo: nat, hi: nat)
    requires IsLine(msgs, c, line) && NIL !in ids && Keeps(line, ids, lo, hi)
    ensures IsLine(Promote(msgs, ids * msgs.Keys), c, line[lo..hi])
  {
    var msgs' := Promote(msgs, ids * msgs.Keys);
    var kept := line[lo..hi];
    forall k | 0 <= k < |kept|
      ensures Ordered(msgs', c, kept[k]) && msgs'[kept[k]].after == Some(PredecessorIn(kept, k))
    {
      assert kept[k] == line[lo + k];
      SurvivorAfter(msgs, c, ids, line, lo + k);
      assert Ordered(msgs, c, line[lo + k]);
    }
    forall id | Ordered(msgs', c, id) ensures id in kept {
      var i := IndexInLine(msgs, c, line, id);
      assert kept[i - lo] == id;
    }
  }

  /** Deleting any set of messages but nil commits exactly when, in every channel, the ordered
      messages that stay are contiguous in the old line. */
  lemma DeleteCommitsIff(db: Db, ids: set<Id>)
    requires Lined(db.msgs) && NIL !in ids
    ensures DeleteRows(db, ids).Committed? <==>
            forall c :: HasLine(db.msgs, c) && Contiguous(LineOf(db.msgs, c), ids)
    ensures DeleteRows(db, ids).Aborted? ==> DeleteRows(db, ids).violations == {OrderIndex}
  {
    var msgs' := Promote(db.msgs, ids * db.msgs.Keys);
    forall c ensures HasLine(db.msgs, c) {}
    if forall c :: HasLine(db.msgs, c) && Contiguous(LineOf(db.msgs, c), ids) {
      forall c ensures HasLine(msgs', c) {
        var lo, hi :| Keeps(LineOf(db.msgs, c), ids, lo, hi);
        SegmentIsLine(db.msgs, c, ids, LineOf(db.msgs, c), lo, hi);
      }
      LinedImpliesConstraints(msgs');
    } else {
      var c :| !Contiguous(LineOf(db.msgs, c), ids);
      CutApartViolates(db.msgs, c, ids);
      PromotedForeignKey(db.msgs, ids);
    }
  }

  lemma PromotedForeignKey(msgs: Msgs, ids: set<Id>)
    requires Lined(msgs) && NIL !in ids
    ensures ForeignKeyHolds(Promote(msgs, ids * msgs.Keys))
  {
    LinedImpliesConstraints(msgs);
  }

  /** A deletion that commits keeps the lines, each a segment of what it was. */
  lemma DeleteKeepsLines(db: Db, ids: set<Id>)
    requires Lined(db.msgs) && NIL !in ids && DeleteRows(db, ids).Committed?
    ensures Lined(DeleteRows(db, ids).db.msgs)
  {
    DeleteCommitsIff(db, ids);
    var msgs' := DeleteRows(db, ids).db.msgs;
    forall c ensures HasLine(msgs', c) {
      var lo, hi := DeleteTrimsLine(db, ids, c);
    }
  }

  lemma DeleteTrimsLine(db: Db, ids: set<Id>, c: Channel) returns (lo: nat, hi: nat)
    requires Lined(db.msgs) && NIL !in ids && DeleteRows(db, ids).Committed?
    ensures HasLine(db.msgs, c) && Keeps(LineOf(db.msgs, c), ids, lo, hi)
    ensures HasLine(DeleteRows(db, ids).db.msgs, c)
    ensures LineOf(DeleteRows(db, ids).db.msgs, c) == LineOf(db.msgs, c)[lo..hi]
  {
    DeleteCommitsIff(db, ids);
    assert HasLine(db.msgs, c) && Contiguous(LineOf(db.msgs, c), ids);
    lo, hi :| Keeps(LineOf(db.msgs, c), ids, lo, hi);
    SegmentIsLine(db.msgs, c, ids, LineOf(db.msgs, c), lo, hi);
    LineIs(DeleteRows(db, ids).db.msgs, c, LineOf(db.msgs, c)[lo..hi]);
  }

  /** The one deletion that can remove the nil row: no ordered message may be left at all. */
  lemma DeleteNilCommitsIff(db: Db, ids: set<Id>)
    requires Lined(db.msgs) && NIL in ids
    ensures DeleteRows(db, ids).Committed? <==>
            forall id | id in db.msgs && db.msgs[id].after.Some? :: id in ids
  {
    var msgs, gone := db.msgs, ids * db.msgs.Keys;
    var msgs' := Promote(msgs, gone);
    if id :| id in msgs && msgs[id].after.Some? && id !in ids {
      var c := msgs[id].channel;
      assert HasLine(msgs, c);
      var line := LineOf(msgs, c);
      var i := IndexInLine(msgs, c, line, id);
      var first := FirstKept(line, ids, i);
      assert msgs[line[first]].after == Some(PredecessorIn(line, first));
      assert Ordered(msgs, c, line[first]);
      if first > 0 {
        assert Ordered(msgs, c, line[first - 1]);
      }
      assert msgs'[line[first]].after == Some(NIL);
      assert !ForeignKeyHolds(msgs');
    } else {
      assert OrderIndexHolds(msgs') && ForeignKeyHolds(msgs');
    }
  }

  lemma {:induction false} FirstKept(line: seq<Id>, ids: set<Id>, i: nat) returns (first: nat)
    requires i < |line| && line[i] !in ids
    ensures Starts(line, ids, first)
  {
    if i == 0 || line[i - 1] in ids {
      first := i;
    } else {
      first := FirstKept(line, ids, i - 1);
    }
  }

  // Clear

  /** Clearing channels removes whole lines, so it always commits and never promotes a message. */
  lemma ClearCommits(db: Db, names: set<string>)
    requires Lined(db.msgs)
    ensures AfterClear(db, names).Committed?
    ensures forall id :: id in AfterClear(db, names).db.msgs <==>
                         id in db.msgs && (id == NIL || db.msgs[id].channel.name !in names)
    ensures forall id | id in AfterClear(db, names).db.msgs :: AfterClear(db, names).db.msgs[id] == db.msgs[id]
  {
    var ids := InChannels(db.msgs, names);
    forall c ensures HasLine(db.msgs, c) && Contiguous(LineOf(db.msgs, c), ids) {
      assert HasLine(db.msgs, c);
      var line := LineOf(db.msgs, c);
      assert forall k | 0 <= k < |line| :: Ordered(db.msgs, c, line[k]);
      if c.name in names {
        assert Keeps(line, ids, 0, 0);
      } else {
        assert Keeps(line, ids, 0, |line|);
      }
    }
    DeleteCommitsIff(db, ids);
    forall id | id in db.msgs && id !in ids && db.msgs[id].after.Some? ensures db.msgs[id].after.value !in ids {
      var c := db.msgs[id].channel;
      assert HasLine(db.msgs, c);
      var i := IndexInLine(db.msgs, c, LineOf(db.msgs, c), id);
      if i > 0 {
        assert Ordered(db.msgs, c, LineOf(db.msgs, c)[i - 1]);
      }
    }
  }

  lemma ClearAllCommits(db: Db)
    requires Lined(db.msgs)
    ensures AfterClearAll(db).Committed?
    ensures AfterClearAll(db).db.msgs == map[NIL := db.msgs[NIL]]
  {
  }
}
