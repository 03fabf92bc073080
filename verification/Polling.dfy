/** Which rows a poll may pick, and that it picks as many as it can. */
module Polling {
  import opened Schema
  import opened Lines
  import opened Statements

  function ReadyIn(msgs: Msgs, now: int, subs: Subscription, c: Channel): set<Id> {
    set id | id in ReadySet(msgs, now, subs) && msgs[id].channel == c
  }

  function ActiveChannels(msgs: Msgs, now: int, subs: Subscription): set<Channel> {
    set id | id in ReadySet(msgs, now, subs) :: msgs[id].channel
  }

  function Min(a: nat, b: nat): nat {
    if a < b then a else b
  }

  /** Earliest first, at most `batch` rows of one channel; rows due at the same time in any order. */
  ghost predicate FirstRows(msgs: Msgs, ready: set<Id>, batch: nat, rows: set<Id>) {
    && rows <= ready <= msgs.Keys && |rows| == Min(batch, |ready|)
    && forall x, y | x in rows && y in ready && y !in rows && msgs[x].attemptAt.Some? && msgs[y].attemptAt.Some? ::
         msgs[x].attemptAt.value <= msgs[y].attemptAt.value
  }

  function Union(chosen: set<Channel>, rows: map<Channel, set<Id>>): set<Id>
    requires chosen <= rows.Keys
  {
    set c, id | c in chosen && id in rows[c] :: id
  }

  /** The query of `mq_poll`: some `batch` of the active channels, the first `batch` ready rows
      of each, and some `batch` rows of those. */
  ghost predicate Selected(msgs: Msgs, now: int, subs: Subscription, batch: nat,
                           chosen: set<Channel>, rows: map<Channel, set<Id>>, picked: set<Id>) {
    && chosen <= ActiveChannels(msgs, now, subs)
    && |chosen| == Min(batch, |ActiveChannels(msgs, now, subs)|)
    && chosen <= rows.Keys
    && (forall c | c in chosen :: FirstRows(msgs, ReadyIn(msgs, now, subs, c), batch, rows[c]))
    && picked <= Union(chosen, rows)
    && |picked| == Min(batch, |Union(chosen, rows)|)
  }

  lemma SelectedAreReady(msgs: Msgs, now: int, subs: Subscription, batch: nat,
                         chosen: set<Channel>, rows: map<Channel, set<Id>>, picked: set<Id>)
    requires Selected(msgs, now, subs, batch, chosen, rows, picked)
    ensures picked <= Union(chosen, rows) <= ReadySet(msgs, now, subs)
  {
  }

  lemma {:induction false} SubsetSize<T>(a: set<T>, b: set<T>)
    requires a <= b
    ensures |a| <= |b|
    ensures |a| == |b| ==> a == b
  {
    if a != {} {
      var x :| x in a;
      SubsetSize(a - {x}, b - {x});
    } else if b != {} {
      var y :| y in b;
      assert |b - {y}| == |b| - 1;
    }
  }

  function ChannelsOf(msgs: Msgs, ids: set<Id>): set<Channel>
    requires ids <= msgs.Keys
  {
    set id | id in ids :: msgs[id].channel
  }

  lemma {:induction false} ManyChannelsManyRows(msgs: Msgs, ids: set<Id>)
    requires ids <= msgs.Keys
    ensures |ChannelsOf(msgs, ids)| <= |ids|
    decreases |ids|
  {
    if ids != {} {
      var id :| id in ids;
      var rest := ids - {id};
      ManyChannelsManyRows(msgs, rest);
      assert ChannelsOf(msgs, ids) == ChannelsOf(msgs, rest) + {msgs[id].channel};
    }
  }

  /** Each of the chosen channels has a row, so there are at least as many rows as channels. */
  lemma RowPerChannel(msgs: Msgs, now: int, subs: Subscription, batch: nat,
                      chosen: set<Channel>, rows: map<Channel, set<Id>>, picked: set<Id>)
    requires Selected(msgs, now, subs, batch, chosen, rows, picked) && |chosen| == batch
    ensures |Union(chosen, rows)| >= batch
  {
    SelectedAreReady(msgs, now, subs, batch, chosen, rows, picked);
    var all := Union(chosen, rows);
    forall c | c in chosen ensures c in ChannelsOf(msgs, all) {
      assert FirstRows(msgs, ReadyIn(msgs, now, subs, c), batch, rows[c]);
      var r :| r in ReadySet(msgs, now, subs) && msgs[r].channel == c;
      assert r in ReadyIn(msgs, now, subs, c);
      assert rows[c] != {};
      var id :| id in rows[c];
      assert id in all && msgs[id].channel == c;
    }
    ManyChannelsManyRows(msgs, all);
    SubsetSize(chosen, ChannelsOf(msgs, all));
  }

  /** If neither limit cuts anything off, every ready row is among the candidates. */
  lemma NoLimitReached(msgs: Msgs, now: int, subs: Subscription, batch: nat,
                       chosen: set<Channel>, rows: map<Channel, set<Id>>, picked: set<Id>)
    requires Selected(msgs, now, subs, batch, chosen, rows, picked)
    requires |chosen| != batch && !SomeFull(batch, chosen, rows)
    ensures ReadySet(msgs, now, subs) <= Union(chosen, rows)
  {
    SubsetSize(chosen, ActiveChannels(msgs, now, subs));
    forall id | id in ReadySet(msgs, now, subs) ensures id in Union(chosen, rows) {
      var c := msgs[id].channel;
      assert c in ActiveChannels(msgs, now, subs) && c in chosen;
      assert FirstRows(msgs, ReadyIn(msgs, now, subs, c), batch, rows[c]);
      SubsetSize(rows[c], ReadyIn(msgs, now, subs, c));
      assert id in ReadyIn(msgs, now, subs, c);
    }
  }

  /** Ready: due, waiting for no other message, and of a channel that was asked for. */
  lemma ReadyMeans(msgs: Msgs, now: int, subs: Subscription, id: Id)
    ensures id in ReadySet(msgs, now, subs) <==>
            && id in msgs && id != 0
            && msgs[id].attemptAt.Some? && msgs[id].attemptAt.value <= now
            && (msgs[id].after == None || msgs[id].after == Some(0))
            && (subs.Some? ==> msgs[id].channel.name in subs.value)
  {
  }

  /** A poll for some channel names picks rows of those channels only, each due and waiting for no
      other message, and with a batch as large as the table all of them. */
  lemma PollAsksForNames(msgs: Msgs, now: int, names: set<string>, batch: nat,
                         chosen: set<Channel>, rows: map<Channel, set<Id>>, picked: set<Id>)
    requires Selected(msgs, now, Some(names), batch, chosen, rows, picked)
    ensures forall id | id in picked ::
              && id in msgs && id != 0 && msgs[id].channel.name in names
              && msgs[id].attemptAt.Some? && msgs[id].attemptAt.value <= now
              && (msgs[id].after == None || msgs[id].after == Some(0))
    ensures batch >= |msgs| ==>
              forall id | id in msgs && id != 0 && msgs[id].channel.name in names
                          && msgs[id].attemptAt.Some? && msgs[id].attemptAt.value <= now
                          && (msgs[id].after == None || msgs[id].after == Some(0)) :: id in picked
  {
    PollTakesAllItCan(msgs, now, Some(names), batch, chosen, rows, picked);
    if batch >= |msgs| {
      LargeBatchTakesAll(msgs, now, Some(names), batch, picked);
    }
    forall id ensures id in ReadySet(msgs, now, Some(names)) <==>
              && id in msgs && id != 0 && msgs[id].attemptAt.Some? && msgs[id].attemptAt.value <= now
              && (msgs[id].after == None || msgs[id].after == Some(0)) && msgs[id].channel.name in names
    {
      ReadyMeans(msgs, now, Some(names), id);
    }
  }

  lemma LargeBatchTakesAll(msgs: Msgs, now: int, subs: Subscription, batch: nat, picked: set<Id>)
    requires batch >= |msgs| && picked <= ReadySet(msgs, now, subs)
    requires |picked| == if batch < |ReadySet(msgs, now, subs)| then batch else |ReadySet(msgs, now, subs)|
    ensures picked == ReadySet(msgs, now, subs)
  {
    var ready := ReadySet(msgs, now, subs);
    assert |msgs| == |msgs.Keys|;
    SubsetSize(ready, msgs.Keys);
    SubsetSize(picked, ready);
  }

  /** The wait that an empty poll reports: until the first head of the channels asked for that is
      scheduled at all. */
  lemma WaitMeans(msgs: Msgs, now: int, names: set<string>)
    ensures WaitTime(msgs, now, Some(names)).None? <==>
            forall id | id in msgs && id != 0 && msgs[id].channel.name in names
                        && (msgs[id].after == None || msgs[id].after == Some(0)) :: msgs[id].attemptAt == None
    ensures WaitTime(msgs, now, Some(names)).Some? ==>
              var wait := WaitTime(msgs, now, Some(names)).value;
              && (exists id :: id in msgs && id != 0 && msgs[id].channel.name in names
                    && (msgs[id].after == None || msgs[id].after == Some(0))
                    && msgs[id].attemptAt == Some(now + wait))
              && forall id | id in msgs && id != 0 && msgs[id].channel.name in names
                    && (msgs[id].after == None || msgs[id].after == Some(0)) && msgs[id].attemptAt.Some? ::
                  now + wait <= msgs[id].attemptAt.value
  {
    var heads := TimedHeads(msgs, Some(names));
    forall id | id in msgs && id != 0 && msgs[id].channel.name in names
                && (msgs[id].after == None || msgs[id].after == Some(0)) && msgs[id].attemptAt.Some?
      ensures id in heads
    {
    }
    if WaitTime(msgs, now, Some(names)).Some? {
      var id :| id in heads && msgs[id].attemptAt.value == now + WaitTime(msgs, now, Some(names)).value;
      assert msgs[id].attemptAt == Some(now + WaitTime(msgs, now, Some(names)).value);
    }
  }

  /** Poll is work-conserving: despite the two nested limits, whatever channels and ties are
      chosen, it picks ready subscribed rows, as many as there are up to the batch size. */
  lemma PollTakesAllItCan(msgs: Msgs, now: int, subs: Subscription, batch: nat,
                          chosen: set<Channel>, rows: map<Channel, set<Id>>, picked: set<Id>)
    requires Selected(msgs, now, subs, batch, chosen, rows, picked)
    ensures picked <= ReadySet(msgs, now, subs)
    ensures |picked| == if batch < |ReadySet(msgs, now, subs)| then batch else |ReadySet(msgs, now, subs)|
  {
    var all, ready := Union(chosen, rows), ReadySet(msgs, now, subs);
    assert |picked| == Min(batch, |all|) && picked <= all;
    assert all <= ready by {
      SelectedAreReady(msgs, now, subs, batch, chosen, rows, picked);
    }
    assert |all| >= batch || ready <= all by {
      CandidatesSuffice(msgs, now, subs, batch, chosen, rows, picked);
    }
    EnoughIsAll(all, ready, batch);
  }

  lemma EnoughIsAll(all: set<Id>, ready: set<Id>, batch: nat)
    requires all <= ready && (|all| >= batch || ready <= all)
    ensures Min(batch, |all|) == Min(batch, |ready|)
  {
    SubsetSize(all, ready);
    if ready <= all {
      assert all == ready;
    }
  }

  lemma CandidatesSuffice(msgs: Msgs, now: int, subs: Subscription, batch: nat,
                          chosen: set<Channel>, rows: map<Channel, set<Id>>, picked: set<Id>)
    requires Selected(msgs, now, subs, batch, chosen, rows, picked)
    ensures |Union(chosen, rows)| >= batch || ReadySet(msgs, now, subs) <= Union(chosen, rows)
  {
    if SomeFull(batch, chosen, rows) {
      FullChannel(batch, chosen, rows);
    } else if |chosen| == batch {
      RowPerChannel(msgs, now, subs, batch, chosen, rows, picked);
    } else {
      NoLimitReached(msgs, now, subs, batch, chosen, rows, picked);
    }
  }

  ghost predicate SomeFull(batch: nat, chosen: set<Channel>, rows: map<Channel, set<Id>>) {
    exists c | c in chosen :: c in rows && |rows[c]| == batch
  }

  lemma FullChannel(batch: nat, chosen: set<Channel>, rows: map<Channel, set<Id>>)
    requires chosen <= rows.Keys && SomeFull(batch, chosen, rows)
    ensures |Union(chosen, rows)| >= batch
  {
    var c :| c in chosen && |rows[c]| == batch;
    assert rows[c] <= Union(chosen, rows);
    SubsetSize(rows[c], Union(chosen, rows));
  }

  /** Within a channel the earliest go first: when all candidates fit the batch, a ready row that
      is left out was not due before any picked row of its channel. */
  lemma EarliestFirst(msgs: Msgs, now: int, subs: Subscription, batch: nat,
                      chosen: set<Channel>, rows: map<Channel, set<Id>>, picked: set<Id>, x: Id, y: Id)
    requires Selected(msgs, now, subs, batch, chosen, rows, picked) && |Union(chosen, rows)| <= batch
    requires x in picked && y in ReadySet(msgs, now, subs) && y !in picked
    requires x in msgs && y in msgs && msgs[x].channel == msgs[y].channel
    ensures msgs[x].attemptAt.Some? && msgs[y].attemptAt.Some?
    ensures msgs[x].attemptAt.value <= msgs[y].attemptAt.value
  {
    SelectedAreReady(msgs, now, subs, batch, chosen, rows, picked);
    SubsetSize(picked, Union(chosen, rows));
    var c :| c in chosen && x in rows[c];
    assert FirstRows(msgs, ReadyIn(msgs, now, subs, c), batch, rows[c]);
    assert x in ReadyIn(msgs, now, subs, c) && y in ReadyIn(msgs, now, subs, c);
    assert y !in rows[c];
  }

  /** Of the ordered messages of a channel, a poll picks at most one: the first of the line. */
  lemma PollPicksOneOrdered(msgs: Msgs, now: int, subs: Subscription, batch: nat,
                            chosen: set<Channel>, rows: map<Channel, set<Id>>, picked: set<Id>, c: Channel)
    requires Lined(msgs) && Selected(msgs, now, subs, batch, chosen, rows, picked)
    ensures forall id | id in picked && Ordered(msgs, c, id) ::
              HasLine(msgs, c) && LineOf(msgs, c) != [] && id == LineOf(msgs, c)[0]
  {
    SelectedAreReady(msgs, now, subs, batch, chosen, rows, picked);
    forall id | id in picked && Ordered(msgs, c, id)
      ensures HasLine(msgs, c) && LineOf(msgs, c) != [] && id == LineOf(msgs, c)[0]
    {
      assert HasLine(msgs, c);
      var i := IndexInLine(msgs, c, LineOf(msgs, c), id);
      HeadIsFirst(msgs, c, LineOf(msgs, c), i);
    }
  }

  /** Without a writer in between, the UPDATE finds every picked row still due. */
  lemma AtomicPollDelivers(msgs: Msgs, now: int, subs: Subscription, batch: nat,
                           chosen: set<Channel>, rows: map<Channel, set<Id>>, picked: set<Id>)
    requires Selected(msgs, now, subs, batch, chosen, rows, picked)
    ensures Delivered(msgs, now, picked) == picked
    ensures |Delivered(msgs, now, picked)| == Min(batch, |ReadySet(msgs, now, subs)|)
  {
    PollTakesAllItCan(msgs, now, subs, batch, chosen, rows, picked);
    assert Delivered(msgs, now, picked) == picked;
  }

  // A choice to make

  lemma {:induction false} SubsetOfSize<T>(all: set<T>, n: nat) returns (some: set<T>)
    requires n <= |all|
    ensures some <= all && |some| == n
    decreases |all| - n
  {
    some := all;
    if n < |all| {
      var x :| x in all;
      some := SubsetOfSize(all - {x}, n);
    }
  }

  /** The earliest rows one at a time. */
  lemma {:induction false} FirstRowsExist(msgs: Msgs, ready: set<Id>, batch: nat) returns (rows: set<Id>)
    requires ready <= msgs.Keys && forall id | id in ready :: msgs[id].attemptAt.Some?
    ensures FirstRows(msgs, ready, batch, rows)
    decreases batch
  {
    rows := {};
    if batch > 0 && ready != {} {
      var first := EarliestExists(msgs, ready);
      var rest := FirstRowsExist(msgs, ready - {first}, batch - 1);
      assert |ready - {first}| == |ready| - 1 && first !in rest;
      rows := rest + {first};
    }
  }

  lemma ChannelRowsExist(msgs: Msgs, now: int, subs: Subscription, batch: nat, chosen: set<Channel>)
    returns (rows: map<Channel, set<Id>>)
    ensures rows.Keys == chosen
    ensures forall c | c in chosen :: FirstRows(msgs, ReadyIn(msgs, now, subs, c), batch, rows[c])
    decreases |chosen|
  {
    rows := map[];
    if chosen != {} {
      var c :| c in chosen;
      var more := ChannelRowsExist(msgs, now, subs, batch, chosen - {c});
      var first := FirstRowsExist(msgs, ReadyIn(msgs, now, subs, c), batch);
      rows := more[c := first];
    }
  }

  /** The query always has an answer: for every table, time, subscription and batch size there is
      something that a poll may pick. */
  lemma SelectionExists(msgs: Msgs, now: int, subs: Subscription, batch: nat)
    returns (chosen: set<Channel>, rows: map<Channel, set<Id>>, picked: set<Id>)
    ensures Selected(msgs, now, subs, batch, chosen, rows, picked)
  {
    var active := ActiveChannels(msgs, now, subs);
    chosen := SubsetOfSize(active, Min(batch, |active|));
    rows := ChannelRowsExist(msgs, now, subs, batch, chosen);
    picked := SubsetOfSize(Union(chosen, rows), Min(batch, |Union(chosen, rows)|));
  }
}
