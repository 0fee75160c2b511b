// Pending functors as data (SRC/EventLoop.cc:113-137, 177-193).
//
// A functor queued with `runInLoop`/`queueInLoop` is arbitrary user code.
// The model describes what such code does to the loop: it has an identity,
// it calls `queueInLoop` from the loop thread for each functor of `spawns`,
// in order, and then, if `quits`, calls `quit` from the loop thread.

datatype Functor = Functor(id: nat, spawns: seq<Functor>, quits: bool)

/** What the loop thread did, in order: dispatched a Channel's observed
    events, or ran a functor. */
datatype Event =
  | Dispatched(fd: int, revents: bv32, receiveTime: Timestamp)
  | Ran(id: nat)

/** The functors a batch queues while it runs, in the order it queues them. */
function Spawned(batch: seq<Functor>): seq<Functor>
  decreases |batch|
{
  if batch == [] then [] else batch[0].spawns + Spawned(batch[1..])
}

/** Running a batch in order: one `Ran` per functor, in batch order. */
function RanAll(batch: seq<Functor>): (r: seq<Event>)
  ensures |r| == |batch|
  ensures forall i :: 0 <= i < |batch| ==> r[i] == Ran(batch[i].id)
{
  seq(|batch|, i requires 0 <= i < |batch| => Ran(batch[i].id))
}

/** Some functor of the batch calls `quit`. */
predicate AnyQuits(batch: seq<Functor>)
{
  exists i :: 0 <= i < |batch| && batch[i].quits
}

/** Running one more functor after a batch queues its spawns after the
    batch's. */
lemma {:induction false} SpawnedSnoc(batch: seq<Functor>, f: Functor)
  ensures Spawned(batch + [f]) == Spawned(batch) + f.spawns
  decreases |batch|
{
  if batch == [] {
    assert batch + [f] == [f];
  } else {
    assert (batch + [f])[1..] == batch[1..] + [f];
    SpawnedSnoc(batch[1..], f);
  }
}

/** A functor is queued during a drain exactly when some functor of the
    drained batch queues it: nothing else enters the next batch. */
lemma {:induction false} SpawnedMembers(batch: seq<Functor>, g: Functor)
  ensures g in Spawned(batch) <==> exists i :: 0 <= i < |batch| && g in batch[i].spawns
  decreases |batch|
{
  if batch != [] {
    SpawnedMembers(batch[1..], g);
    if g in Spawned(batch[1..]) {
      var i :| 0 <= i < |batch[1..]| && g in batch[1..][i].spawns;
      assert g in batch[i + 1].spawns;
    }
    if exists i :: 0 <= i < |batch| && g in batch[i].spawns {
      var i :| 0 <= i < |batch| && g in batch[i].spawns;
      if i > 0 {
        assert g in batch[1..][i - 1].spawns;
      }
    }
  }
}

lemma RanAllSnoc(batch: seq<Functor>, f: Functor)
  ensures RanAll(batch + [f]) == RanAll(batch) + [Ran(f.id)]
{
  assert forall i :: 0 <= i < |batch| ==> (batch + [f])[i] == batch[i];
}

lemma AnyQuitsSnoc(batch: seq<Functor>, f: Functor)
  ensures AnyQuits(batch + [f]) == (AnyQuits(batch) || f.quits)
{
  if AnyQuits(batch) {
    var i :| 0 <= i < |batch| && batch[i].quits;
    assert (batch + [f])[i].quits;
  }
  if f.quits {
    assert (batch + [f])[|batch|].quits;
  }
  if AnyQuits(batch + [f]) {
    var i :| 0 <= i < |batch + [f]| && (batch + [f])[i].quits;
    if i < |batch| {
      assert batch[i].quits;
    }
  }
}
