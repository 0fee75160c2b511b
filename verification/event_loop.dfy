// The Reactor loop (SRC/EventLoop.cc, SRC/EventLoop.h).
//
// An EventLoop belongs to one thread. It owns an epoll backend and a wakeup
// Channel on an eventfd; other threads hand it work with `queueInLoop` and
// write the eventfd to wake it. The thread identity is the `caller`
// parameter of the operations other threads may call; the mutex around the
// pending list is taken as making the append and the swap atomic. A write
// to the eventfd is counted in `wakeups`, and what the loop thread does is
// recorded in `trace`.

/** The thread-local `t_loopInThisThread` of one thread. */
class ThreadSlot {
  var loop: EventLoop?

  constructor ()
    ensures loop == null
  {
    loop := null;
  }
}

/** `kPoolTimeMs`: the epoll_wait timeout of each cycle. */
const kPollTimeMs: int := 10000

/** What the loop's cycles change: the trace, the pending functors, the quit
    flag, the number of eventfd writes, the size of the poll buffer, the
    backend's error log and the timeouts of its epoll_wait calls. */
datatype LoopView = LoopView(
  trace: seq<Event>,
  pending: seq<Functor>,
  quit: bool,
  wakeups: nat,
  size: nat,
  errorLog: seq<LogRecord>,
  waits: seq<int>)

/** Dispatching the active Channels of one poll, in order, each with the
    events epoll reported for it and the poll's return time. */
function Dispatches(got: seq<EpollEvent>, t: Timestamp): (r: seq<Event>)
  requires NonNull(got)
  ensures |r| == |got|
  ensures forall i :: 0 <= i < |got| ==> r[i] == Dispatched(got[i].ptr.fd, got[i].events, t)
{
  seq(|got|, i requires 0 <= i < |got| => Dispatched(got[i].ptr.fd, got[i].events, t))
}

/** One pass of the `while (!quit_)` body with epoll_wait answering `r`: poll,
    dispatch every active Channel, then run the functors pending at that
    point, which queue their spawns for the next pass. */
function CycleView(v: LoopView, r: Round): (v': LoopView)
  requires WaitNonNull(r.wait)
  ensures v.trace <= v'.trace && v.errorLog <= v'.errorLog && v.waits <= v'.waits
  ensures |v'.trace| == |v.trace| + |Received(r.wait, v.size)| + |v.pending|
  ensures v.size <= v'.size && (v.quit ==> v'.quit)
{
  var got := Received(r.wait, v.size);
  var batch := v.pending;
  LoopView(
    v.trace + Dispatches(got, r.now) + RanAll(batch),
    Spawned(batch),
    v.quit || AnyQuits(batch),
    v.wakeups + |Spawned(batch)|,
    NextSize(v.size, |got|),
    v.errorLog + PollLog(r.wait),
    v.waits + [kPollTimeMs])
}

predicate RoundsNonNull(rounds: seq<Round>)
{
  forall k :: 0 <= k < |rounds| ==> WaitNonNull(rounds[k].wait)
}

/** The loop from view `v` while the environment supplies `rounds`: a pass
    per round until the quit flag is seen at the top of a pass. */
function Cycles(v: LoopView, rounds: seq<Round>): (v': LoopView)
  requires RoundsNonNull(rounds)
  ensures v.trace <= v'.trace && v.waits <= v'.waits && v.size <= v'.size
  ensures v.quit ==> v' == v
  decreases |rounds|
{
  if v.quit || rounds == [] then v else Cycles(CycleView(v, rounds[0]), rounds[1..])
}

/** How many passes `Cycles` runs. */
function CycleCount(v: LoopView, rounds: seq<Round>): nat
  requires RoundsNonNull(rounds)
  decreases |rounds|
{
  if v.quit || rounds == [] then 0 else 1 + CycleCount(CycleView(v, rounds[0]), rounds[1..])
}

/** The Channels whose observed events the loop sets while running the
    passes `Cycles` runs: those of the records each pass receives. */
function Polled(v: LoopView, rounds: seq<Round>): set<Channel>
  requires RoundsNonNull(rounds)
  decreases |rounds|
{
  if v.quit || rounds == [] then {}
  else ChannelsOf(Received(rounds[0].wait, v.size)) + Polled(CycleView(v, rounds[0]), rounds[1..])
}

/** Every answer epoll_wait gives is drawn from the interest list `kernel`. */
ghost predicate RoundsDrawn(kernel: map<int, Entry>, rounds: seq<Round>)
{
  && RoundsNonNull(rounds)
  && forall k :: 0 <= k < |rounds| ==> DrawnFrom(kernel, rounds[k].wait)
}

/** Unfolding `Cycles` and `CycleCount` by one pass at position `k`. */
lemma CyclesStep(v: LoopView, rounds: seq<Round>, k: nat)
  requires RoundsNonNull(rounds) && k < |rounds| && !v.quit
  ensures Cycles(v, rounds[k..]) == Cycles(CycleView(v, rounds[k]), rounds[k + 1..])
  ensures CycleCount(v, rounds[k..]) == 1 + CycleCount(CycleView(v, rounds[k]), rounds[k + 1..])
  ensures Polled(v, rounds[k..])
       == ChannelsOf(Received(rounds[k].wait, v.size)) + Polled(CycleView(v, rounds[k]), rounds[k + 1..])
{
  assert rounds[k..][0] == rounds[k] && rounds[k..][1..] == rounds[k + 1..];
}

function Pow2(k: nat): nat
{
  if k == 0 then 1 else 2 * Pow2(k - 1)
}

/** The loop never leaves early: it stops before the rounds run out only
    because the quit flag is set, and once the rounds run out it has used all
    of them. */
lemma {:induction false} CyclesStopOnlyOnQuit(v: LoopView, rounds: seq<Round>)
  requires RoundsNonNull(rounds)
  ensures CycleCount(v, rounds) <= |rounds|
  ensures CycleCount(v, rounds) < |rounds| ==> Cycles(v, rounds).quit
  ensures !v.quit && Cycles(v, rounds).quit ==> CycleCount(v, rounds) > 0
  decreases |rounds|
{
  if !v.quit && rounds != [] {
    CyclesStopOnlyOnQuit(CycleView(v, rounds[0]), rounds[1..]);
  }
}

/** Every pass polls once, with the 10000 ms timeout. */
lemma {:induction false} CyclesPollEveryPass(v: LoopView, rounds: seq<Round>)
  requires RoundsNonNull(rounds)
  ensures Cycles(v, rounds).waits == v.waits + seq(CycleCount(v, rounds), _ => kPollTimeMs)
  decreases |rounds|
{
  if !v.quit && rounds != [] {
    var w := CycleView(v, rounds[0]);
    CyclesPollEveryPass(w, rounds[1..]);
    var n := CycleCount(w, rounds[1..]);
    assert [kPollTimeMs] + seq(n, _ => kPollTimeMs) == seq(n + 1, _ => kPollTimeMs);
  }
}

/** The poll buffer only ever doubles: after any number of passes its size is
    the starting size times a power of two. */
lemma {:induction false} BufferDoublesFrom(v: LoopView, rounds: seq<Round>)
  requires RoundsNonNull(rounds)
  ensures exists k: nat :: Cycles(v, rounds).size == v.size * Pow2(k)
  decreases |rounds|
{
  if v.quit || rounds == [] {
    assert Cycles(v, rounds).size == v.size * Pow2(0);
  } else {
    var w := CycleView(v, rounds[0]);
    BufferDoublesFrom(w, rounds[1..]);
    var k: nat :| Cycles(w, rounds[1..]).size == w.size * Pow2(k);
    var j: nat := if w.size == v.size then k else k + 1;
    assert w.size * Pow2(k) == v.size * Pow2(j) by {
      if w.size != v.size {
        assert w.size == 2 * v.size;
        MulAssoc(2, v.size, Pow2(k));
      }
    }
    assert Cycles(v, rounds) == Cycles(w, rounds[1..]);
  }
}

lemma MulAssoc(a: nat, b: nat, c: nat)
  ensures (a * b) * c == b * (a * c)
{
}

/** The trace only grows, and the backend logs nothing but epoll_wait
    failures other than EINTR. */
lemma {:induction false} CyclesExtend(v: LoopView, rounds: seq<Round>)
  requires RoundsNonNull(rounds)
  ensures v.trace <= Cycles(v, rounds).trace
  ensures v.errorLog <= Cycles(v, rounds).errorLog
  ensures forall i :: |v.errorLog| <= i < |Cycles(v, rounds).errorLog| ==>
    Cycles(v, rounds).errorLog[i].PollError? && Cycles(v, rounds).errorLog[i].errno != EINTR
  decreases |rounds|
{
  if !v.quit && rounds != [] {
    var w := CycleView(v, rounds[0]);
    CyclesExtend(w, rounds[1..]);
    assert v.trace <= w.trace;
    assert v.errorLog <= w.errorLog;
  }
}

/** A functor queued while the pending ones run waits for the next pass: in
    two passes, the first runs exactly the functors pending at its start and
    the second runs exactly the ones they queued, after its own dispatches. */
lemma DrainedSpawnsRunNextPass(v: LoopView, r0: Round, r1: Round)
  requires WaitNonNull(r0.wait) && WaitNonNull(r1.wait)
  requires !v.quit && !AnyQuits(v.pending)
  ensures var v1 := CycleView(v, r0);
    && v1.pending == Spawned(v.pending)
    && Cycles(v, [r0, r1]) == CycleView(v1, r1)
    && Cycles(v, [r0, r1]).trace
       == v.trace + Dispatches(Received(r0.wait, v.size), r0.now) + RanAll(v.pending)
          + Dispatches(Received(r1.wait, v1.size), r1.now) + RanAll(Spawned(v.pending))
{
  var v1 := CycleView(v, r0);
  assert [r0, r1][1..] == [r1];
  assert Cycles(v1, [r1]) == Cycles(CycleView(v1, r1), []);
}

/** A functor that calls `quit` ends the loop at the end of the pass that
    runs it, whatever rounds remain. */
lemma {:induction false} QuitInDrainStopsLoop(v: LoopView, rounds: seq<Round>)
  requires RoundsNonNull(rounds) && rounds != []
  requires !v.quit && AnyQuits(v.pending)
  ensures Cycles(v, rounds) == CycleView(v, rounds[0])
  ensures CycleCount(v, rounds) == 1
{
  assert CycleView(v, rounds[0]).quit;
}

class EventLoop {
  /** `threadId_`: the thread that created the loop. */
  const threadId: int
  const poller: EPollPoller
  const wakeupFd: int
  /** `wakeupChannel_`: set once the object exists, never changed after. */
  var wakeupChannel: Channel?
  /** `looping_`, `quit_`, `callingPendingFunctors_`. */
  var looping: bool
  var quit: bool
  var callingPendingFunctors: bool
  var pollReturnTime: Timestamp
  var activeChannels: seq<Channel>
  var pendingFunctors: seq<Functor>
  /** Writes of the 8-byte counter to the eventfd. */
  var wakeups: nat
  /** What the loop thread has done, oldest first. */
  var trace: seq<Event>

  /** The wakeup Channel is one of the backend's Channels, registered for
      reading on the eventfd, and the backend is consistent. */
  ghost predicate Valid()
    reads this`wakeupChannel, poller`events, poller`registry, poller`kernel, poller`Channels
    reads poller.Channels`index, poller.Channels`events
  {
    && poller.Valid() && poller.Consistent()
    && wakeupChannel != null && wakeupChannel in poller.Channels
    && wakeupChannel.loop == this && wakeupChannel.fd == wakeupFd
    && wakeupChannel.index == kAdded && wakeupChannel.events == kReadEvent
  }

  function LView(): LoopView
    reads this`trace, this`pendingFunctors, this`quit, this`wakeups
    reads poller`events, poller`errorLog, poller`waits
  {
    LoopView(trace, pendingFunctors, quit, wakeups, |poller.events|, poller.errorLog, poller.waits)
  }

  /** The member initialisers of `EventLoop()` and the creation of the wakeup
      Channel; the thread check and the registration follow in
      CreateEventLoop. */
  constructor (tid: int, wakeupFd: int)
    ensures threadId == tid && this.wakeupFd == wakeupFd
    ensures fresh(poller) && poller.Valid() && poller.Consistent()
    ensures poller.State() == PollerState(map[], map[], poller.events, false, [], {})
    ensures |poller.events| == kInitEventListSize && poller.waits == []
    ensures wakeupChannel != null && fresh(wakeupChannel)
    ensures wakeupChannel.loop == this && wakeupChannel.fd == wakeupFd
    ensures wakeupChannel.index == kNew && wakeupChannel.events == kNoneEvent
    ensures !looping && !quit && !callingPendingFunctors
    ensures activeChannels == [] && pendingFunctors == [] && wakeups == 0 && trace == []
  {
    threadId := tid;
    poller := new EPollPoller();
    this.wakeupFd := wakeupFd;
    looping, quit, callingPendingFunctors := false, false, false;
    pollReturnTime := Timestamp(0);
    activeChannels, pendingFunctors := [], [];
    wakeups, trace := 0, [];
    wakeupChannel := null;
    new;
    wakeupChannel := new Channel(this, wakeupFd);
  }

  /** `isInLoopThread()`. */
  predicate IsInLoopThread(caller: int)
  {
    caller == threadId
  }

  /** `updateChannel(channel)`: forwarded to the backend. */
  method UpdateChannel(ch: Channel)
    requires poller.Valid()
    modifies poller`registry, poller`kernel, poller`exited, poller`errorLog, poller`Channels, ch`index
    ensures poller.UpdatedFrom(old(poller.State()), ch, old(ch.index))
    ensures old(poller.ConsistentExcept(ch) && poller.Admits(ch)) ==>
      poller.Updated(old(poller.exited), old(poller.errorLog), ch)
  {
    poller.UpdateChannel(ch);
  }

  /** `removeChannel(channel)`: forwarded to the backend. */
  method RemoveChannel(ch: Channel)
    requires poller.Valid()
    modifies poller`registry, poller`kernel, poller`exited, poller`errorLog, poller`Channels, ch`index
    ensures poller.RemovedFrom(old(poller.State()), ch, old(ch.index))
    ensures old(poller.Consistent() && poller.Admits(ch)) ==>
      poller.Removed(old(poller.exited), old(poller.errorLog), ch)
  {
    poller.RemoveChannel(ch);
  }

  /** `wakeup()`: one write to the eventfd. */
  method Wakeup()
    modifies this`wakeups
    ensures wakeups == old(wakeups) + 1
  {
    wakeups := wakeups + 1;
  }

  /** `quit()` called from thread `caller`. */
  method Quit(caller: int)
    modifies this`quit, this`wakeups
    ensures quit
    ensures wakeups == old(wakeups) + (if IsInLoopThread(caller) then 0 else 1)
  {
    quit := true;
    if !IsInLoopThread(caller) {
      Wakeup();
    }
  }

  /** `queueInLoop(cb)` called from thread `caller`: append under the lock,
      then wake the loop unless it is the loop thread outside the drain. */
  method QueueInLoop(cb: Functor, caller: int)
    modifies this`pendingFunctors, this`wakeups
    ensures pendingFunctors == old(pendingFunctors) + [cb]
    ensures wakeups == old(wakeups) + (if !IsInLoopThread(caller) || callingPendingFunctors then 1 else 0)
  {
    pendingFunctors := pendingFunctors + [cb];
    if !IsInLoopThread(caller) || callingPendingFunctors {
      Wakeup();
    }
  }

  /** Calling a functor on the loop thread: it queues its spawns from the
      loop thread, in order, then calls `quit` if it quits. */
  method Invoke(f: Functor)
    modifies this`trace, this`pendingFunctors, this`wakeups, this`quit
    ensures trace == old(trace) + [Ran(f.id)]
    ensures pendingFunctors == old(pendingFunctors) + f.spawns
    ensures wakeups == old(wakeups) + (if callingPendingFunctors then |f.spawns| else 0)
    ensures quit == (old(quit) || f.quits)
  {
    trace := trace + [Ran(f.id)];
    var j := 0;
    while j < |f.spawns|
      invariant 0 <= j <= |f.spawns|
      invariant pendingFunctors == old(pendingFunctors) + f.spawns[..j]
      invariant wakeups == old(wakeups) + (if callingPendingFunctors then j else 0)
      invariant trace == old(trace) + [Ran(f.id)] && quit == old(quit)
    {
      QueueInLoop(f.spawns[j], threadId);
      assert f.spawns[..j + 1] == f.spawns[..j] + [f.spawns[j]];
      j := j + 1;
    }
    assert f.spawns[..j] == f.spawns;
    if f.quits {
      Quit(threadId);
    }
  }

  /** `runInLoop(cb)` called from thread `caller`: run now on the loop
      thread, otherwise queue. */
  method RunInLoop(cb: Functor, caller: int)
    modifies this`trace, this`pendingFunctors, this`wakeups, this`quit
    ensures IsInLoopThread(caller) ==>
      && trace == old(trace) + [Ran(cb.id)]
      && pendingFunctors == old(pendingFunctors) + cb.spawns
      && wakeups == old(wakeups) + (if callingPendingFunctors then |cb.spawns| else 0)
      && quit == (old(quit) || cb.quits)
    ensures !IsInLoopThread(caller) ==>
      && trace == old(trace)
      && pendingFunctors == old(pendingFunctors) + [cb]
      && wakeups == old(wakeups) + 1
      && quit == old(quit)
  {
    if IsInLoopThread(caller) {
      Invoke(cb);
    } else {
      QueueInLoop(cb, caller);
    }
  }

  /** `doPendingFunctors()`: take the whole pending list in one swap, run it
      in order; what those functors queue stays pending. */
  method DoPendingFunctors()
    modifies this`callingPendingFunctors, this`pendingFunctors, this`wakeups, this`trace, this`quit
    ensures pendingFunctors == Spawned(old(pendingFunctors))
    ensures trace == old(trace) + RanAll(old(pendingFunctors))
    ensures wakeups == old(wakeups) + |Spawned(old(pendingFunctors))|
    ensures quit == (old(quit) || AnyQuits(old(pendingFunctors)))
    ensures !callingPendingFunctors
  {
    var functors: seq<Functor> := [];
    callingPendingFunctors := true;
    functors, pendingFunctors := pendingFunctors, functors;
    var i := 0;
    while i < |functors|
      invariant 0 <= i <= |functors|
      invariant callingPendingFunctors
      invariant pendingFunctors == Spawned(functors[..i])
      invariant trace == old(trace) + RanAll(functors[..i])
      invariant wakeups == old(wakeups) + |Spawned(functors[..i])|
      invariant quit == (old(quit) || AnyQuits(functors[..i]))
    {
      assert functors[..i + 1] == functors[..i] + [functors[i]];
      SpawnedSnoc(functors[..i], functors[i]);
      RanAllSnoc(functors[..i], functors[i]);
      AnyQuitsSnoc(functors[..i], functors[i]);
      Invoke(functors[i]);
      i := i + 1;
    }
    assert functors[..i] == functors;
    callingPendingFunctors := false;
  }

  /** The `for (Channel* channel : activeChannels_)` dispatch: each active
      Channel handles the events it was given, at the poll's return time. */
  method DispatchActive(ghost got: seq<EpollEvent>)
    requires NonNull(got) && activeChannels == Ptrs(got)
    requires forall i :: 0 <= i < |got| ==> got[i].ptr.revents == got[i].events
    modifies this`trace
    ensures trace == old(trace) + Dispatches(got, pollReturnTime)
  {
    var i := 0;
    while i < |activeChannels|
      invariant 0 <= i <= |activeChannels|
      invariant trace == old(trace) + Dispatches(got, pollReturnTime)[..i]
    {
      var channel := activeChannels[i];
      assert Dispatches(got, pollReturnTime)[..i + 1]
          == Dispatches(got, pollReturnTime)[..i] + [Dispatched(channel.fd, channel.revents, pollReturnTime)];
      trace := trace + [Dispatched(channel.fd, channel.revents, pollReturnTime)];
      i := i + 1;
    }
    assert Dispatches(got, pollReturnTime)[..i] == Dispatches(got, pollReturnTime);
  }

  /** `activeChannels_.clear()` and `pollReturnTime_ = poller_->poll(kPoolTimeMs,
      &activeChannels_)`, with epoll_wait answering `r.wait` and the clock
      reading `r.now`. */
  method PollActive(r: Round)
    requires Valid() && DrawnFrom(poller.kernel, r.wait)
    modifies this`pollReturnTime, this`activeChannels
    modifies poller`events, poller`errorLog, poller`waits, ChannelsOf(Received(r.wait, |poller.events|))`revents
    ensures Valid() && poller.kernel == old(poller.kernel)
    ensures WaitNonNull(r.wait)
    ensures var got := Received(r.wait, old(|poller.events|));
      && pollReturnTime == r.now
      && activeChannels == Ptrs(got)
      && (forall i :: 0 <= i < |got| ==> got[i].ptr.revents == got[i].events)
      && |poller.events| == NextSize(old(|poller.events|), |got|)
      && poller.errorLog == old(poller.errorLog) + PollLog(r.wait)
      && poller.waits == old(poller.waits) + [kPollTimeMs]
  {
    ghost var got := Received(r.wait, |poller.events|);
    assert NonNull(got) && poller.Consistent();
    // the cleared list is the one the poller appends to
    var t, filled := poller.Poll(kPollTimeMs, [], r.wait, r.now);
    pollReturnTime, activeChannels := t, filled;
    KeepsValid();
  }

  /** The first half of a pass of `loop()`: poll, then dispatch the active
      Channels in order. */
  method PollAndDispatch(r: Round)
    requires Valid() && DrawnFrom(poller.kernel, r.wait)
    modifies this`pollReturnTime, this`activeChannels, this`trace
    modifies poller`events, poller`errorLog, poller`waits, ChannelsOf(Received(r.wait, |poller.events|))`revents
    ensures Valid() && poller.kernel == old(poller.kernel)
    ensures WaitNonNull(r.wait) && pollReturnTime == r.now
    ensures var got := Received(r.wait, old(|poller.events|));
      && trace == old(trace) + Dispatches(got, r.now)
      && |poller.events| == NextSize(old(|poller.events|), |got|)
      && poller.errorLog == old(poller.errorLog) + PollLog(r.wait)
      && poller.waits == old(poller.waits) + [kPollTimeMs]
  {
    ghost var got := Received(r.wait, |poller.events|);
    PollActive(r);
    DispatchActive(got);
  }

  /** Valid() does not depend on the loop's flags. */
  twostate lemma FlagsKeepValid()
    requires old(Valid())
    requires unchanged(poller) && wakeupChannel == old(wakeupChannel)
    requires forall c :: c in old(poller.Channels) ==> unchanged(c)
    ensures Valid()
  {
  }

  /** Valid() survives any step that keeps the backend consistent and leaves
      the wakeup Channel's registration and interest alone. */
  twostate lemma KeepsValid()
    requires old(Valid())
    requires poller.Valid() && poller.Consistent() && poller.Channels == old(poller.Channels)
    requires wakeupChannel == old(wakeupChannel)
    requires wakeupChannel.index == old(wakeupChannel.index)
    requires wakeupChannel.events == old(wakeupChannel.events)
    ensures Valid()
  {
  }

  /** One pass of the `while (!quit_)` body of `loop()`. */
  method Cycle(r: Round)
    requires Valid() && DrawnFrom(poller.kernel, r.wait)
    modifies this`quit, this`callingPendingFunctors, this`pollReturnTime
    modifies this`activeChannels, this`pendingFunctors, this`wakeups, this`trace
    modifies poller`events, poller`errorLog, poller`waits, ChannelsOf(Received(r.wait, |poller.events|))`revents
    ensures Valid() && poller.kernel == old(poller.kernel)
    ensures WaitNonNull(r.wait) && LView() == CycleView(old(LView()), r)
    ensures pollReturnTime == r.now
  {
    ghost var v := LView();
    ghost var got := Received(r.wait, v.size);
    PollAndDispatch(r);
    assert LView() == v.(trace := v.trace + Dispatches(got, r.now),
                         size := NextSize(v.size, |got|),
                         errorLog := v.errorLog + PollLog(r.wait),
                         waits := v.waits + [kPollTimeMs]);
    label Drain:
    DoPendingFunctors();
    FlagsKeepValid@Drain();
  }

  /** The `while (!quit_)` loop of `loop()`: a pass per round until the
      quit flag is seen or the rounds run out. */
  method RunCycles(rounds: seq<Round>) returns (cycles: nat)
    requires Valid() && RoundsDrawn(poller.kernel, rounds)
    modifies this`quit, this`callingPendingFunctors, this`pollReturnTime
    modifies this`activeChannels, this`pendingFunctors, this`wakeups, this`trace
    modifies poller`events, poller`errorLog, poller`waits, Polled(LView(), rounds)`revents
    ensures Valid() && RoundsNonNull(rounds)
    ensures LView() == Cycles(old(LView()), rounds)
    ensures cycles == CycleCount(old(LView()), rounds)
    ensures cycles <= |rounds| && (cycles > 0 ==> pollReturnTime == rounds[cycles - 1].now)
  {
    cycles := 0;
    while !quit && cycles < |rounds|
      invariant 0 <= cycles <= |rounds|
      invariant cycles > 0 ==> pollReturnTime == rounds[cycles - 1].now
      invariant Valid() && poller.kernel == old(poller.kernel)
      invariant Cycles(old(LView()), rounds) == Cycles(LView(), rounds[cycles..])
      invariant CycleCount(old(LView()), rounds) == cycles + CycleCount(LView(), rounds[cycles..])
      invariant Polled(LView(), rounds[cycles..]) <= Polled(old(LView()), rounds)
    {
      CyclesStep(LView(), rounds, cycles);
      Cycle(rounds[cycles]);
      cycles := cycles + 1;
    }
  }

  /** `loop()` while epoll_wait answers `rounds`: it returns once the quit
      flag is seen, or (still looping) when the rounds run out. */
  method Loop(rounds: seq<Round>) returns (cycles: nat)
    requires Valid() && RoundsDrawn(poller.kernel, rounds)
    modifies this`looping, this`quit, this`callingPendingFunctors, this`pollReturnTime
    modifies this`activeChannels, this`pendingFunctors, this`wakeups, this`trace
    modifies poller`events, poller`errorLog, poller`waits, Polled(LView().(quit := false), rounds)`revents
    ensures Valid() && RoundsNonNull(rounds)
    ensures LView() == Cycles(old(LView()).(quit := false), rounds)
    ensures cycles == CycleCount(old(LView()).(quit := false), rounds)
    ensures looping == !quit
    ensures cycles <= |rounds| && (cycles > 0 ==> pollReturnTime == rounds[cycles - 1].now)
  {
    looping := true;
    quit := false;
    ghost var start := LView();
    assert start == old(LView()).(quit := false);
    cycles := RunCycles(rounds);
    assert LView() == Cycles(start, rounds);
    label Stopped:
    if quit {
      looping := false;
      FlagsKeepValid@Stopped();
    }
  }

  /** `~EventLoop()`: unregister and forget the wakeup Channel, and free the
      thread's slot. */
  method Destroy(slot: ThreadSlot)
    requires Valid()
    modifies wakeupChannel`events, wakeupChannel`index, slot
    modifies poller`registry, poller`kernel, poller`exited, poller`errorLog, poller`Channels
    ensures slot.loop == null
    ensures poller.registry == old(poller.registry) - {wakeupFd}
    ensures poller.kernel == old(poller.kernel) - {wakeupFd}
    ensures poller.Channels == old(poller.Channels) - {wakeupChannel}
    ensures wakeupChannel.events == kNoneEvent && wakeupChannel.index == kNew
    ensures poller.Removed(old(poller.exited), old(poller.errorLog), wakeupChannel)
  {
    var ch: Channel := wakeupChannel;
    ch.DisableAll();
    ch.Remove();
    slot.loop := null;
  }
}

/** `EventLoop()` on thread `tid` whose slot is `slot`: a second loop on the
    same thread is fatal (null: the process has exited); otherwise the loop
    takes the slot and registers its wakeup Channel for reading. */
method CreateEventLoop(tid: int, wakeupFd: int, slot: ThreadSlot) returns (loop: EventLoop?)
  modifies slot
  ensures old(slot.loop) != null ==> loop == null && slot.loop == old(slot.loop)
  ensures old(slot.loop) == null ==>
    && loop != null && fresh(loop) && slot.loop == loop
    && loop.Valid() && loop.threadId == tid && loop.wakeupFd == wakeupFd
    && loop.wakeupChannel.readCallback == WakeupRead
    && loop.poller.Channels == {loop.wakeupChannel}
    && |loop.poller.events| == kInitEventListSize && loop.poller.waits == [] && loop.poller.errorLog == []
    && !loop.looping && !loop.quit && !loop.callingPendingFunctors
    && loop.pendingFunctors == [] && loop.wakeups == 0 && loop.trace == []
{
  var created := new EventLoop(tid, wakeupFd);
  if slot.loop != null {
    loop := null;
    return;
  }
  slot.loop := created;
  var ch: Channel := created.wakeupChannel;
  ch.SetReadCallback(WakeupRead);
  ReadFromNone();
  ch.EnableReading();
  loop := created;
}
