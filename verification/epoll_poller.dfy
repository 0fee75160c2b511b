// The epoll backend (SRC/EPollPoller.cc, SRC/EPollPoller.h, SRC/Poller.h:34-35).
//
// The poller owns the descriptor registry `channels_` (fd -> Channel*), the
// readiness buffer `events_` and, through its epoll descriptor, a kernel
// interest list. `updateChannel` and `removeChannel` carry out the plans of
// registration.dfy on these fields; `poll` takes one epoll_wait answer,
// fills the caller's active list and grows the buffer.

/** A LOG_ERROR or LOG_FATAL record of the backend. */
datatype LogRecord =
  | CtlDelError(errno: int)     // "epoll_ctl del error", the loop continues
  | CtlAddModFatal(errno: int)  // "epoll_ctl add/mod error", then exit(1)
  | PollError(errno: int)       // "EpollPoller::poll() err!"

/** Initial number of slots of `events_` (SRC/EPollPoller.h:28). */
const kInitEventListSize: nat := 16

/** The backend's observable state: registry, kernel interest list, whether
    a fatal log ended the process, the error log, and (for the proofs) the
    Channels it has been handed. */
datatype PollerState = PollerState(
  registry: map<int, Channel>,
  kernel: map<int, Entry>,
  buffer: seq<EpollEvent>,
  exited: bool,
  errorLog: seq<LogRecord>,
  channels: set<Channel>)

/** `update(operation, channel)` (SRC/EPollPoller.cc:123-145): the kernel
    result of epoll_ctl; a failed DEL is logged, a failed ADD or MOD is
    logged and ends the process. */
function Ctl(s: PollerState, op: CtlOp, ch: Channel, mask: bv32): (s': PollerState)
  ensures s'.registry == s.registry && s'.channels == s.channels && s'.buffer == s.buffer
  ensures s.errorLog <= s'.errorLog && |s'.errorLog| <= |s.errorLog| + 1
  ensures s'.exited ==> s.exited || op != CtlDel
{
  match EpollCtl(s.kernel, op, ch.fd, Entry(mask, ch))
  case CtlOk(list) => s.(kernel := list)
  case CtlFailed(errno) =>
    if op == CtlDel then s.(errorLog := s.errorLog + [CtlDelError(errno)])
    else s.(errorLog := s.errorLog + [CtlAddModFatal(errno)], exited := true)
}

/** What `update` does when the kernel refuses an operation: a refused DEL is
    logged and the loop goes on, a refused ADD or MOD is logged and ends the
    process; the interest list stays as it was. An accepted operation logs
    nothing. */
lemma CtlFailures(s: PollerState, op: CtlOp, ch: Channel, mask: bv32)
  ensures var s' := Ctl(s, op, ch, mask);
    && (KernelAccepts(op, ch.fd in s.kernel) ==> s'.errorLog == s.errorLog && s'.exited == s.exited)
    && (!KernelAccepts(op, ch.fd in s.kernel) && op == CtlDel ==>
          s' == s.(errorLog := s.errorLog + [CtlDelError(ENOENT)]))
    && (!KernelAccepts(op, ch.fd in s.kernel) && op != CtlDel ==>
          s' == s.(errorLog := s.errorLog + [CtlAddModFatal(if op == CtlAdd then EEXIST else ENOENT)], exited := true))
{
}

/** The state after `updateChannel(ch)` on a Channel with tag `index` and
    interest `mask`. */
function AfterUpdate(s: PollerState, ch: Channel, index: int, mask: bv32): (s': PollerState)
  ensures s'.registry == (if index == kNew then s.registry[ch.fd := ch] else s.registry)
  ensures s.errorLog <= s'.errorLog && |s'.errorLog| <= |s.errorLog| + 1
{
  var p := UpdatePlan(index, mask == kNoneEvent);
  var s1 := if p.insert then s.(registry := s.registry[ch.fd := ch], channels := s.channels + {ch}) else s;
  if p.op.Some? then Ctl(s1, p.op.value, ch, mask) else s1
}

/** The state after `removeChannel(ch)` on a Channel with tag `index`. */
function AfterRemove(s: PollerState, ch: Channel, index: int, mask: bv32): (s': PollerState)
  ensures s'.registry == s.registry - {ch.fd} && s'.channels == s.channels - {ch}
  ensures index != kAdded ==> s'.kernel == s.kernel && s'.errorLog == s.errorLog && s'.exited == s.exited
{
  var p := RemovePlan(index);
  var s1 := s.(registry := s.registry - {ch.fd}, channels := s.channels - {ch});
  if p.op.Some? then Ctl(s1, p.op.value, ch, mask) else s1
}

/** What a registry and an interest list say about one Channel with tag
    `index`. */
function ViewIn(registry: map<int, Channel>, kernel: map<int, Entry>, ch: Channel, index: int): FdView
{
  FdView(index,
         ch.fd in registry && registry[ch.fd] == ch,
         ch.fd in kernel && kernel[ch.fd].ptr == ch)
}

/** No other Channel holds `ch`'s descriptor in the registry or the kernel. */
predicate OwnsFd(s: PollerState, ch: Channel)
{
  && (ch.fd in s.registry ==> s.registry[ch.fd] == ch)
  && (ch.fd in s.kernel ==> s.kernel[ch.fd].ptr == ch)
}

/** The class carries out exactly the per-descriptor state machine: for a
    Channel that owns its descriptor, `updateChannel` moves its view as
    Perform does, and logs a report or ends the process exactly when Perform
    says the kernel refused. */
lemma AfterUpdateIsPerform(s: PollerState, ch: Channel, index: int, mask: bv32)
  requires OwnsFd(s, ch)
  ensures var st := Perform(ViewIn(s.registry, s.kernel, ch, index), UpdateCall(mask == kNoneEvent));
    && var s' := AfterUpdate(s, ch, index, mask);
    && OwnsFd(s', ch)
    && ViewIn(s'.registry, s'.kernel, ch, st.view.index) == st.view
    && st.view.index == UpdatePlan(index, mask == kNoneEvent).newIndex
    && s'.exited == (s.exited || st.fatal)
    && (s'.errorLog == s.errorLog <==> !st.reported && !st.fatal)
{
  var p := UpdatePlan(index, mask == kNoneEvent);
  var s1 := if p.insert then s.(registry := s.registry[ch.fd := ch], channels := s.channels + {ch}) else s;
  assert OwnsFd(s1, ch) && ViewIn(s1.registry, s1.kernel, ch, index).inKernel == ViewIn(s.registry, s.kernel, ch, index).inKernel;
  CtlView(s1, p.op.value, ch, mask);
}

/** One epoll_ctl on a descriptor `ch` owns: the kernel holds `ch` afterwards
    exactly as KernelAccepts and the operation say, and the log and the exit
    flag record a refusal. */
lemma CtlView(s: PollerState, op: CtlOp, ch: Channel, mask: bv32)
  requires OwnsFd(s, ch)
  ensures var s' := Ctl(s, op, ch, mask);
    && var inKernel := ch.fd in s.kernel;
    && OwnsFd(s', ch) && s'.registry == s.registry && s'.channels == s.channels
    && (ch.fd in s'.kernel <==> if KernelAccepts(op, inKernel) then op != CtlDel else inKernel)
    && s'.exited == (s.exited || (!KernelAccepts(op, inKernel) && op != CtlDel))
    && (s'.errorLog == s.errorLog <==> KernelAccepts(op, inKernel))
{
}

/** The same for `removeChannel`. */
lemma AfterRemoveIsPerform(s: PollerState, ch: Channel, index: int, mask: bv32)
  requires OwnsFd(s, ch)
  ensures var st := Perform(ViewIn(s.registry, s.kernel, ch, index), RemoveCall);
    && var s' := AfterRemove(s, ch, index, mask);
    && OwnsFd(s', ch)
    && ViewIn(s'.registry, s'.kernel, ch, kNew) == st.view
    && s'.exited == (s.exited || st.fatal)
    && (s'.errorLog == s.errorLog <==> !st.reported && !st.fatal)
{
}

/** `s'` differs from `s` at most in descriptor `fd`'s registry and kernel
    entries. */
ghost predicate SameElsewhere(s: PollerState, s': PollerState, fd: int)
{
  && (forall d :: d != fd ==> (d in s'.registry <==> d in s.registry))
  && (forall d :: d != fd && d in s.registry ==> s'.registry[d] == s.registry[d])
  && (forall d :: d != fd ==> (d in s'.kernel <==> d in s.kernel))
  && (forall d :: d != fd && d in s.kernel ==> s'.kernel[d] == s.kernel[d])
}

/** `updateChannel(ch)` touches only `ch`'s descriptor, adds `ch` to the
    poller's Channels exactly when it inserts it into the registry, and when
    the kernel accepts the operation leaves `ch`'s kernel entry (if any) with
    `ch`'s current interest. */
lemma AfterUpdateTouchesOnly(s: PollerState, ch: Channel, index: int, mask: bv32)
  ensures var s' := AfterUpdate(s, ch, index, mask);
    && SameElsewhere(s, s', ch.fd)
    && s'.channels == (if index == kNew then s.channels + {ch} else s.channels)
    && s'.buffer == s.buffer
    && (s'.errorLog == s.errorLog && ch.fd in s'.kernel ==> s'.kernel[ch.fd] == Entry(mask, ch))
{
  var p := UpdatePlan(index, mask == kNoneEvent);
  var s1 := if p.insert then s.(registry := s.registry[ch.fd := ch], channels := s.channels + {ch}) else s;
  assert SameElsewhere(s, s1, ch.fd) && s1.kernel == s.kernel;
  if p.op.Some? {
    CtlTouchesOnly(s1, p.op.value, ch, mask);
  }
}

/** epoll_ctl on `ch`'s descriptor leaves every other descriptor's entry, the
    registry and the buffer alone. */
lemma CtlTouchesOnly(s: PollerState, op: CtlOp, ch: Channel, mask: bv32)
  ensures var s' := Ctl(s, op, ch, mask);
    && s'.registry == s.registry && s'.channels == s.channels && s'.buffer == s.buffer
    && (forall d :: d != ch.fd ==> (d in s'.kernel <==> d in s.kernel))
    && (forall d :: d != ch.fd && d in s.kernel ==> s'.kernel[d] == s.kernel[d])
    && (s'.errorLog == s.errorLog && ch.fd in s'.kernel ==> s'.kernel[ch.fd] == Entry(mask, ch))
{
}

/** `removeChannel(ch)` touches only `ch`'s descriptor, drops `ch` from the
    poller's Channels and its descriptor from the registry. */
lemma AfterRemoveTouchesOnly(s: PollerState, ch: Channel, index: int, mask: bv32)
  ensures var s' := AfterRemove(s, ch, index, mask);
    && SameElsewhere(s, s', ch.fd)
    && s'.channels == s.channels - {ch}
    && ch.fd !in s'.registry
    && s'.buffer == s.buffer
{
}

/** The size of `events_` after a `poll` that received `numEvents` records
    into a buffer of `size` slots: it doubles exactly when every slot was
    filled, and never shrinks. */
function NextSize(size: nat, numEvents: nat): (r: nat)
  ensures size > 0 ==> (r == 2 * size <==> numEvents == size)
  ensures r != size ==> r == 2 * size && numEvents == size
{
  if numEvents > 0 && numEvents == size then size * 2 else size
}

class EPollPoller {
  /** `channels_`: descriptor -> Channel. */
  var registry: map<int, Channel>
  /** The interest list of this poller's epoll instance. */
  var kernel: map<int, Entry>
  /** `events_`: the buffer epoll_wait writes into. */
  var events: seq<EpollEvent>
  /** A LOG_FATAL has run: the process has called exit(1). */
  var exited: bool
  /** LOG_ERROR and LOG_FATAL records, oldest first. */
  var errorLog: seq<LogRecord>
  /** The timeout of each epoll_wait call, oldest first. */
  var waits: seq<int>
  /** The Channels handed to this poller and not removed since. */
  ghost var Channels: set<Channel>

  ghost function State(): PollerState
    reads this
  {
    PollerState(registry, kernel, events, exited, errorLog, Channels)
  }

  /** What holds after every operation, whatever the callers do: keys match
      the Channels' descriptors and the buffer never shrinks below 16. */
  ghost predicate Valid()
    reads this`events, this`registry, this`kernel
  {
    && |events| >= kInitEventListSize
    && (forall fd :: fd in registry ==> registry[fd].fd == fd)
    && (forall fd :: fd in kernel ==> kernel[fd].ptr.fd == fd)
  }

  ghost function View(c: Channel): FdView
    reads this`registry, this`kernel, c`index
  {
    ViewIn(registry, kernel, c, c.index)
  }

  /** The kernel holds `c` with exactly the Channel's current interest. */
  ghost predicate Synced(c: Channel)
    reads this`kernel, c`events
  {
    c.fd in kernel && kernel[c.fd].ptr == c ==> kernel[c.fd].mask == c.events
  }

  /** The bookkeeping invariant over all Channels of this poller, except that
      `stale`'s kernel mask may lag behind its interest mask. */
  ghost predicate ConsistentExcept(stale: Channel?)
    reads this`registry, this`kernel, this`Channels, Channels`index, Channels`events
  {
    && (forall fd :: fd in registry ==> registry[fd] in Channels)
    && (forall fd :: fd in kernel ==> kernel[fd].ptr in Channels)
    && (forall c :: c in Channels ==> c.index != kNew && Coherent(View(c)))
    && (forall c :: c in Channels && c != stale ==> Synced(c))
  }

  /** Every Channel of the poller: in the registry iff its tag is not kNew,
      in the kernel (with its current mask) iff its tag is kAdded. */
  ghost predicate Consistent()
    reads this`registry, this`kernel, this`Channels, Channels`index, Channels`events
  {
    ConsistentExcept(null)
  }

  /** `ch` may be handed to the poller without breaking the invariant: it is
      one of its Channels, or a new Channel on a descriptor none of them uses. */
  ghost predicate Admits(ch: Channel)
    reads this`Channels, ch`index
  {
    ch in Channels || (ch.index == kNew && forall c :: c in Channels ==> c.fd != ch.fd)
  }

  /** `EPollPoller(loop)`: empty registry and interest list, 16 slots. */
  constructor ()
    ensures Valid() && Consistent()
    ensures State() == PollerState(map[], map[], events, false, [], {})
    ensures |events| == kInitEventListSize && waits == []
  {
    registry := map[];
    kernel := map[];
    events := seq(kInitEventListSize, _ => ZeroEvent);
    exited := false;
    errorLog := [];
    waits := [];
    Channels := {};
  }

  /** `update(operation, channel)`: issue epoll_ctl with the Channel's mask. */
  method Update(op: CtlOp, ch: Channel)
    requires Valid()
    modifies this`kernel, this`exited, this`errorLog
    ensures Valid()
    ensures State() == Ctl(old(State()), op, ch, ch.events)
  {
    match EpollCtl(kernel, op, ch.fd, Entry(ch.events, ch))
    case CtlOk(list) =>
      kernel := list;
    case CtlFailed(errno) =>
      if op == CtlDel {
        errorLog := errorLog + [CtlDelError(errno)];
      } else {
        errorLog := errorLog + [CtlAddModFatal(errno)];
        exited := true;
      }
  }

  /** The state `updateChannel(ch)` leaves, from state `s0` and tag `index0`. */
  ghost predicate UpdatedFrom(s0: PollerState, ch: Channel, index0: int)
    reads this, ch
  {
    && Valid()
    && State() == AfterUpdate(s0, ch, index0, ch.events)
    && ch.index == UpdatePlan(index0, ch.events == kNoneEvent).newIndex
  }

  /** The state `removeChannel(ch)` leaves, from state `s0` and tag `index0`. */
  ghost predicate RemovedFrom(s0: PollerState, ch: Channel, index0: int)
    reads this, ch
  {
    && Valid()
    && State() == AfterRemove(s0, ch, index0, ch.events)
    && ch.index == kNew
  }

  /** After an update of `ch` from a consistent state: consistent again, `ch`
      one of the poller's Channels, and nothing logged. */
  ghost predicate Updated(exited0: bool, errorLog0: seq<LogRecord>, ch: Channel)
    reads this, Channels`index, Channels`events
  {
    Consistent() && ch in Channels && exited == exited0 && errorLog == errorLog0
  }

  /** After a removal of `ch` from a consistent state: consistent again, and
      `ch`'s descriptor gone from the registry and the kernel, nothing logged. */
  ghost predicate Removed(exited0: bool, errorLog0: seq<LogRecord>, ch: Channel)
    reads this, Channels`index, Channels`events
  {
    && Consistent() && ch !in Channels && exited == exited0 && errorLog == errorLog0
    && ch.fd !in registry && ch.fd !in kernel
  }

  /** Changing a Channel's interest mask keeps every other part of the
      invariant: only that Channel's kernel mask is stale. */
  twostate lemma InterestChangeKeepsConsistent(ch: Channel)
    requires old(Consistent() && Admits(ch))
    requires unchanged(this)
    requires ch.index == old(ch.index)
    requires forall c :: c in Channels && c != ch ==> unchanged(c)
    ensures ConsistentExcept(ch) && Admits(ch)
  {
    forall c | c in Channels
      ensures View(c) == old(View(c))
    {
    }
  }

  /** `updateChannel(channel)`. */
  method UpdateChannel(ch: Channel)
    requires Valid()
    modifies this`registry, this`kernel, this`exited, this`errorLog, this`Channels, ch`index
    ensures UpdatedFrom(old(State()), ch, old(ch.index))
    ensures old(ConsistentExcept(ch) && Admits(ch)) ==> Updated(old(exited), old(errorLog), ch)
  {
    ghost var wasConsistent := ConsistentExcept(ch) && Admits(ch);
    if wasConsistent {
      OwnedWhenAdmitted(ch);
      DistinctFds(ch);
    }
    ghost var s0 := State();
    var index := ch.index;
    ghost var p := UpdatePlan(index, ch.events == kNoneEvent);
    if index == kNew || index == kDeleted {
      if index == kNew {
        registry := registry[ch.fd := ch];
        Channels := Channels + {ch};
      }
      ghost var s1 := State();
      ch.SetIndex(kAdded);
      Update(CtlAdd, ch);
      assert AfterUpdate(s0, ch, index, ch.events) == Ctl(s1, CtlAdd, ch, ch.events);
    } else {
      if ch.IsNoneEvent() {
        Update(CtlDel, ch);
        ch.SetIndex(kDeleted);
      } else {
        Update(CtlMod, ch);
      }
      assert AfterUpdate(s0, ch, index, ch.events) == Ctl(s0, p.op.value, ch, ch.events);
    }
    if wasConsistent {
      UpdateKeepsConsistent(ch);
    }
  }

  /** The proof obligation of `updateChannel`: from a state consistent except
      for `ch`'s stale mask, the new state is consistent. */
  twostate lemma UpdateKeepsConsistent(ch: Channel)
    requires old(ConsistentExcept(ch) && Admits(ch))
    requires old(Valid() && OwnsFd(State(), ch) && Coherent(View(ch)))
    requires forall c :: old(c in Channels) && c != ch ==> c.fd != ch.fd
    requires UpdatedFrom(old(State()), ch, old(ch.index))
    requires ch.events == old(ch.events)
    requires forall c :: c in old(Channels) && c != ch ==> c.index == old(c.index) && c.events == old(c.events)
    ensures Updated(old(exited), old(errorLog), ch)
  {
    AfterUpdateIsPerform(old(State()), ch, old(ch.index), ch.events);
    PerformKeepsCoherent(old(View(ch)), UpdateCall(ch.events == kNoneEvent));
    AfterUpdateTouchesOnly(old(State()), ch, old(ch.index), ch.events);
    forall c | c in Channels && c != ch
      ensures c.index != kNew && Coherent(View(c)) && Synced(c)
    {
      assert c in old(Channels);
    }
  }

  /** Two Channels of a consistent poller do not share a descriptor, and
      neither does a new Channel it admits. */
  lemma DistinctFds(ch: Channel)
    requires Valid() && ConsistentExcept(ch) && Admits(ch)
    ensures forall c :: c in Channels && c != ch ==> c.fd != ch.fd
  {
    forall c | c in Channels && c != ch
      ensures c.fd != ch.fd
    {
      if ch in Channels {
        assert registry[c.fd] == c && registry[ch.fd] == ch;
      }
    }
  }

  /** `removeChannel(channel)`. */
  method RemoveChannel(ch: Channel)
    requires Valid()
    modifies this`registry, this`kernel, this`exited, this`errorLog, this`Channels, ch`index
    ensures RemovedFrom(old(State()), ch, old(ch.index))
    ensures old(Consistent() && Admits(ch)) ==> Removed(old(exited), old(errorLog), ch)
  {
    ghost var wasConsistent := Consistent() && Admits(ch);
    if wasConsistent {
      OwnedWhenAdmitted(ch);
      DistinctFds(ch);
    }
    var fd := ch.fd;
    registry := registry - {fd};
    Channels := Channels - {ch};
    var index := ch.index;
    if index == kAdded {
      Update(CtlDel, ch);
    }
    ch.SetIndex(kNew);
    if wasConsistent {
      RemoveKeepsConsistent(ch);
    }
  }

  /** The proof obligation of `removeChannel`. */
  twostate lemma RemoveKeepsConsistent(ch: Channel)
    requires old(Consistent() && Admits(ch))
    requires old(Valid() && OwnsFd(State(), ch) && Coherent(View(ch)))
    requires forall c :: old(c in Channels) && c != ch ==> c.fd != ch.fd
    requires RemovedFrom(old(State()), ch, old(ch.index))
    requires ch.events == old(ch.events)
    requires forall c :: c in old(Channels) && c != ch ==> c.index == old(c.index) && c.events == old(c.events)
    ensures Removed(old(exited), old(errorLog), ch)
  {
    AfterRemoveIsPerform(old(State()), ch, old(ch.index), ch.events);
    PerformKeepsCoherent(old(View(ch)), RemoveCall);
    AfterRemoveTouchesOnly(old(State()), ch, old(ch.index), ch.events);
    forall c | c in Channels
      ensures c.index != kNew && Coherent(View(c)) && Synced(c)
    {
      assert c in old(Channels) && c != ch;
    }
    forall fd | fd in registry
      ensures registry[fd] in Channels
    {
      assert registry[fd] == old(registry)[fd];
    }
    forall fd | fd in kernel
      ensures kernel[fd].ptr in Channels
    {
      assert kernel[fd] == old(kernel)[fd];
    }
  }

  /** A Channel the invariant admits owns its descriptor and is coherent. */
  lemma OwnedWhenAdmitted(ch: Channel)
    requires Valid() && ConsistentExcept(ch) && Admits(ch)
    ensures OwnsFd(State(), ch) && Coherent(View(ch))
  {
    if ch.fd in registry {
      assert registry[ch.fd] in Channels;
    }
    if ch.fd in kernel {
      assert kernel[ch.fd].ptr in Channels;
    }
  }

  /** `fillActiveChannels(numEvents, activeChannels)`: append the Channel of
      each of the first `numEvents` records, in buffer order, after setting
      its observed events. */
  method FillActiveChannels(numEvents: nat, active: seq<Channel>) returns (filled: seq<Channel>)
    requires numEvents <= |events|
    requires NonNull(events[..numEvents])
    requires forall i, j :: 0 <= i < j < numEvents ==> events[i].ptr != events[j].ptr
    modifies ChannelsOf(events[..numEvents])`revents
    ensures filled == active + Ptrs(events[..numEvents])
    ensures forall i :: 0 <= i < numEvents ==> events[i].ptr.revents == events[i].events
  {
    filled := active;
    var i := 0;
    while i < numEvents
      invariant 0 <= i <= numEvents
      invariant filled == active + Ptrs(events[..i])
      invariant forall k :: 0 <= k < i ==> events[k].ptr.revents == events[k].events
    {
      var channel: Channel := events[i].ptr;
      channel.SetRevents(events[i].events);
      filled := filled + [channel];
      i := i + 1;
    }
  }

  /** The `::epoll_wait` call of `poll`: at most `events_.size()` ready
      records are copied to the front of the buffer; -1 and the errno on a
      failure. */
  method Wait(timeoutMs: int, w: WaitResult) returns (numEvents: int, saveErrno: int)
    modifies this`events, this`waits
    ensures waits == old(waits) + [timeoutMs]
    ensures w.Ready? ==>
      && numEvents == |Received(w, |old(events)|)|
      && events == Received(w, |old(events)|) + old(events)[numEvents..]
    ensures w.Failed? ==> numEvents == -1 && saveErrno == w.errno && events == old(events)
  {
    waits := waits + [timeoutMs];
    saveErrno := 0;
    match w {
      case Ready(ready) =>
        numEvents := if |ready| <= |events| then |ready| else |events|;
        events := ready[..numEvents] + events[numEvents..];
      case Failed(errno) =>
        numEvents := -1;
        saveErrno := errno;
    }
  }

  /** `poll(timeoutMs, activeChannels)` with `w` as epoll_wait's answer and
      `now` as the clock reading after it. */
  method Poll(timeoutMs: int, active: seq<Channel>, w: WaitResult, now: Timestamp)
    returns (t: Timestamp, filled: seq<Channel>)
    requires Valid() && DrawnFrom(kernel, w)
    modifies this`events, this`errorLog, this`waits, ChannelsOf(Received(w, |events|))`revents
    ensures Valid()
    ensures old(Consistent()) ==> Consistent()
    ensures t == now && waits == old(waits) + [timeoutMs]
    ensures var got := Received(w, |old(events)|);
      && filled == active + Ptrs(got)
      && (forall i :: 0 <= i < |got| ==> got[i].ptr.revents == got[i].events)
      && |events| == NextSize(|old(events)|, |got|)
    ensures errorLog == old(errorLog) + PollLog(w)
    ensures registry == old(registry) && kernel == old(kernel) && exited == old(exited) && Channels == old(Channels)
  {
    ghost var wasConsistent := Consistent();
    var numEvents, saveErrno := Wait(timeoutMs, w);
    t := now;
    filled := active;
    if numEvents > 0 {
      filled := FillActiveChannels(numEvents, active);
      if numEvents == |events| {
        events := events + seq(|events|, _ => ZeroEvent);
      }
    } else if numEvents == 0 {
      // timeout
    } else {
      if saveErrno != EINTR {
        errorLog := errorLog + [PollError(saveErrno)];
      }
    }
    if wasConsistent {
      MasksKeepConsistent();
    }
  }

  /** The invariant depends on the Channels' tags and interest masks only:
      a step that keeps those, the registry, the kernel and the set of
      Channels keeps it. */
  twostate lemma MasksKeepConsistent()
    requires old(Consistent())
    requires registry == old(registry) && kernel == old(kernel) && Channels == old(Channels)
    requires forall c :: c in Channels ==> c.index == old(c.index) && c.events == old(c.events)
    ensures Consistent()
  {
    forall c | c in Channels
      ensures View(c) == old(View(c)) && Synced(c) == old(Synced(c))
    {
    }
  }
}

/** epoll_wait reports only descriptors of the interest list, each at most
    once, with the `data.ptr` registered for it. */
ghost predicate DrawnFrom(kernel: map<int, Entry>, w: WaitResult)
{
  w.Ready? ==>
    && NonNull(w.ready)
    && (forall i :: 0 <= i < |w.ready| ==>
          w.ready[i].ptr.fd in kernel && kernel[w.ready[i].ptr.fd].ptr == w.ready[i].ptr)
    && (forall i, j :: 0 <= i < j < |w.ready| ==> w.ready[i].ptr != w.ready[j].ptr)
}

/** The Channels a run of records points at. */
function ChannelsOf(recs: seq<EpollEvent>): set<Channel>
{
  set i | 0 <= i < |recs| && recs[i].ptr != null :: recs[i].ptr as Channel
}


/** What `poll` logs for an epoll_wait answer: an error other than EINTR. */
function PollLog(w: WaitResult): seq<LogRecord>
{
  if w.Failed? && w.errno != EINTR then [PollError(w.errno)] else []
}
