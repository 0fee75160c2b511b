// A Channel: one descriptor's interest mask, observed events, registration
// tag and callbacks (SRC/Channel.h).
//
// Channel.cc is not part of this model. Of it, the model takes only what the
// header and its callers fix: a new Channel starts with the tag kNew (the
// comment at SRC/EPollPoller.cc:9) and no interest; `update()` and
// `remove()` hand the Channel to its loop's `updateChannel` and
// `removeChannel`. `handleEvent` and `tie` are left out.

/** A `std::function` slot, as data: empty, the loop's own wakeup handler,
    or a user callback identified by a number. */
datatype Callback = NoCallback | WakeupRead | UserCallback(id: nat)

class Channel {
  const loop: EventLoop
  /** `fd_`: fixed for the Channel's lifetime. */
  const fd: int
  /** `events_`: the interest mask. */
  var events: bv32
  /** `revents_`: the events epoll last reported. */
  var revents: bv32
  /** `index_`: the registration tag kNew, kAdded or kDeleted. */
  var index: int
  var readCallback: Callback
  var writeCallback: Callback
  var closeCallback: Callback
  var errorCallback: Callback

  /** `Channel(loop, fd)`. */
  constructor (loop: EventLoop, fd: int)
    ensures this.loop == loop && this.fd == fd
    ensures events == kNoneEvent && revents == 0 && index == kNew
    ensures readCallback == writeCallback == closeCallback == errorCallback == NoCallback
  {
    this.loop := loop;
    this.fd := fd;
    events := kNoneEvent;
    revents := 0;
    index := kNew;
    readCallback, writeCallback, closeCallback, errorCallback := NoCallback, NoCallback, NoCallback, NoCallback;
  }

  method SetReadCallback(cb: Callback)
    modifies this`readCallback
    ensures readCallback == cb
  {
    readCallback := cb;
  }

  method SetWriteCallback(cb: Callback)
    modifies this`writeCallback
    ensures writeCallback == cb
  {
    writeCallback := cb;
  }

  method SetCloseCallback(cb: Callback)
    modifies this`closeCallback
    ensures closeCallback == cb
  {
    closeCallback := cb;
  }

  method SetErrorCallback(cb: Callback)
    modifies this`errorCallback
    ensures errorCallback == cb
  {
    errorCallback := cb;
  }

  /** `set_revents(revt)`. */
  method SetRevents(revt: bv32)
    modifies this`revents
    ensures revents == revt
  {
    revents := revt;
  }

  /** `set_index(idx)`. */
  method SetIndex(idx: int)
    modifies this`index
    ensures index == idx
  {
    index := idx;
  }

  /** `isNoneEvent()`. */
  predicate IsNoneEvent()
    reads this
    ensures IsNoneEvent() ==> !Reading(events) && !Writing(events)
  {
    events == kNoneEvent
  }

  /** `isReading()`. */
  predicate IsReading()
    reads this
    ensures IsReading() <==> events & EPOLLIN == EPOLLIN || events & EPOLLPRI == EPOLLPRI
  {
    Reading(events)
  }

  /** `isWriting()`. */
  predicate IsWriting()
    reads this
    ensures IsWriting() <==> events & EPOLLOUT == EPOLLOUT
    ensures IsWriting() ==> events != kNoneEvent
  {
    Writing(events)
  }

  /** `update()`: hand the Channel to its loop's `updateChannel`. */
  method Update()
    requires loop.poller.Valid()
    modifies this`index, loop.poller`registry, loop.poller`kernel, loop.poller`exited, loop.poller`errorLog, loop.poller`Channels
    ensures loop.poller.UpdatedFrom(old(loop.poller.State()), this, old(index))
    ensures old(loop.poller.ConsistentExcept(this) && loop.poller.Admits(this)) ==>
      loop.poller.Updated(old(loop.poller.exited), old(loop.poller.errorLog), this)
  {
    loop.UpdateChannel(this);
  }

  /** `remove()`: hand the Channel to its loop's `removeChannel`. */
  method Remove()
    requires loop.poller.Valid()
    modifies this`index, loop.poller`registry, loop.poller`kernel, loop.poller`exited, loop.poller`errorLog, loop.poller`Channels
    ensures loop.poller.RemovedFrom(old(loop.poller.State()), this, old(index))
    ensures old(loop.poller.Consistent() && loop.poller.Admits(this)) ==>
      loop.poller.Removed(old(loop.poller.exited), old(loop.poller.errorLog), this)
  {
    loop.RemoveChannel(this);
  }

  /** `enableReading()`: set the read interest, then `update()`. */
  method EnableReading()
    requires loop.poller.Valid()
    modifies this`events, this`index, loop.poller`registry, loop.poller`kernel, loop.poller`exited, loop.poller`errorLog, loop.poller`Channels
    ensures events == WithRead(old(events))
    ensures loop.poller.UpdatedFrom(old(loop.poller.State()), this, old(index))
    ensures old(loop.poller.Consistent() && loop.poller.Admits(this)) ==>
      loop.poller.Updated(old(loop.poller.exited), old(loop.poller.errorLog), this)
  {
    ghost var wasConsistent := loop.poller.Consistent() && loop.poller.Admits(this);
    events := WithRead(events);
    if wasConsistent {
      loop.poller.InterestChangeKeepsConsistent(this);
    }
    Update();
  }

  /** `disableReading()`: clear the read interest, then `update()`. */
  method DisableReading()
    requires loop.poller.Valid()
    modifies this`events, this`index, loop.poller`registry, loop.poller`kernel, loop.poller`exited, loop.poller`errorLog, loop.poller`Channels
    ensures events == WithoutRead(old(events))
    ensures loop.poller.UpdatedFrom(old(loop.poller.State()), this, old(index))
    ensures old(loop.poller.Consistent() && loop.poller.Admits(this)) ==>
      loop.poller.Updated(old(loop.poller.exited), old(loop.poller.errorLog), this)
  {
    ghost var wasConsistent := loop.poller.Consistent() && loop.poller.Admits(this);
    events := WithoutRead(events);
    if wasConsistent {
      loop.poller.InterestChangeKeepsConsistent(this);
    }
    Update();
  }

  /** `enableWriting()`: set the write interest, then `update()`. */
  method EnableWriting()
    requires loop.poller.Valid()
    modifies this`events, this`index, loop.poller`registry, loop.poller`kernel, loop.poller`exited, loop.poller`errorLog, loop.poller`Channels
    ensures events == WithWrite(old(events))
    ensures loop.poller.UpdatedFrom(old(loop.poller.State()), this, old(index))
    ensures old(loop.poller.Consistent() && loop.poller.Admits(this)) ==>
      loop.poller.Updated(old(loop.poller.exited), old(loop.poller.errorLog), this)
  {
    ghost var wasConsistent := loop.poller.Consistent() && loop.poller.Admits(this);
    events := WithWrite(events);
    if wasConsistent {
      loop.poller.InterestChangeKeepsConsistent(this);
    }
    Update();
  }

  /** `disableWriting()`: clear the write interest, then `update()`. */
  method DisableWriting()
    requires loop.poller.Valid()
    modifies this`events, this`index, loop.poller`registry, loop.poller`kernel, loop.poller`exited, loop.poller`errorLog, loop.poller`Channels
    ensures events == WithoutWrite(old(events))
    ensures loop.poller.UpdatedFrom(old(loop.poller.State()), this, old(index))
    ensures old(loop.poller.Consistent() && loop.poller.Admits(this)) ==>
      loop.poller.Updated(old(loop.poller.exited), old(loop.poller.errorLog), this)
  {
    ghost var wasConsistent := loop.poller.Consistent() && loop.poller.Admits(this);
    events := WithoutWrite(events);
    if wasConsistent {
      loop.poller.InterestChangeKeepsConsistent(this);
    }
    Update();
  }

  /** `disableAll()`: no interest at all, then `update()`. */
  method DisableAll()
    requires loop.poller.Valid()
    modifies this`events, this`index, loop.poller`registry, loop.poller`kernel, loop.poller`exited, loop.poller`errorLog, loop.poller`Channels
    ensures events == kNoneEvent && IsNoneEvent() && !IsReading() && !IsWriting()
    ensures loop.poller.UpdatedFrom(old(loop.poller.State()), this, old(index))
    ensures old(loop.poller.Consistent() && loop.poller.Admits(this)) ==>
      loop.poller.Updated(old(loop.poller.exited), old(loop.poller.errorLog), this)
  {
    ghost var wasConsistent := loop.poller.Consistent() && loop.poller.Admits(this);
    events := kNoneEvent;
    if wasConsistent {
      loop.poller.InterestChangeKeepsConsistent(this);
    }
    Update();
  }
}
