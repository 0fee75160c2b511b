// The kernel side of epoll, as abstract values (sys/epoll.h).
//
// The system calls themselves are not part of this model. An epoll instance
// is represented by its interest list, a map from descriptor to the event
// mask and the `data.ptr` the backend registered with it; epoll_ctl is a pure
// function of that list; epoll_wait is an answer supplied by the environment
// (a list of readiness records drawn from the interest list, or an errno).

const ENOENT: int := 2
const EINTR: int := 4
const EEXIST: int := 17

/** One `struct epoll_event`: the event bits and the `data.ptr` word. */
datatype EpollEvent = EpollEvent(events: bv32, ptr: Channel?)

/** A value-initialised `epoll_event`, as `std::vector::resize` appends. */
const ZeroEvent: EpollEvent := EpollEvent(0, null)

/** What the interest list holds for one registered descriptor. */
datatype Entry = Entry(mask: bv32, ptr: Channel)

/** The result of epoll_ctl: the new interest list, or the errno it failed with. */
datatype CtlResult = CtlOk(list: map<int, Entry>) | CtlFailed(errno: int)

/** epoll_ctl(epfd, op, fd, {mask, ptr}) on the interest list `list`. */
function EpollCtl(list: map<int, Entry>, op: CtlOp, fd: int, e: Entry): (r: CtlResult)
  ensures r.CtlOk? <==> KernelAccepts(op, fd in list)
  ensures r.CtlFailed? ==> r.errno == (if op == CtlAdd then EEXIST else ENOENT)
  ensures r.CtlOk? && op == CtlDel ==> r.list.Keys == list.Keys - {fd}
  ensures r.CtlOk? && op != CtlDel ==> fd in r.list && r.list[fd] == e
  ensures r.CtlOk? ==> forall d :: d != fd ==> (d in r.list <==> d in list) && (d in list ==> r.list[d] == list[d])
{
  if !KernelAccepts(op, fd in list) then CtlFailed(if op == CtlAdd then EEXIST else ENOENT)
  else if op == CtlDel then CtlOk(list - {fd})
  else CtlOk(list[fd := e])
}

/** What one epoll_wait call returns: the ready records (none on a timeout),
    or a failure with its errno. */
datatype WaitResult = Ready(ready: seq<EpollEvent>) | Failed(errno: int)

/** The wall clock (SRC/Timestamp.h), kept opaque: read once per poll. */
datatype Timestamp = Timestamp(microSecondsSinceEpoch: int)

/** One epoll_wait answer and the clock reading taken right after it. */
datatype Round = Round(wait: WaitResult, now: Timestamp)

/** The records epoll_wait copies into a buffer of `size` slots: the longest
    run of the ready ones, from the front, that fits; the rest stay pending in
    the kernel. */
function Received(w: WaitResult, size: nat): (got: seq<EpollEvent>)
  ensures w.Ready? ==> |got| == (if |w.ready| <= size then |w.ready| else size) && got == w.ready[..|got|]
  ensures w.Failed? ==> got == []
  ensures |got| <= size
{
  match w
  case Ready(ready) => if |ready| <= size then ready else ready[..size]
  case Failed(_) => []
}

/** Every record carries a Channel pointer. */
predicate NonNull(recs: seq<EpollEvent>)
{
  forall i :: 0 <= i < |recs| ==> recs[i].ptr != null
}

predicate WaitNonNull(w: WaitResult)
{
  w.Ready? ==> NonNull(w.ready)
}

/** The Channel pointers of a run of records, in order. */
function Ptrs(recs: seq<EpollEvent>): (chs: seq<Channel>)
  requires NonNull(recs)
  ensures |chs| == |recs|
  ensures forall i :: 0 <= i < |recs| ==> chs[i] == recs[i].ptr
{
  seq(|recs|, i requires 0 <= i < |recs| => var c: Channel := recs[i].ptr; c)
}
