// The registration state machine of the epoll backend, as pure functions
// (SRC/EPollPoller.cc:9-12, 63-110, 122-145).
//
// A Channel's `index_` field holds one of three tags. `updateChannel` and
// `removeChannel` decide from that tag (and, for an added Channel, from
// whether its interest mask is empty) whether to touch the descriptor
// registry, which epoll_ctl operation to issue, and which tag to leave behind.
// UpdatePlan and RemovePlan are that decision; the EPollPoller class carries
// it out on its fields. FdView is what one descriptor looks like to the
// backend, and the lemmas below prove that the decision keeps the registry,
// the kernel interest list and the tag in step, whatever the order of calls.

datatype Option<T> = None | Some(value: T)

/** Never added to the poller (the value a Channel starts with). */
const kNew: int := -1
/** Registered with the kernel. */
const kAdded: int := 1
/** Taken off the kernel, still in the registry. */
const kDeleted: int := 2

predicate IsTag(index: int) { index == kNew || index == kAdded || index == kDeleted }

/** EPOLL_CTL_ADD, EPOLL_CTL_MOD, EPOLL_CTL_DEL. */
datatype CtlOp = CtlAdd | CtlMod | CtlDel

/** What one registry call does: insert fd -> Channel, erase fd, issue an
    epoll_ctl operation, and the tag it leaves behind. */
datatype Plan = Plan(insert: bool, erase: bool, op: Option<CtlOp>, newIndex: int)

/** `updateChannel` (SRC/EPollPoller.cc:64-94). */
function UpdatePlan(index: int, noneEvent: bool): (p: Plan)
  ensures p.op.Some? && !p.erase
  ensures p.insert <==> index == kNew
  ensures p.op.value == CtlAdd <==> index == kNew || index == kDeleted
  ensures IsTag(index) ==> IsTag(p.newIndex) && (p.newIndex == kAdded <==> p.op.value != CtlDel)
{
  if index == kNew || index == kDeleted then
    Plan(index == kNew, false, Some(CtlAdd), kAdded)
  else if noneEvent then
    Plan(false, false, Some(CtlDel), kDeleted)
  else
    Plan(false, false, Some(CtlMod), index)
}

/** `removeChannel` (SRC/EPollPoller.cc:97-110). */
function RemovePlan(index: int): (p: Plan)
  ensures p.erase && !p.insert && p.newIndex == kNew
  ensures p.op.Some? <==> index == kAdded
  ensures p.op.Some? ==> p.op.value == CtlDel
{
  Plan(false, true, if index == kAdded then Some(CtlDel) else None, kNew)
}

/** epoll_ctl on the kernel side: ADD is refused (EEXIST) for a descriptor
    already in the interest list, MOD and DEL are refused (ENOENT) for one
    that is not. */
predicate KernelAccepts(op: CtlOp, inKernel: bool)
{
  if op == CtlAdd then !inKernel else inKernel
}

/** One descriptor as the backend sees it: its Channel's tag, whether the
    registry maps the descriptor to that Channel, and whether the kernel
    interest list holds it. */
datatype FdView = FdView(index: int, inRegistry: bool, inKernel: bool)

/** The backend's bookkeeping invariant for one descriptor: it is in the
    registry iff the tag is not kNew, and registered with the kernel iff the
    tag is kAdded. */
predicate Coherent(v: FdView)
{
  && IsTag(v.index)
  && (v.inRegistry <==> v.index != kNew)
  && (v.inKernel <==> v.index == kAdded)
}

/** A call of `updateChannel` (with the mask empty or not) or `removeChannel`. */
datatype Call = UpdateCall(noneEvent: bool) | RemoveCall

/** The result of one call: the new view, and whether the kernel refused the
    operation with the failure reported (DEL) or fatal (ADD, MOD). */
datatype Step = Step(view: FdView, reported: bool, fatal: bool)

function PlanOf(v: FdView, c: Call): Plan
{
  match c
  case UpdateCall(noneEvent) => UpdatePlan(v.index, noneEvent)
  case RemoveCall => RemovePlan(v.index)
}

function Perform(v: FdView, c: Call): Step
{
  var p := PlanOf(v, c);
  var inRegistry := if p.insert then true else if p.erase then false else v.inRegistry;
  match p.op
  case None => Step(FdView(p.newIndex, inRegistry, v.inKernel), false, false)
  case Some(op) =>
    if KernelAccepts(op, v.inKernel) then
      Step(FdView(p.newIndex, inRegistry, op != CtlDel), false, false)
    else
      Step(FdView(p.newIndex, inRegistry, v.inKernel), op == CtlDel, op != CtlDel)
}

/** A run of calls on one descriptor: where it ends, how many kernel failures
    were reported, and whether one of them was fatal (the run stops there). */
datatype Run = Run(view: FdView, reports: nat, halted: bool)

function RunCalls(v: FdView, calls: seq<Call>): Run
  decreases |calls|
{
  if calls == [] then Run(v, 0, false)
  else
    var s := Perform(v, calls[0]);
    if s.fatal then Run(s.view, if s.reported then 1 else 0, true)
    else
      var rest := RunCalls(s.view, calls[1..]);
      Run(rest.view, rest.reports + (if s.reported then 1 else 0), rest.halted)
}

/** One call keeps the invariant, and the kernel accepts every operation the
    backend issues for a coherent descriptor. */
lemma PerformKeepsCoherent(v: FdView, c: Call)
  requires Coherent(v)
  ensures Coherent(Perform(v, c).view)
  ensures !Perform(v, c).reported && !Perform(v, c).fatal
{
}

/** Across any sequence of `updateChannel`/`removeChannel` calls on a
    descriptor, the registry holds it iff its tag is not kNew, the kernel
    holds it iff its tag is kAdded, and no epoll_ctl is ever refused. */
lemma {:induction false} CoherentAcrossCalls(v: FdView, calls: seq<Call>)
  requires Coherent(v)
  ensures Coherent(RunCalls(v, calls).view)
  ensures RunCalls(v, calls).reports == 0 && !RunCalls(v, calls).halted
  decreases |calls|
{
  if calls != [] {
    PerformKeepsCoherent(v, calls[0]);
    CoherentAcrossCalls(Perform(v, calls[0]).view, calls[1..]);
  }
}

/** The transition table, row by row, for a coherent descriptor. */
lemma UpdateTransitions(v: FdView, noneEvent: bool)
  requires Coherent(v)
  ensures v.index == kNew ==>
    Perform(v, UpdateCall(noneEvent)).view == FdView(kAdded, true, true)
  ensures v.index == kDeleted ==>
    PlanOf(v, UpdateCall(noneEvent)) == Plan(false, false, Some(CtlAdd), kAdded)
    && Perform(v, UpdateCall(noneEvent)).view == FdView(kAdded, true, true)
  ensures v.index == kAdded && noneEvent ==>
    PlanOf(v, UpdateCall(noneEvent)).op == Some(CtlDel)
    && Perform(v, UpdateCall(noneEvent)).view == FdView(kDeleted, true, false)
  ensures v.index == kAdded && !noneEvent ==>
    PlanOf(v, UpdateCall(noneEvent)).op == Some(CtlMod)
    && Perform(v, UpdateCall(noneEvent)).view == v
{
}

/** `removeChannel` always ends at kNew outside the registry and the kernel;
    a second call issues no kernel operation and changes nothing. */
lemma RemoveTwiceIsNoOp(v: FdView)
  requires Coherent(v)
  ensures Perform(v, RemoveCall).view == FdView(kNew, false, false)
  ensures PlanOf(v, RemoveCall).op == (if v.index == kAdded then Some(CtlDel) else None)
  ensures PlanOf(Perform(v, RemoveCall).view, RemoveCall).op == None
  ensures Perform(Perform(v, RemoveCall).view, RemoveCall).view == Perform(v, RemoveCall).view
{
}
