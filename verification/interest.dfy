// Interest and readiness bit masks of a Channel (SRC/Channel.h:43-52, 65-67).
//
// The source keeps the masks in a C `int` and edits them with `|=`, `&= ~`
// and `=`; a 32-bit bit-vector models that int bit for bit. The three
// constants are defined in Channel.cc, which is not part of this model; they
// take the values of sys/epoll.h that the Reactor registers with the kernel.

const EPOLLIN: bv32 := 0x001
const EPOLLPRI: bv32 := 0x002
const EPOLLOUT: bv32 := 0x004

/** No event of interest. */
const kNoneEvent: bv32 := 0
/** Readable (normal or priority data). */
const kReadEvent: bv32 := 0x003  // EPOLLIN | EPOLLPRI
/** Writable. */
const kWriteEvent: bv32 := 0x004  // EPOLLOUT

/** `isReading()`: some read bit of the mask is set. */
predicate Reading(mask: bv32) { mask & kReadEvent != 0 }

/** `isWriting()`: some write bit of the mask is set. */
predicate Writing(mask: bv32) { mask & kWriteEvent != 0 }

/** The only bits the interest mutators ever set are the read and write bits. */
predicate InterestOnly(mask: bv32) { mask & !(kReadEvent | kWriteEvent) == 0 }

/** `events_ |= kReadEvent`: every read bit on, every other bit as it was. */
function WithRead(mask: bv32): (r: bv32)
  ensures r & kReadEvent == kReadEvent
  ensures r & !kReadEvent == mask & !kReadEvent
{
  mask | kReadEvent
}

/** `events_ &= ~kReadEvent`: every read bit off, every other bit as it was. */
function WithoutRead(mask: bv32): (r: bv32)
  ensures r & kReadEvent == 0
  ensures r & !kReadEvent == mask & !kReadEvent
{
  mask & !kReadEvent
}

/** `events_ |= kWriteEvent`: every write bit on, every other bit as it was. */
function WithWrite(mask: bv32): (r: bv32)
  ensures r & kWriteEvent == kWriteEvent
  ensures r & !kWriteEvent == mask & !kWriteEvent
{
  mask | kWriteEvent
}

/** `events_ &= ~kWriteEvent`: every write bit off, every other bit as it was. */
function WithoutWrite(mask: bv32): (r: bv32)
  ensures r & kWriteEvent == 0
  ensures r & !kWriteEvent == mask & !kWriteEvent
{
  mask & !kWriteEvent
}

/** Each mutator touches only its own interest and keeps the other one. */
lemma EnableReadingKeepsWriting(mask: bv32)
  ensures Reading(WithRead(mask)) && Writing(WithRead(mask)) == Writing(mask)
{
}

lemma DisableReadingKeepsWriting(mask: bv32)
  ensures !Reading(WithoutRead(mask)) && Writing(WithoutRead(mask)) == Writing(mask)
{
}

lemma EnableWritingKeepsReading(mask: bv32)
  ensures Writing(WithWrite(mask)) && Reading(WithWrite(mask)) == Reading(mask)
{
}

lemma DisableWritingKeepsReading(mask: bv32)
  ensures !Writing(WithoutWrite(mask)) && Reading(WithoutWrite(mask)) == Reading(mask)
{
}

/** No mutator sets a bit outside the read and write bits. */
lemma MutatorsKeepInterestOnly(mask: bv32)
  requires InterestOnly(mask)
  ensures InterestOnly(WithRead(mask)) && InterestOnly(WithoutRead(mask))
  ensures InterestOnly(WithWrite(mask)) && InterestOnly(WithoutWrite(mask))
  ensures InterestOnly(kNoneEvent)
{
}

/** Enabling an interest twice is the same as enabling it once. */
lemma EnableIdempotent(mask: bv32)
  ensures WithRead(WithRead(mask)) == WithRead(mask)
  ensures WithWrite(WithWrite(mask)) == WithWrite(mask)
{
}

/** Disabling undoes enabling: the mask returns to its state with that interest off. */
lemma DisableReadingUndoesEnable(mask: bv32)
  ensures WithoutRead(WithRead(mask)) == WithoutRead(mask)
{
}

lemma DisableWritingUndoesEnable(mask: bv32)
  ensures WithoutWrite(WithWrite(mask)) == WithoutWrite(mask)
{
}

/** On a mask built by the mutators, "no event" is exactly "neither reading nor writing". */
lemma NoneIffNeither(mask: bv32)
  requires InterestOnly(mask)
  ensures mask == kNoneEvent <==> !Reading(mask) && !Writing(mask)
{
}

/** A Channel with no interest that enables reading is interested in exactly
    the read events. */
lemma ReadFromNone()
  ensures WithRead(kNoneEvent) == kReadEvent
{
}
