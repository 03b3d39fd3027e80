/** The slots of the fd table. */
module FdSlots {
  import opened Options

  const SLOTS := 512

  type Obj = nat   // identity of an EFILE

  /** fd -1 marks a free slot. */
  datatype Slot = Slot(fd: int, f: Option<Obj>)
}
