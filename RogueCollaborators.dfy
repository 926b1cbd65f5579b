/** Collaborators of the type descriptor whose code is not part of this model:
    the VM, the VM list that holds a type's methods, and the command node a
    type originates from. Each traceable one only records how often it was
    traced, and (as ghost state) the size field of the allocation header of
    the descriptor that traced it, read from that header at the moment of the
    call. The latter lets the descriptor's trace state that it marks itself
    before it traces what it owns. */
module RogueCollaborators {
  import opened RogueAllocation

  /** The virtual machine a type belongs to; its allocator is not modelled. */
  class RogueVM {
    constructor Init()
    {
    }
  }

  /** RogueVMList: an ordered list of method records with an initial capacity. */
  class RogueVMList {
    const vm: RogueVM
    const initialCapacity: int
    var count: nat
    var traceCount: nat
    ghost var tracedBy: seq<(Allocation, int)>

    /** RogueVMList_create: a fresh, empty, untraced list. */
    constructor Create(vm: RogueVM, initialCapacity: int)
      ensures this.vm == vm && this.initialCapacity == initialCapacity
      ensures count == 0 && traceCount == 0 && tracedBy == []
    {
      this.vm := vm;
      this.initialCapacity := initialCapacity;
      count := 0;
      traceCount := 0;
      tracedBy := [];
    }

    /** RogueVMList_trace: traces the list and its elements; observed here only
        as one more trace of the list, noting the size field of the owner's
        header as it is during the call. */
    method Trace(ghost owner: Allocation)
      modifies this
      ensures traceCount == old(traceCount) + 1
      ensures tracedBy == old(tracedBy) + [(owner, owner.size)]
      ensures count == old(count)
    {
      traceCount := traceCount + 1;
      tracedBy := tracedBy + [(owner, owner.size)];
    }
  }

  /** RogueCmd: the command node that introduced a type. */
  class RogueCmd {
    var traceCount: nat
    ghost var tracedBy: seq<(Allocation, int)>

    constructor Init()
      ensures traceCount == 0 && tracedBy == []
    {
      traceCount := 0;
      tracedBy := [];
    }

    /** RogueCmd_trace, observed only as one more trace of the command, made
        noting the size field of the owner's header as it is during the call. */
    method Trace(ghost owner: Allocation)
      modifies this
      ensures traceCount == old(traceCount) + 1
      ensures tracedBy == old(tracedBy) + [(owner, owner.size)]
    {
      traceCount := traceCount + 1;
      tracedBy := tracedBy + [(owner, owner.size)];
    }
  }
}
