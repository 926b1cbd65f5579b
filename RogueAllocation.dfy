/** The allocation header every heap object starts with. Its `size` field
    doubles as the collector's mark (see module RogueMark). */
module RogueAllocation {

  class Allocation {
    var size: int

    constructor Init(size: int)
      ensures this.size == size
    {
      this.size := size;
    }
  }
}
