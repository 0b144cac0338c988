/** An `int` object in memory: the referent of a C++ pointer (`int*`) or of a
    reference (`int&`). Two pointers or references to the same variable are two
    Dafny references to the same IntCell. */
module Memory {
  import opened MachineInt

  class IntCell {
    var value: Int32

    /** `int n = v;` or `new int(v)` */
    constructor (v: Int32)
      ensures value == v
    {
      value := v;
    }
  }
}
