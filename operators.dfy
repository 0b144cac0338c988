/** Model of src/operators_demo.cpp: class `Integer`, which owns a heap `int` through
    the pointer `pVal_` (null once moved from), and the free `operator+` overloads.
    The heap `int` is an IntCell; releasing it with `delete` has no counterpart here. */
module Operators {
  import opened MachineInt
  import opened Memory

  class Integer {
    var pVal: IntCell?

    /** `Integer()`: owns a new `int` holding 0. */
    constructor ()
      ensures pVal != null && fresh(pVal) && pVal.value == 0
    {
      pVal := new IntCell(0);
    }

    /** `Integer(int n)`: owns a new `int` holding n. */
    constructor FromInt(n: Int32)
      ensures pVal != null && fresh(pVal) && pVal.value == n
    {
      pVal := new IntCell(n);
    }

    /** `Integer(const Integer& other)`: a deep copy, with storage of its own. */
    constructor Copy(other: Integer)
      requires other.pVal != null
      ensures pVal != null && fresh(pVal) && pVal.value == other.pVal.value
    {
      pVal := new IntCell(other.pVal.value);
    }

    /** `Integer(Integer&& other)`: takes over other's storage and leaves other empty. */
    constructor Move(other: Integer)
      modifies other
      ensures pVal == old(other.pVal) && other.pVal == null
    {
      pVal := other.pVal;
      new;
      other.pVal := null;
    }

    /** A moved-from object owns nothing. */
    predicate IsEmpty()
      reads this
    {
      pVal == null
    }

    /** `int GetValue() const`: dereferences pVal_, so the object must not be empty. */
    function GetValue(): Int32
      reads this, pVal
      requires !IsEmpty()
    {
      pVal.value
    }

    /** `void SetValue(int n)`: releases the old storage (if any) and owns a new `int`
        holding n; a later GetValue() returns n. Works on a moved-from object too. */
    method SetValue(n: Int32)
      modifies this
      ensures !IsEmpty() && fresh(pVal) && GetValue() == n
    {
      pVal := new IntCell(n);
    }

    /** `Integer& operator++()`: increments the held value in place and returns this
        same object. The value must be below INT_MAX. */
    method PreIncrement() returns (self: Integer)
      requires !IsEmpty() && GetValue() < MaxInt32
      modifies pVal
      ensures self == this && !IsEmpty() && pVal == old(pVal)
      ensures GetValue() == old(GetValue()) + 1
    {
      pVal.value := pVal.value + 1;
      self := this;
    }

    /** `Integer operator++(int)`: returns a new object holding the old value (with
        storage of its own) and increments this object's value in place. */
    method PostIncrement() returns (n: Integer)
      requires !IsEmpty() && GetValue() < MaxInt32
      modifies pVal
      ensures fresh(n) && !n.IsEmpty() && fresh(n.pVal) && n.GetValue() == old(GetValue())
      ensures !IsEmpty() && pVal == old(pVal) && GetValue() == old(GetValue()) + 1
    {
      n := new Integer.FromInt(pVal.value);
      pVal.value := pVal.value + 1;
    }

    /** `bool operator==(const Integer& other) const`: compares the held values; the
        objects' storage may differ. */
    function Equals(other: Integer): (r: bool)
      reads this, pVal, other, other.pVal
      requires !IsEmpty() && !other.IsEmpty()
    {
      pVal.value == other.GetValue()
    }

    /** `Integer& operator=(const Integer& other)`: unless other is this object,
        releases the old storage and owns a new `int` holding other's value; other is
        unchanged. Self-assignment changes nothing. Returns this object. */
    method CopyAssign(other: Integer) returns (self: Integer)
      requires this != other ==> !other.IsEmpty()
      modifies this
      ensures self == this
      ensures this != other ==> !IsEmpty() && fresh(pVal) && GetValue() == old(other.GetValue())
      ensures this == other ==> pVal == old(pVal)
      ensures other.pVal == old(other.pVal)
      ensures !other.IsEmpty() ==> other.GetValue() == old(other.GetValue())
    {
      if this != other {
        pVal := new IntCell(other.pVal.value);
      }
      self := this;
    }

    /** `Integer& operator=(Integer&& other)`: unless other is this object, releases
        the old storage, takes over other's and leaves other empty. Self-move changes
        nothing. Returns this object. */
    method MoveAssign(other: Integer) returns (self: Integer)
      modifies this, other
      ensures self == this
      ensures this == other ==> pVal == old(pVal)
      ensures this != other ==> pVal == old(other.pVal) && other.IsEmpty()
    {
      if this != other {
        pVal := other.pVal;
        other.pVal := null;
      }
      self := this;
    }
  }

  /** `Integer operator+(const Integer& n1, const Integer& n2)`: a new object holding
      the sum; the operands are not changed. The sum must fit in `int`. */
  method Plus(n1: Integer, n2: Integer) returns (n: Integer)
    requires !n1.IsEmpty() && !n2.IsEmpty() && InInt32(n1.GetValue() + n2.GetValue())
    ensures fresh(n) && !n.IsEmpty() && fresh(n.pVal)
    ensures n.GetValue() == n1.GetValue() + n2.GetValue()
  {
    n := new Integer();
    n.SetValue(n1.GetValue() + n2.GetValue());
  }

  /** `Integer operator+(int n1, const Integer& n2)`: the same with a plain `int` on
      the left. */
  method PlusInt(n1: Int32, n2: Integer) returns (n: Integer)
    requires !n2.IsEmpty() && InInt32(n1 + n2.GetValue())
    ensures fresh(n) && !n.IsEmpty() && fresh(n.pVal)
    ensures n.GetValue() == n1 + n2.GetValue()
  {
    n := new Integer();
    n.SetValue(n1 + n2.GetValue());
  }

  /** `operator_overloading_demo()` up to the console input: n1 + n2 is 3, ++n3 makes
      4, n3++ makes 5, (n3++) yields 5 and leaves 6, n3 == Integer(6), n5 = n4 copies
      6, n5 + 1 is 7 and 1 + n6 is 8. Returns the values the demo checks last. */
  method OperatorOverloadingDemo() returns (postValue: Int32, n3Value: Int32, n7Value: Int32)
    ensures postValue == 5 && n3Value == 6 && n7Value == 8
  {
    var n1 := new Integer.FromInt(1);
    var n2 := new Integer.FromInt(2);
    var n3 := Plus(n1, n2);
    assert n3.GetValue() == 3;
    var _ := n3.PreIncrement();
    assert n3.GetValue() == 4;
    var _ := n3.PostIncrement();
    assert n3.GetValue() == 5;
    var post := n3.PostIncrement();
    postValue := post.GetValue();
    assert n3.GetValue() == 6;
    var n4 := new Integer.FromInt(6);
    assert n3.Equals(n4) && n3.pVal != n4.pVal;
    var n5 := new Integer();
    var _ := n5.CopyAssign(n4);
    assert n5.GetValue() == n4.GetValue() && n5.pVal != n4.pVal;
    var one := new Integer.FromInt(1);
    var n6 := Plus(n5, one);
    var seven := new Integer.FromInt(7);
    assert n6.Equals(seven);
    var n7 := PlusInt(1, n6);
    var eight := new Integer.FromInt(8);
    assert n7.Equals(eight);
    n3Value, n7Value := n3.GetValue(), n7.GetValue();
  }

  /** Moving: the move constructor and move assignment transfer the value and leave
      the source empty; moving an object into itself keeps its value, and copying an
      emptied object into itself leaves it empty. */
  method MoveDemo() returns (moved: Int32, moveAssigned: Int32, kept: Int32, selfCopied: Integer)
    ensures moved == 5 && moveAssigned == 9 && kept == 4
    ensures selfCopied.IsEmpty()
  {
    var a := new Integer.FromInt(5);
    var b := new Integer.Move(a);
    assert a.IsEmpty();
    moved := b.GetValue();
    selfCopied := a.CopyAssign(a);
    var c := new Integer.FromInt(9);
    var d := new Integer();
    var _ := d.MoveAssign(c);
    assert c.IsEmpty();
    moveAssigned := d.GetValue();
    var e := new Integer.FromInt(4);
    var _ := e.MoveAssign(e);
    kept := e.GetValue();
  }
}
