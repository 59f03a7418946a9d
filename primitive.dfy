/** A single mutable cell holding one value. */
module Utils {

  class Primitive<T> {
    var value: T

    /** `new Primitive(value)`: the cell starts out holding `value`. */
    constructor (value: T)
      ensures this.value == value
    {
      this.value := value;
    }

    /** `set(value)`: the cell holds `value` afterwards, whatever it held before. */
    method Set(value: T)
      modifies this
      ensures this.value == value
    {
      this.value := value;
    }

    /** `get()`: returns the held value and changes nothing. */
    method Get() returns (r: T)
      ensures r == value
    {
      r := value;
    }
  }

  /** After `set(a)` and then `set(b)`, `get()` returns `b`. */
  method LastSetWins<T>(p: Primitive<T>, a: T, b: T) returns (r: T)
    modifies p
    ensures r == b && p.value == b
  {
    p.Set(a);
    p.Set(b);
    r := p.Get();
  }

  /** `set(a)` twice leaves the cell exactly as one `set(a)` leaves it. */
  method SetTwiceIsSetOnce<T>(p: Primitive<T>, a: T)
    modifies p
    ensures p.value == a
  {
    p.Set(a);
    ghost var once := p.value;
    p.Set(a);
    assert p.value == once;
  }

  /** `get()` leaves the value alone: two reads in a row agree with each other
      and with the held value, and no `modifies` clause lets either read change it. */
  method GetTwiceAgrees<T>(p: Primitive<T>) returns (first: T, second: T)
    ensures first == second == p.value
  {
    first := p.Get();
    second := p.Get();
  }

  /** A fresh cell reads back the value it was created with. */
  method NewThenGet<T>(v: T) returns (r: T)
    ensures r == v
  {
    var p := new Primitive(v);
    r := p.Get();
  }
}
