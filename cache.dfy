/** `InMemoryCache<T>`: a single mutable slot holding a value or null. */
module Cache {
  import opened Wrappers

  class InMemoryCache<T> {
    /** The slot; None stands for null. */
    var value: Option<T>

    /** A new cache holds nothing. */
    constructor ()
      ensures value == None
    {
      value := None;
    }

    /** `get()`: the current content of the slot; reading changes nothing. */
    method Get() returns (r: Option<T>)
      ensures r == value
    {
      r := value;
    }

    /** `set(value)`: the slot afterwards holds exactly `v` (which may be null). */
    method Set(v: Option<T>)
      modifies this
      ensures value == v
    {
      value := v;
    }

    /** `clear()`: the slot afterwards holds null. */
    method Clear()
      modifies this
      ensures value == None
    {
      value := None;
    }
  }

  /**
   * The slot is last-write-wins: a new cache is empty, after set(v) a get returns v and a
   * second get still does, after clear() a get returns null.
   */
  method SlotScenario<T>(v: T) returns (initial: Option<T>, afterSet: Option<T>, again: Option<T>, afterClear: Option<T>)
    ensures initial == None
    ensures afterSet == Some(v) && again == Some(v)
    ensures afterClear == None
  {
    var c := new InMemoryCache<T>();
    initial := c.Get();
    c.Set(Some(v));
    afterSet := c.Get();
    again := c.Get();
    c.Clear();
    afterClear := c.Get();
  }
}
