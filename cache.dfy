/**
 * The expiring single-value cache of cache/cache.go. The wall clock is an
 * explicit `now` argument; the mutex that serialises callers is not modelled.
 */
module ExpiringCache {
  import opened Wrappers

  /** An instant, in whatever unit the timeout is given in. */
  type Time = int

  class Cache<T(0)> {
    /** The lifetime of a stored value; neither SetData nor Data writes it. */
    var timeout: int
    var deadline: Time
    var loaded: bool
    var data: T

    /** A zero-valued Go `cache.Cache{Timeout: timeout}`: nothing loaded yet. */
    constructor (timeout: int)
      ensures this.timeout == timeout && !loaded
    {
      this.timeout := timeout;
      deadline := 0;
      loaded := false;
    }

    /** A value is present when one was stored and `now` is not after the deadline. */
    predicate Present(now: Time)
      reads this
    {
      loaded && now <= deadline
    }

    /** Stores `value` and restarts the deadline from `now`, whatever was there before. */
    method SetData(value: T, now: Time)
      modifies this
      ensures loaded && data == value && deadline == now + timeout
      ensures timeout == old(timeout)
    {
      loaded := true;
      data := value;
      deadline := now + timeout;
    }

    /** The stored value, or None once the deadline has been passed (strictly) or before any store. */
    method Data(now: Time) returns (r: Option<T>)
      ensures r.Some? <==> loaded && now <= deadline
      ensures r.Some? ==> r.value == data
    {
      if !loaded || now > deadline {
        return None;
      }
      return Some(data);
    }
  }

  /** A cache that was never set reports absent, at any time. */
  method NeverSetIsAbsent<T(0)>(timeout: int, now: Time) returns (r: Option<T>)
    ensures r == None
  {
    var c := new Cache<T>(timeout);
    r := c.Data(now);
  }

  /** Whatever the earlier state, a read up to and including the new deadline returns the stored value. */
  method SetThenDataPresent<T(0)>(c: Cache<T>, value: T, now: Time, later: Time) returns (r: Option<T>)
    requires later <= now + c.timeout
    modifies c
    ensures r == Some(value)
    ensures c.timeout == old(c.timeout)
  {
    c.SetData(value, now);
    r := c.Data(later);
  }

  /** A read strictly after the new deadline reports absent. */
  method SetThenDataExpired<T(0)>(c: Cache<T>, value: T, now: Time, later: Time) returns (r: Option<T>)
    requires later > now + c.timeout
    modifies c
    ensures r == None
    ensures c.timeout == old(c.timeout)
  {
    c.SetData(value, now);
    r := c.Data(later);
  }

  /** The deadline instant itself still counts as present, for a fresh cache with any timeout. */
  method FreshCacheAtDeadline<T(0)>(timeout: int, value: T, now: Time) returns (atDeadline: Option<T>, after: Option<T>)
    ensures atDeadline == Some(value)
    ensures after == None
  {
    var c := new Cache<T>(timeout);
    c.SetData(value, now);
    atDeadline := c.Data(now + timeout);
    after := c.Data(now + timeout + 1);
  }
}
