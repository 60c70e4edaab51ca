/** Real time, as everything that waits sees it. */
module Clocks {
  import opened Basics

  /** Real time: it never runs backwards, and a sleep lasts at least as long as asked. */
  class Clock {
    var now: Duration

    method Now() returns (t: Duration)
      modifies this
      ensures old(now) <= t == now
    {
      t :| t >= now;
      now := t;
    }

    method Sleep(length: Duration)
      modifies this
      ensures now >= old(now) + length
    {
      var t :| t >= now + length;
      now := t;
    }
  }
}
