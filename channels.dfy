/** A Go channel seen from its sending side: the sequence of values sent on it, in order. */
module Channels {
  class Channel<T> {
    /** Everything sent on the channel so far, oldest first. */
    var sent: seq<T>

    constructor ()
      ensures sent == []
    {
      sent := [];
    }

    /** `ch <- x` */
    method Send(x: T)
      modifies this
      ensures sent == old(sent) + [x]
    {
      sent := sent + [x];
    }
  }

  /** `for _, x := range xs { ch <- x }` */
  method SendEach<T>(ch: Channel<T>, xs: seq<T>)
    modifies ch
    ensures ch.sent == old(ch.sent) + xs
  {
    for i := 0 to |xs|
      invariant ch.sent == old(ch.sent) + xs[..i]
    {
      assert xs[..i + 1] == xs[..i] + [xs[i]];
      ch.Send(xs[i]);
    }
    assert xs[..|xs|] == xs;
  }
}
