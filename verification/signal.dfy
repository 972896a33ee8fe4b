/**
 The single-slot "signal" channels of the coordinator.

 A channel of empty structs carries no data, so a buffered channel is fully
 described by how many tokens it holds and by its capacity. "Fired" means the
 buffer holds a token, so a receive would not block. `push` fills the buffer
 without ever blocking, and `pull` receives one token and then pushes again, so
 observing a fired signal never un-fires it.
 */
module Signal {

  /** A buffered `chan struct{}`: the number of queued tokens and the capacity.
      Only buffered channels (capacity at least 1) are meant: an unbuffered
      channel hands tokens to waiting receivers and is not described here. */
  datatype Chan = Chan(len: nat, cap: nat)

  /** A channel never queues more tokens than its capacity. */
  type Buffer = c: Chan | c.len <= c.cap witness Chan(0, 0)

  /** The buffer holds a token: a receive from it would not block. */
  predicate Fired(c: Buffer) {
    c.len >= 1
  }

  /** `make(chan struct{}, cap)` for a buffered channel: a new channel holds
      no token. */
  function MakeChan(cap: nat): (c: Buffer)
    requires cap >= 1
    ensures c.cap == cap && !Fired(c)
  {
    Chan(0, cap)
  }

  /** `push`: send without blocking as long as a send succeeds, and return as
      soon as one would block. The result is full, whatever it started with. */
  function Push(c: Buffer): (r: Buffer)
    ensures r.cap == c.cap
    ensures r.len == r.cap
    ensures c.len <= r.len
    decreases c.cap - c.len
  {
    if c.len < c.cap then Push(Chan(c.len + 1, c.cap)) else c
  }

  /** `pull`: receive one token (blocking until there is one, hence the
      precondition), then `push` again. */
  function Pull(c: Buffer): (r: Buffer)
    requires Fired(c)
    ensures r.cap == c.cap
    ensures r.len == r.cap
  {
    Push(Chan(c.len - 1, c.cap))
  }

  /** Pushing a full buffer changes nothing, so pushing twice is pushing once. */
  lemma PushIdempotent(c: Buffer)
    ensures Push(Push(c)) == Push(c)
  {
  }

  /** A push into a channel of capacity at least 1 leaves it fired. */
  lemma PushFires(c: Buffer)
    requires c.cap >= 1
    ensures Fired(Push(c))
  {
  }

  /** Observing a full buffer gives it back unchanged: the token taken by the
      receive is put back by the push. */
  lemma {:induction false} PullRestores(c: Buffer)
    requires Fired(c)
    ensures c.len == c.cap ==> Pull(c) == c
  {
    if c.len == c.cap {
      var d: Buffer := Chan(c.len - 1, c.cap);
      assert d.len < d.cap;
      assert Push(d) == Push(Chan(d.len + 1, d.cap));
      assert Chan(d.len + 1, d.cap) == c;
    }
  }

  /** On a single-slot channel a fired signal is full, so every observation
      leaves the channel as it was: any number of observers see the same token. */
  lemma PullSingleSlot(c: Buffer)
    requires c.cap == 1 && Fired(c)
    ensures Pull(c) == c
  {
    PullRestores(c);
  }

  /** Once pushed, a signal can be pulled, and the pull leaves it as the push did. */
  lemma PushThenPull(c: Buffer)
    requires c.cap >= 1
    ensures Fired(Push(c)) && Pull(Push(c)) == Push(c)
  {
    PullRestores(Push(c));
  }
}
