/** `__sbo_buffer`: a `memory_resource` with one inline slot of `size` bytes
    at alignment `align`, falling back to an upstream resource. The upstream
    is abstract: the buffer records every call it forwards, and the pointer
    returned by the i-th forwarded call is `Block(i)`. */
module SboBuffer {

  /** A pointer: the inline storage of the buffer `owner`, or a block that
      came from the upstream resource. */
  datatype Ptr = Storage(owner: object) | Block(index: nat)

  datatype UpstreamCall =
    | UpstreamAllocate(bytes: nat, alignment: nat)
    | UpstreamDeallocate(ptr: Ptr, bytes: nat, alignment: nat)

  /** What does not change over a buffer's life: its identity, its capacity
      and alignment, and whether an upstream resource is present. */
  datatype Config = Config(owner: object, size: nat, align: nat, hasUpstream: bool)

  /** What changes: the `_used` flag and the upstream calls made so far. */
  datatype Arena = Arena(used: bool, upstream: seq<UpstreamCall>)

  datatype Allocation = Allocation(arena: Arena, ptr: Ptr)

  /** The condition under which `do_allocate` serves from the inline slot. */
  predicate Fits(c: Config, a: Arena, bytes: nat, alignment: nat)
  {
    !a.used && bytes <= c.size && alignment <= c.align
  }

  /** `do_allocate`. Without an upstream resource a request that does not fit
      fails the `assert` in `do_allocate` (asio2exec.hpp:114), so it is
      excluded here. */
  function Allocated(c: Config, a: Arena, bytes: nat, alignment: nat): (r: Allocation)
    requires c.hasUpstream || Fits(c, a, bytes, alignment)
    ensures r.ptr == Storage(c.owner) <==> Fits(c, a, bytes, alignment)
    ensures r.arena.used == (a.used || Fits(c, a, bytes, alignment))
    ensures Fits(c, a, bytes, alignment) ==> r.arena.upstream == a.upstream
    ensures !Fits(c, a, bytes, alignment) ==>
              r.arena.upstream == a.upstream + [UpstreamAllocate(bytes, alignment)]
  {
    if a.used || bytes > c.size || alignment > c.align then
      Allocation(Arena(a.used, a.upstream + [UpstreamAllocate(bytes, alignment)]), Block(|a.upstream|))
    else
      Allocation(Arena(true, a.upstream), Storage(c.owner))
  }

  /** `do_deallocate`: the slot's own address frees the slot; anything else is
      forwarded, which needs an upstream resource. */
  function Deallocated(c: Config, a: Arena, ptr: Ptr, bytes: nat, alignment: nat): (r: Arena)
    requires ptr == Storage(c.owner) || c.hasUpstream
    ensures ptr == Storage(c.owner) ==> r == Arena(false, a.upstream)
    ensures ptr != Storage(c.owner) ==>
              r == Arena(a.used, a.upstream + [UpstreamDeallocate(ptr, bytes, alignment)])
  {
    if ptr == Storage(c.owner) then Arena(false, a.upstream)
    else Arena(a.used, a.upstream + [UpstreamDeallocate(ptr, bytes, alignment)])
  }

  /** The template arguments `Size` and `Alignment` are `size` and `align`;
      the schedule sender and the bridged operation both use a 128-byte
      buffer at the default alignment of 16. */
  class Buffer {
    const size: nat
    const align: nat
    const hasUpstream: bool
    var used: bool
    var upstream: seq<UpstreamCall>

    function Cfg(): Config
    {
      Config(this, size, align, hasUpstream)
    }

    function State(): Arena
      reads this
    {
      Arena(used, upstream)
    }

    constructor (size: nat, align: nat, hasUpstream: bool)
      ensures Cfg() == Config(this, size, align, hasUpstream)
      ensures State() == Arena(false, [])
    {
      this.size := size;
      this.align := align;
      this.hasUpstream := hasUpstream;
      used := false;
      upstream := [];
    }

    method DoAllocate(bytes: nat, alignment: nat) returns (p: Ptr)
      requires hasUpstream || Fits(Cfg(), State(), bytes, alignment)
      modifies this
      ensures Allocation(State(), p) == Allocated(Cfg(), old(State()), bytes, alignment)
    {
      if used || bytes > size || alignment > align {
        p := Block(|upstream|);
        upstream := upstream + [UpstreamAllocate(bytes, alignment)];
        return;
      }
      used := true;
      p := Storage(this);
    }

    method DoDeallocate(p: Ptr, bytes: nat, alignment: nat)
      requires p == Storage(this) || hasUpstream
      modifies this
      ensures State() == Deallocated(Cfg(), old(State()), p, bytes, alignment)
    {
      if p == Storage(this) {
        used := false;
        return;
      }
      upstream := upstream + [UpstreamDeallocate(p, bytes, alignment)];
    }

    /** `do_is_equal`: two memory resources are interchangeable only when
        they are the same object. */
    function DoIsEqual(other: object): (r: bool)
      ensures r <==> other == this
    {
      this == other
    }
  }

  /** A client's request: allocate, or free the `slot`-th pointer it holds.
      A free of a slot the client does not hold is not issued (no step). */
  datatype Request = Alloc(bytes: nat, alignment: nat) | Free(slot: nat, bytes: nat, alignment: nat)

  /** The arena and the pointers the client holds after a run of requests. */
  function Replay(c: Config, a: Arena, live: seq<Ptr>, reqs: seq<Request>): (Arena, seq<Ptr>)
    requires c.hasUpstream
    decreases |reqs|
  {
    if reqs == [] then (a, live)
    else match reqs[0]
      case Alloc(bytes, alignment) =>
        var r := Allocated(c, a, bytes, alignment);
        Replay(c, r.arena, live + [r.ptr], reqs[1..])
      case Free(k, bytes, alignment) =>
        if k < |live| then
          Replay(c, Deallocated(c, a, live[k], bytes, alignment), live[..k] + live[k + 1..], reqs[1..])
        else Replay(c, a, live, reqs[1..])
  }

  /** The number of pointers the client holds into the inline slot. */
  function InlineLive(c: Config, live: seq<Ptr>): nat
  {
    multiset(live)[Storage(c.owner)]
  }

  /** The slot is marked used exactly when the client holds its address, so
      at most one inline allocation is live, whatever the requests. */
  lemma {:induction false} AtMostOneInlineLive(c: Config, a: Arena, live: seq<Ptr>, reqs: seq<Request>)
    requires c.hasUpstream
    requires InlineLive(c, live) == if a.used then 1 else 0
    ensures InlineLive(c, Replay(c, a, live, reqs).1) == if Replay(c, a, live, reqs).0.used then 1 else 0
    ensures InlineLive(c, Replay(c, a, live, reqs).1) <= 1
    decreases |reqs|
  {
    if reqs != [] {
      match reqs[0]
      case Alloc(bytes, alignment) =>
        var r := Allocated(c, a, bytes, alignment);
        assert multiset(live + [r.ptr]) == multiset(live) + multiset{r.ptr};
        AtMostOneInlineLive(c, r.arena, live + [r.ptr], reqs[1..]);
      case Free(k, bytes, alignment) =>
        if k < |live| {
          assert live == live[..k] + [live[k]] + live[k + 1..];
          assert multiset(live) == multiset(live[..k] + live[k + 1..]) + multiset{live[k]};
          AtMostOneInlineLive(c, Deallocated(c, a, live[k], bytes, alignment), live[..k] + live[k + 1..], reqs[1..]);
        } else {
          AtMostOneInlineLive(c, a, live, reqs[1..]);
        }
    }
  }

  /** Sequential allocate/deallocate cycles: each request is allocated and
      the pointer obtained is released before the next one. */
  function Cycles(c: Config, a: Arena, reqs: seq<(nat, nat)>): Arena
    requires c.hasUpstream || (!a.used && WithinCapacity(c, reqs))
    decreases |reqs|
  {
    if reqs == [] then a
    else
      var r := Allocated(c, a, reqs[0].0, reqs[0].1);
      assert WithinCapacity(c, reqs) ==> WithinCapacity(c, reqs[1..]);
      Cycles(c, Deallocated(c, r.arena, r.ptr, reqs[0].0, reqs[0].1), reqs[1..])
  }

  predicate WithinCapacity(c: Config, reqs: seq<(nat, nat)>)
  {
    forall i :: 0 <= i < |reqs| ==> reqs[i].0 <= c.size && reqs[i].1 <= c.align
  }

  /** Any number of cycles within capacity leave the slot free and make no
      upstream call. */
  lemma {:induction false} CyclesWithinCapacityStayInline(c: Config, a: Arena, reqs: seq<(nat, nat)>)
    requires !a.used && WithinCapacity(c, reqs)
    ensures Cycles(c, a, reqs) == a
    decreases |reqs|
  {
    if reqs != [] {
      assert WithinCapacity(c, reqs[1..]);
      CyclesWithinCapacityStayInline(c, a, reqs[1..]);
    }
  }
}
