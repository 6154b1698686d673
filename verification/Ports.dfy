/** Port numbers handed out to TCP and UDP tunnels (internal/server/port_allocator.go). */
module Ports {

  datatype Proto = Tcp | Udp

  /** The configured inclusive range; it is empty when lo > hi. */
  datatype Range = Range(lo: int, hi: int)

  datatype Answer = Granted(port: int) | OutOfRange | InUse | Exhausted

  /** What Allocate answers when the ports in `used` are taken; 0 asks for any port. */
  function Allocation(range: Range, used: set<int>, requested: int): Answer {
    if requested == 0 then FirstFree(range, used, range.lo)
    else if requested < range.lo || requested > range.hi then OutOfRange
    else if requested in used then InUse
    else Granted(requested)
  }

  function FirstFree(range: Range, used: set<int>, from: int): Answer
    decreases range.hi - from
  {
    if from > range.hi then Exhausted
    else if from in used then FirstFree(range, used, from + 1)
    else Granted(from)
  }

  lemma {:induction false} FirstFreeIsLeast(range: Range, used: set<int>, from: int)
    ensures match FirstFree(range, used, from)
            case Granted(p) => from <= p <= range.hi && p !in used && forall q :: from <= q < p ==> q in used
            case Exhausted => forall q :: from <= q <= range.hi ==> q in used
            case _ => false
    decreases range.hi - from
  {
    if from <= range.hi && from in used {
      FirstFreeIsLeast(range, used, from + 1);
    }
  }

  /** A grant is free, in range and what was asked for; automatic choice takes the least free
      port and fails exactly when every port of the range is used. */
  lemma AllocationIsRight(range: Range, used: set<int>, requested: int)
    ensures var a := Allocation(range, used, requested);
            && (a.Granted? ==> range.lo <= a.port <= range.hi && a.port !in used)
            && (a.Granted? && requested != 0 ==> a.port == requested)
            && (a.Granted? && requested == 0 ==> forall q :: range.lo <= q < a.port ==> q in used)
            && (requested == 0 ==> (!a.Granted? <==> forall q :: range.lo <= q <= range.hi ==> q in used))
            && (requested != 0 ==> (a.Granted? <==> range.lo <= requested <= range.hi && requested !in used))
            && (a.OutOfRange? <==> requested != 0 && !(range.lo <= requested <= range.hi))
            && (a.InUse? <==> requested != 0 && range.lo <= requested <= range.hi && requested in used)
  {
    FirstFreeIsLeast(range, used, range.lo);
    if requested == 0 && Allocation(range, used, requested).Granted? {
      var p := Allocation(range, used, requested).port;
      assert range.lo <= p <= range.hi && p !in used;
    }
  }

  class PortAllocator {
    const range: Range
    var usedPorts: set<int>

    constructor (range: Range)
      ensures this.range == range && usedPorts == {}
    {
      this.range := range;
      usedPorts := {};
    }

    method Allocate(requested: int) returns (answer: Answer)
      modifies this
      ensures answer == Allocation(range, old(usedPorts), requested)
      ensures usedPorts == old(usedPorts) + (if answer.Granted? then {answer.port} else {})
    {
      if requested != 0 {
        if requested < range.lo || requested > range.hi {
          return OutOfRange;
        }
        if requested in usedPorts {
          return InUse;
        }
        usedPorts := usedPorts + {requested};
        return Granted(requested);
      }
      var port := range.lo;
      while port <= range.hi
        invariant usedPorts == old(usedPorts)
        invariant FirstFree(range, usedPorts, range.lo) == FirstFree(range, usedPorts, port)
      {
        if port !in usedPorts {
          usedPorts := usedPorts + {port};
          return Granted(port);
        }
        port := port + 1;
      }
      return Exhausted;
    }

    method Release(port: int)
      modifies this
      ensures usedPorts == old(usedPorts) - {port}
    {
      usedPorts := usedPorts - {port};
    }

    /** AllocatePort of the TCP and UDP managers: a port that cannot be bound is given back, and
        the table is then as if nothing had been asked. */
    method AllocatePort(requested: int, binds: bool) returns (answer: Answer, bound: bool)
      modifies this
      ensures answer == Allocation(range, old(usedPorts), requested)
      ensures bound <==> answer.Granted? && binds
      ensures usedPorts == old(usedPorts) + (if bound then {answer.port} else {})
    {
      answer := Allocate(requested);
      bound := answer.Granted? && binds;
      AllocationIsRight(range, old(usedPorts), requested);
      if answer.Granted? && !binds {
        Release(answer.port);
      }
    }
  }
}
