/** The transport binding (class OBS_Socket): one reply socket on a loopback
    port, a poller for it, and the port it is bound to (0 while unbound). */
module Transport {
  import opened Protocol

  /** The bind and unbind calls `bind(port)` makes when the stored port is `current`. */
  function BindEffects(current: int, port: int): seq<Effect>
  {
    if current == 0 then [Bind(port)]
    else if current != port then [Unbind(current), Bind(port)]
    else []
  }

  /** The addresses bound while the stored port is `current`. */
  function Addresses(current: int): set<int>
  {
    if current == 0 then {} else {current}
  }

  /** The three branches of `bind`: a first bind, a no-op, and unbind-then-bind. */
  lemma BindCases(current: int, port: int)
    ensures current == 0 ==> BindEffects(current, port) == [Bind(port)]
    ensures current != 0 && current == port ==> BindEffects(current, port) == []
    ensures current != 0 && current != port ==>
      BindEffects(current, port) == [Unbind(current), Bind(port)]
  {
  }

  /** Binding the port already bound issues nothing, so a repeated bind is idempotent. */
  lemma BindIdempotent(current: int, port: int)
    requires port != 0
    ensures BindEffects(port, port) == []
    ensures BindAll(current, [port, port]) == BindAll(current, [port])
  {
    assert [port, port][1..] == [port];
    assert [port][1..] == [];
  }

  lemma {:induction false} BoundAfterBind(tr: seq<Effect>, p: int)
    ensures BoundPorts(tr + [Bind(p)]) == BoundPorts(tr) + {p}
  {
    assert (tr + [Bind(p)])[..|tr|] == tr;
  }

  lemma {:induction false} BoundAfterUnbind(tr: seq<Effect>, p: int)
    ensures BoundPorts(tr + [Unbind(p)]) == BoundPorts(tr) - {p}
  {
    assert (tr + [Unbind(p)])[..|tr|] == tr;
  }

  /** Extending a trace by one effect keeps at most one address bound when
      the extended trace itself has at most one. */
  lemma {:induction false} AtMostOneBoundSnoc(tr: seq<Effect>, e: Effect)
    requires AtMostOneBound(tr) && |BoundPorts(tr + [e])| <= 1
    ensures AtMostOneBound(tr + [e])
  {
    assert (tr + [e])[..|tr + [e]| - 1] == tr;
  }

  /** From a state whose bound addresses match the stored port, binding a
      non-zero port never has two addresses bound, and leaves exactly `port` bound. */
  lemma {:induction false} BindKeepsOneAddress(tr: seq<Effect>, current: int, port: int)
    requires AtMostOneBound(tr) && BoundPorts(tr) == Addresses(current)
    requires port != 0
    ensures AtMostOneBound(tr + BindEffects(current, port))
    ensures BoundPorts(tr + BindEffects(current, port)) == Addresses(port)
  {
    if current == 0 {
      assert BoundPorts(tr + [Bind(port)]) == {port} by {
        BoundAfterBind(tr, port);
      }
      AtMostOneBoundSnoc(tr, Bind(port));
    } else if current != port {
      var mid := tr + [Unbind(current)];
      assert BoundPorts(mid) == {} by {
        BoundAfterUnbind(tr, current);
      }
      AtMostOneBoundSnoc(tr, Unbind(current));
      assert BoundPorts(mid + [Bind(port)]) == {port} by {
        BoundAfterBind(mid, port);
      }
      AtMostOneBoundSnoc(mid, Bind(port));
      assert tr + BindEffects(current, port) == mid + [Bind(port)];
    } else {
      assert tr + BindEffects(current, port) == tr;
    }
  }

  /** The effects of successive `bind` calls with `ports`, from stored port `current`. */
  function BindAll(current: int, ports: seq<int>): seq<Effect>
    decreases |ports|
  {
    if ports == [] then []
    else BindEffects(current, ports[0]) + BindAll(ports[0], ports[1..])
  }

  /** The stored port after successive `bind` calls with `ports`. */
  function LastPort(current: int, ports: seq<int>): int
  {
    if ports == [] then current else ports[|ports| - 1]
  }

  /** The bound addresses match the stored port, and never were two bound. */
  ghost predicate Consistent(tr: seq<Effect>, current: int)
  {
    AtMostOneBound(tr) && BoundPorts(tr) == Addresses(current)
  }

  /** Any sequence of settings updates with non-zero ports, starting unbound,
      never has two addresses bound and ends bound to the last port only. */
  lemma {:induction false} BindAllKeepsOneAddress(tr: seq<Effect>, current: int, ports: seq<int>)
    requires Consistent(tr, current)
    requires forall i :: 0 <= i < |ports| ==> ports[i] != 0
    ensures Consistent(tr + BindAll(current, ports), LastPort(current, ports))
    decreases |ports|
  {
    if ports == [] {
      assert tr + BindAll(current, ports) == tr;
    } else {
      var e := BindEffects(current, ports[0]);
      var rest := ports[1..];
      var t := tr + e;
      var later := BindAll(ports[0], rest);
      assert Consistent(t, ports[0]) by {
        BindKeepsOneAddress(tr, current, ports[0]);
      }
      assert forall i :: 0 <= i < |rest| ==> rest[i] != 0 by {
        forall i | 0 <= i < |rest| ensures rest[i] != 0 { assert rest[i] == ports[i + 1]; }
      }
      BindAllKeepsOneAddress(t, ports[0], rest);
      assert tr + BindAll(current, ports) == t + later by {
        assert BindAll(current, ports) == e + later;
      }
      assert LastPort(ports[0], rest) == LastPort(current, ports);
    }
  }

  /** `bind(0)` stores 0, so the next bind binds again without unbinding:
      two addresses end up bound. */
  lemma BindZeroLeaksAddress()
    ensures BindAll(0, [0, 5557]) == [Bind(0), Bind(5557)]
    ensures BoundPorts(BindAll(0, [0, 5557])) == {0, 5557}
  {
    var tr := BindAll(0, [0, 5557]);
    assert tr == [Bind(0), Bind(5557)];
    assert tr[..1] == [Bind(0)];
    assert tr[..1][..0] == [];
  }

  class Socket {
    var port: int
    /** Requests the peer has queued and the socket has not yet received. */
    var inbox: seq<Request>
    /** A request was received and its reply not yet sent. */
    var awaitingReply: bool
    const trace: Trace

    constructor (trace: Trace)
      ensures this.trace == trace && port == 0 && inbox == [] && !awaitingReply
    {
      this.trace := trace;
      port := 0;
      inbox := [];
      awaitingReply := false;
    }

    /** `bind(port)`: a first bind, a no-op for the same port, or unbind-then-bind. */
    method Bind(p: int)
      modifies this`port, trace
      ensures port == p
      ensures trace.events == old(trace.events) + BindEffects(old(port), p)
    {
      if port == 0 {
        trace.events := trace.events + [Protocol.Bind(p)];
        port := p;
      } else if port != p {
        trace.events := trace.events + [Unbind(port)];
        trace.events := trace.events + [Protocol.Bind(p)];
        port := p;
      }
    }

    /** `poll()` with a zero timeout: a request is ready only while no reply is owed. */
    method Poll() returns (ready: bool)
      ensures ready <==> inbox != [] && !awaitingReply
    {
      ready := inbox != [] && !awaitingReply;
    }

    method Recv() returns (m: Request)
      requires inbox != [] && !awaitingReply
      modifies this`inbox, this`awaitingReply, trace
      ensures m == old(inbox[0]) && inbox == old(inbox[1..]) && awaitingReply
      ensures trace.events == old(trace.events) + [Protocol.Recv(m)]
    {
      m := inbox[0];
      inbox := inbox[1..];
      awaitingReply := true;
      trace.events := trace.events + [Protocol.Recv(m)];
    }

    method Send(r: Reply)
      requires awaitingReply
      modifies this`awaitingReply, trace
      ensures !awaitingReply
      ensures trace.events == old(trace.events) + [Protocol.Send(r)]
    {
      awaitingReply := false;
      trace.events := trace.events + [Protocol.Send(r)];
    }
  }
}
