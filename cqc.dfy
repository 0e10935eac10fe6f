/** The classical/quantum transport the key workers talk to, reduced to what
    they use: a peer header, an endpoint, and three calls. The real library
    does network and quantum I/O; here a session is fed, up front, the
    measurement outcomes it will report, in order, and keeps a log of every
    call made on it. */
module Cqc {
  import opened Ints

  /** The peer descriptor passed to `create_epr`. */
  datatype CommHdr = CommHdr(remoteAppId: u16, remotePort: u16, remoteNode: u32)

  /** The arguments of `Cqc::new`: local application id, host and port. */
  datatype Endpoint = Endpoint(appId: u16, host: string, port: u16)

  /** 127.0.0.1 as the 32-bit number `u32::from(Ipv4Addr)` gives. */
  const LOCALHOST: u32 := 0x7F00_0001

  /** A header addresses an endpoint when it names the endpoint's application
      id and port and the loopback address its host stands for (the only host
      name the workers use is "localhost"). */
  predicate Addresses(h: CommHdr, e: Endpoint)
  {
    h.remoteAppId == e.appId && h.remotePort == e.port &&
    e.host == "localhost" && h.remoteNode == LOCALHOST
  }

  /** One call made on a transport session. */
  datatype Call = RecvEpr | CreateEpr(peer: CommHdr) | MeasureQubit

  class Session {
    const endpoint: Endpoint
    /** Outcomes the transport has still to report, first one next. */
    var outcomes: seq<int>
    /** Every call made on this session, oldest first. */
    var calls: seq<Call>

    constructor Open(appId: u16, host: string, port: u16, outcomes: seq<int>)
      ensures endpoint == Endpoint(appId, host, port)
      ensures this.outcomes == outcomes && calls == []
    {
      endpoint := Endpoint(appId, host, port);
      this.outcomes := outcomes;
      calls := [];
    }

    /** Receive the half of a pair a peer created. */
    method RecvEpr()
      modifies this
      ensures outcomes == old(outcomes) && calls == old(calls) + [Call.RecvEpr]
    {
      calls := calls + [Call.RecvEpr];
    }

    /** Create a pair whose other half goes to the peer `hdr` names. */
    method CreateEpr(hdr: CommHdr)
      modifies this
      ensures outcomes == old(outcomes) && calls == old(calls) + [Call.CreateEpr(hdr)]
    {
      calls := calls + [Call.CreateEpr(hdr)];
    }

    /** Measure the held half; reports the next outcome. */
    method MeasureQubit() returns (outcome: int)
      requires outcomes != []
      modifies this
      ensures outcome == old(outcomes)[0] && outcomes == old(outcomes)[1..]
      ensures calls == old(calls) + [Call.MeasureQubit]
    {
      outcome := outcomes[0];
      outcomes := outcomes[1..];
      calls := calls + [Call.MeasureQubit];
    }
  }
}
