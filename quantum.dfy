/** The key-generation worker of the quantum key distribution step: the key
    buffer, the peer header the client uses, the server and client loops
    that fill the key one measured byte per round, and the choice of which
    of the two runs. */
module Quantum {
  import opened Ints
  import opened Cqc

  // ---------------------------------------------------------------------
  // Specification of a key
  // ---------------------------------------------------------------------

  /** The contents of a freshly built key of `n` bytes. */
  function Zeros(n: nat): (z: seq<byte>)
    ensures |z| == n
    ensures forall i :: 0 <= i < n ==> z[i] == 0
  {
    seq(n, _ => 0)
  }

  /** The key a run of `|outcomes|` rounds assembles: round `i` contributes
      byte `i`, the outcome measured in that round cast to `u8`. */
  function KeyBytes(outcomes: seq<int>): (key: seq<byte>)
    ensures |key| == |outcomes|
    ensures forall i :: 0 <= i < |outcomes| ==> key[i] == AsU8(outcomes[i])
  {
    if outcomes == [] then []
    else KeyBytes(outcomes[..|outcomes| - 1]) + [AsU8(outcomes[|outcomes| - 1])]
  }

  /** The key of length `n` after the first `i` rounds: the bytes of those
      rounds, then the zeros not yet overwritten. */
  function PartialKey(outcomes: seq<int>, n: nat, i: nat): (key: seq<byte>)
    requires i <= n <= |outcomes|
    ensures |key| == n
    ensures forall j :: 0 <= j < i ==> key[j] == AsU8(outcomes[j])
    ensures forall j :: i <= j < n ==> key[j] == 0
  {
    seq(n, j requires 0 <= j < n => if j < i then AsU8(outcomes[j]) else 0)
  }

  /** Before any round the partial key is the fresh key; after all `n`
      rounds it is the finished key. */
  lemma PartialKeyEnds(outcomes: seq<int>, n: nat)
    requires n <= |outcomes|
    ensures PartialKey(outcomes, n, 0) == Zeros(n)
    ensures PartialKey(outcomes, n, n) == KeyBytes(outcomes[..n])
  {
  }

  /** Writing round `i`'s byte at index `i` turns the key after `i` rounds
      into the key after `i + 1` rounds. */
  lemma RoundStep(outcomes: seq<int>, n: nat, i: nat)
    requires i < n <= |outcomes|
    ensures PartialKey(outcomes, n, i)[i := AsU8(outcomes[i])] == PartialKey(outcomes, n, i + 1)
  {
  }

  /** When every outcome is a bit, or any value a byte can hold, the key is
      the outcome sequence itself. */
  lemma KeyBytesOfByteOutcomes(outcomes: seq<int>)
    requires forall i :: 0 <= i < |outcomes| ==> 0 <= outcomes[i] < 0x100
    ensures forall i :: 0 <= i < |outcomes| ==> KeyBytes(outcomes)[i] as int == outcomes[i]
  {
  }

  // ---------------------------------------------------------------------
  // Key
  // ---------------------------------------------------------------------

  class Key {
    /** The key bytes; the workers write them in place, by index. */
    const value: array<byte>

    /** A key of `length` bytes, all zero. */
    constructor From(length: nat)
      ensures fresh(value)
      ensures value[..] == Zeros(length)
    {
      value := new byte[length](_ => 0);
    }

    /** The current contents, finished or not; nothing is copied or changed. */
    function ToString(): (bytes: seq<byte>)
      reads this, value
      ensures |bytes| == value.Length
      ensures forall i :: 0 <= i < value.Length ==> bytes[i] == value[i]
    {
      value[..]
    }

    /** Copy the key into the first `value.Length` bytes of `buffer`, which
        the caller must have sized to hold them. The key and the rest of the
        buffer are left as they were. */
    method WriteToBuffer(buffer: array<byte>)
      requires value.Length <= buffer.Length
      modifies buffer
      ensures buffer[..value.Length] == old(ToString())
      ensures buffer[value.Length..] == old(buffer[value.Length..])
      ensures ToString() == old(ToString())
    {
      forall i | 0 <= i < value.Length {
        buffer[i] := value[i];
      }
    }
  }

  // ---------------------------------------------------------------------
  // Roles and the peer header
  // ---------------------------------------------------------------------

  datatype Role = Server | Client

  /** The transport endpoint each role opens. */
  function EndpointOf(role: Role): (e: Endpoint)
    ensures e.appId == 10 && e.host == "localhost"
    ensures e.port == 8004 <==> role == Server
    ensures e.port == 8001 <==> role == Client
  {
    match role
    case Server => Endpoint(10, "localhost", 8004)
    case Client => Endpoint(10, "localhost", 8001)
  }

  /** The header of the server's endpoint, which the client sends every
      pair-creation request to. */
  function ServerHdr(): (h: CommHdr)
    ensures Addresses(h, EndpointOf(Server))
    ensures !Addresses(h, EndpointOf(Client))
  {
    CommHdr(10, 8004, LOCALHOST)
  }

  /** The call by which each role obtains its half of a pair. */
  function AcquireOf(role: Role): (call: Call)
    ensures call.CreateEpr? <==> role == Client
    ensures call.CreateEpr? ==> Addresses(call.peer, EndpointOf(Server))
    ensures role == Server ==> call == Call.RecvEpr
  {
    match role
    case Server => Call.RecvEpr
    case Client => Call.CreateEpr(ServerHdr())
  }

  /** The calls `n` rounds make on the transport: each round obtains one
      half with `acquire`, then measures it. */
  function Rounds(acquire: Call, n: nat): (calls: seq<Call>)
    ensures |calls| == 2 * n
    ensures forall j :: 0 <= j < |calls| ==> calls[j] == if j % 2 == 0 then acquire else Call.MeasureQubit
  {
    if n == 0 then [] else Rounds(acquire, n - 1) + [acquire, Call.MeasureQubit]
  }

  /** The configured role: the server worker runs exactly when the session
      says this side is the server. */
  function RoleOf(isServer: bool): (role: Role)
    ensures role == Server <==> isServer
    ensures role == Client <==> !isServer
  {
    if isServer then Server else Client
  }

  // ---------------------------------------------------------------------
  // The workers
  // ---------------------------------------------------------------------

  /** The server worker: `keyLength` rounds of receiving a half and
      measuring it. The transport session it opens is returned beside the
      key so that the calls made on it can be stated. */
  method ServerThread(keyLength: nat, outcomes: seq<int>) returns (key: Key, cqc: Session)
    requires keyLength <= |outcomes|
    ensures fresh(key) && fresh(key.value)
    ensures key.ToString() == KeyBytes(outcomes[..keyLength])
    ensures cqc.endpoint == EndpointOf(Server)
    ensures cqc.calls == Rounds(AcquireOf(Server), keyLength)
    ensures cqc.outcomes == outcomes[keyLength..]
  {
    key := new Key.From(keyLength);
    PartialKeyEnds(outcomes, keyLength);
    cqc := new Session.Open(10, "localhost", 8004, outcomes);
    for i := 0 to keyLength
      invariant key.value[..] == PartialKey(outcomes, keyLength, i)
      invariant cqc.outcomes == outcomes[i..]
      invariant cqc.calls == Rounds(AcquireOf(Server), i)
    {
      ghost var before := cqc.calls;
      cqc.RecvEpr();
      var outcome := cqc.MeasureQubit();
      RoundStep(outcomes, keyLength, i);
      key.value[i] := AsU8(outcome);
      assert cqc.calls == before + [AcquireOf(Server), Call.MeasureQubit];
      assert Rounds(AcquireOf(Server), i + 1) == Rounds(AcquireOf(Server), i) + [AcquireOf(Server), Call.MeasureQubit];
    }
  }

  /** The client worker: `keyLength` rounds of creating a pair addressed to
      the server and measuring the local half. */
  method ClientThread(keyLength: nat, outcomes: seq<int>) returns (key: Key, cqc: Session)
    requires keyLength <= |outcomes|
    ensures fresh(key) && fresh(key.value)
    ensures key.ToString() == KeyBytes(outcomes[..keyLength])
    ensures cqc.endpoint == EndpointOf(Client)
    ensures cqc.calls == Rounds(AcquireOf(Client), keyLength)
    ensures cqc.outcomes == outcomes[keyLength..]
  {
    key := new Key.From(keyLength);
    PartialKeyEnds(outcomes, keyLength);
    cqc := new Session.Open(10, "localhost", 8001, outcomes);
    for i := 0 to keyLength
      invariant key.value[..] == PartialKey(outcomes, keyLength, i)
      invariant cqc.outcomes == outcomes[i..]
      invariant cqc.calls == Rounds(AcquireOf(Client), i)
    {
      ghost var before := cqc.calls;
      assert AcquireOf(Client) == Call.CreateEpr(ServerHdr());
      cqc.CreateEpr(ServerHdr());
      var outcome := cqc.MeasureQubit();
      RoundStep(outcomes, keyLength, i);
      key.value[i] := AsU8(outcome);
      assert cqc.calls == before + [AcquireOf(Client), Call.MeasureQubit];
      assert Rounds(AcquireOf(Client), i + 1) == Rounds(AcquireOf(Client), i) + [AcquireOf(Client), Call.MeasureQubit];
    }
  }

  /** Run the worker of the configured role and hand its key back once. */
  method SpawnQkdGenerator(isServer: bool, keyLength: nat, outcomes: seq<int>) returns (key: Key, cqc: Session)
    requires keyLength <= |outcomes|
    ensures fresh(key) && fresh(key.value)
    ensures key.ToString() == KeyBytes(outcomes[..keyLength])
    ensures cqc.endpoint == EndpointOf(RoleOf(isServer))
    ensures cqc.calls == Rounds(AcquireOf(RoleOf(isServer)), keyLength)
  {
    if isServer {
      key, cqc := ServerThread(keyLength, outcomes);
    } else {
      key, cqc := ClientThread(keyLength, outcomes);
    }
  }

  // ---------------------------------------------------------------------
  // Properties of whole runs
  // ---------------------------------------------------------------------

  /** Fed the same outcomes, the server and the client assemble the same
      key, byte `i` coming from round `i`. */
  method RoleSymmetry(keyLength: nat, outcomes: seq<int>) returns (serverKey: seq<byte>, clientKey: seq<byte>)
    requires keyLength <= |outcomes|
    ensures serverKey == clientKey
    ensures |serverKey| == keyLength
    ensures forall i :: 0 <= i < keyLength ==> serverKey[i] == AsU8(outcomes[i])
  {
    var sk, _ := ServerThread(keyLength, outcomes);
    var ck, _ := ClientThread(keyLength, outcomes);
    serverKey, clientKey := sk.ToString(), ck.ToString();
  }

  /** A zero-length run makes no transport call and yields an empty key,
      whatever the role and whatever the transport would report. */
  method ZeroLengthRun(isServer: bool, outcomes: seq<int>) returns (bytes: seq<byte>, calls: seq<Call>)
    ensures bytes == [] && calls == []
  {
    var key, cqc := SpawnQkdGenerator(isServer, 0, outcomes);
    bytes, calls := key.ToString(), cqc.calls;
  }

  /** A client run of four rounds measuring 1, 0, 1, 1 delivers the key
      bytes 1, 0, 1, 1 after four pairs of calls, each creating a pair
      addressed to the server and then measuring. */
  method ClientScenario() returns (bytes: seq<byte>, calls: seq<Call>)
    ensures bytes == [1, 0, 1, 1]
    ensures calls == Rounds(AcquireOf(Client), 4)
    ensures |calls| == 8
  {
    var key, cqc := SpawnQkdGenerator(false, 4, [1, 0, 1, 1]);
    bytes, calls := key.ToString(), cqc.calls;
    assert [1, 0, 1, 1][..4] == [1, 0, 1, 1];
  }
}
