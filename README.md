# Quantum key generation worker

A Dafny model of the key-generation worker of openssl-qkd-rust
(`src/quantum.rs`). Two parties derive a shared key by measuring halves of
entangled pairs. The server role receives halves. The client role creates
pairs addressed to the server. In both roles each round measures one half,
and the outcome, cast to `u8`, becomes the next key byte. The finished key is
handed to the orchestrating thread.

Layout:

- `ints.dfy`, module `Ints`: the `u8`, `u16` and `u32` widths of the source,
  and Rust's `as u8` cast (low eight bits, which is Dafny's Euclidean `% 256`).
- `cqc.dfy`, module `Cqc`: a stand-in for the CQC transport library. It holds
  the peer header `CommHdr`, the `Cqc::new` endpoint, and a `Session` class.
  A session is given, up front, the measurement outcomes it will report, and
  it logs every `recv_epr`, `create_epr` and `measure_qubit` call.
- `quantum.dfy`, module `Quantum`: the `Key` class, a fixed-length `array<byte>`
  written in place. Also the client's fixed peer header, the two role workers
  as methods with `for` loops, and the role dispatch.

The workers are proved against a specification function, `KeyBytes`: byte `i`
of the key is the outcome of round `i` cast to `u8`. The loop invariant is
`PartialKey`: after `i` rounds, positions below `i` hold the outcomes of
those rounds and the rest are still zero. The calls made on the transport are
stated as `Rounds`: `keyLength` pairs of "obtain a half, measure it", in
order. Each worker opens its own transport session, as the source does, and
returns it beside the key so that its call log can be stated; the source
drops the session when the worker ends.

`Key.value` is a `const` reference to an array whose elements change. This
matches `Key::from(key_length)` (src/quantum.rs:18-22): the source's `value`
is a public `Vec<u8>` that nothing in src/quantum.rs reassigns or resizes.

## Model

| member | source | states |
|---|---|---|
| Ints.AsU8 | src/quantum.rs:58 | `outcome as u8` leaves an outcome that fits in a byte unchanged, and otherwise keeps it modulo 256 |
| Quantum.Zeros | src/quantum.rs:20 | definition of the contents `vec![0; length]` builds: exactly `length` elements, all zero (that a new key holds them is proved by `Quantum.Key.From`) |
| Quantum.Key.From | src/quantum.rs:18-22 | a new key owns a fresh buffer of exactly `length` bytes, all zero |
| Quantum.Key.ToString | src/quantum.rs:32-34 | definition of the read-only view: exactly the current bytes of the key, finished or not; as a function it changes nothing |
| Quantum.Key.WriteToBuffer | src/quantum.rs:24-30 | given a destination with room for the key, its first `len` bytes become the key byte for byte; bytes beyond `len` and the key itself are unchanged |
| Quantum.EndpointOf | src/quantum.rs:51-72 | the `(app id, host, port)` each worker passes to `Cqc::new`: both use app id 10 on localhost; port 8004 is the server's and 8001 the client's |
| Quantum.ServerHdr | src/quantum.rs:38-51 | the client's peer header names app id 10, port 8004 and node 0x7F000001 (127.0.0.1): the endpoint the server opens, not the client's own |
| Quantum.AcquireOf | src/quantum.rs:55-76 | only the client creates pairs, and every pair it creates is addressed to the server's endpoint; the server obtains its half with `recv_epr` |
| Quantum.KeyBytes | src/quantum.rs:54-59 | the key after `n` rounds has `n` bytes, byte `i` being round `i`'s outcome cast to `u8`, with nothing reordered or skipped |
| Quantum.PartialKey | src/quantum.rs:49-59 | definition of the key after round `i`: positions below `i` hold the outcomes of rounds `0..i`, positions from `i` on are zero; the worker loops are proved to keep it as their invariant, with `Quantum.PartialKeyEnds` and `Quantum.RoundStep` |
| Quantum.PartialKeyEnds | src/quantum.rs:49-59 | before any round the partial key is the zero-filled key, and after all rounds it is the finished key |
| Quantum.RoundStep | src/quantum.rs:58 | writing round `i`'s byte at index `i` advances the key from `i` completed rounds to `i + 1` |
| Quantum.KeyBytesOfByteOutcomes | src/quantum.rs:56-58 | when every outcome fits in a byte (a measured bit always does), the key is the outcome sequence itself |
| Quantum.Rounds | src/quantum.rs:54-56 | `n` rounds make exactly `2n` transport calls, alternating "obtain a half" and "measure it" |
| Quantum.RoleOf | src/quantum.rs:88-97 | definition of the role choice: `Server` exactly when `get_is_server()` is true, otherwise `Client`; that the chosen role's worker runs is proved by `Quantum.SpawnQkdGenerator` |
| Quantum.ServerThread | src/quantum.rs:46-65 | opens endpoint (10, localhost, 8004) and runs `key_length` rounds of receive and measure; the key it returns is fresh and equals `KeyBytes` of the first `key_length` outcomes |
| Quantum.ClientThread | src/quantum.rs:67-86 | opens endpoint (10, localhost, 8001) and runs `key_length` rounds of creating a pair addressed to the server, then measuring; the key it returns is fresh and equals `KeyBytes` of the first `key_length` outcomes |
| Quantum.SpawnQkdGenerator | src/quantum.rs:88-97 | runs the worker of the configured role: its endpoint and call sequence are that role's, and it delivers one fresh key of the measured bytes |
| Quantum.RoleSymmetry | src/quantum.rs:54-80 | given the same outcome sequence, the server and client loops produce identical keys, byte `i` coming from round `i` |
| Quantum.ZeroLengthRun | src/quantum.rs:49-59 | with `key_length == 0`, either role makes no transport call and yields an empty key |
| Quantum.ClientScenario | src/quantum.rs:67-86 | a four-round client run measuring 1, 0, 1, 1 yields key bytes 1, 0, 1, 1 after exactly four pairs of calls, each a pair creation addressed to the server followed by a measurement |

## Left out

- Threads, the `mpsc` channel and `unsafe impl Send for Key` (src/quantum.rs:1-3, 15, 64, 85, 90-96) are concurrency and ownership hand-off. The worker returns its key once instead. "Nobody else holds it" is stated as `fresh(key)` and `fresh(key.value)`.
- The CQC transport (`Cqc::new`, `recv_epr`, `create_epr`, `measure_qubit`) is a foreign library doing network and quantum I/O. It is replaced by a session that reports a given outcome sequence and logs its calls. Nothing is claimed about the correlation between the two parties' outcomes.
- Transport failures abort the worker thread in the source (no retry and no partial key). This is not modelled: the workers require at least `key_length` outcomes to be available.
- The qubit handle returned by `recv_epr`/`create_epr` and passed to `measure_qubit` is not modelled. Neither is the boolean flag, which every call passes as `false`.
- `session::get_key_length` and `session::get_is_server` come from a configuration module that is not part of this model. They are parameters.
- The `println!`/`print!` diagnostics are incidental output.
- Quantum.Key.WriteToBuffer: the raw `*mut u8` destination becomes an `array<byte>`. The size the source trusts the caller to provide becomes an explicit `requires`. Out-of-bounds writes (undefined behaviour in the source) are not modelled.
- The `Ipv4Addr` to `u32` conversion is not modelled; the constant 0x7F000001 is used for 127.0.0.1. Resolving "localhost" to that address is taken as given.
- `usize` bounds on the key length are not modelled (lengths are `nat`). The integer type `measure_qubit` returns is not part of this model, so outcomes are `int` and go through the `as u8` truncation.
