/** Handshake state machines (`NetStateMachine`), kept abstract.

    A deterministic machine is what it answers, as a function of what it has been given: the
    artifact it was initialised with and the inputs of its `advance` calls, in order. So a machine
    is a kind (those answers) with a past (those inputs), and every machine has this form. */
module Machines {
  import opened Io

  /** What an established session yields: the peer address of the base connection, paired with the
      artifact of each completed protocol above it (`ProtocolArtifact`). */
  datatype Artifact = PeerAddr(addr: nat) | Protocol(session: Artifact, state: Bytes)

  datatype Past = Past(init: Option<Artifact>, inputs: seq<Bytes>) {
    function Push(input: Bytes): Past {
      this.(inputs := inputs + [input])
    }
  }

  /** `selfInit`: the machine needs no initial data (`is_init` is constantly true).
      `readLen`: what `next_read_len` answers after a past.
      `act`: what `advance` answered to the last input of a past, `None` for its error.
      `artifact`: what `artifact` answers after a past.
      `rounds`: a bound on the length of the handshake, see `Bounded`. */
  datatype Kind = Kind(
    selfInit: bool,
    readLen: Past -> nat,
    act: Past -> Option<Bytes>,
    artifact: Past -> Option<Bytes>,
    rounds: nat)

  datatype Machine = Machine(kind: Kind, past: Past) {
    predicate IsInit() {
      kind.selfInit || past.init.Some?
    }

    /** `NetProtocol::init` over an inner session with the artifact `below`. */
    function Start(below: Artifact): Machine {
      if IsInit() then this else this.(past := past.(init := Some(below)))
    }

    function NextReadLen(): nat {
      kind.readLen(past)
    }

    function Artifact(): Option<Bytes> {
      kind.artifact(past)
    }

    predicate IsComplete() {
      Artifact().Some?
    }

    function Advance(input: Bytes): (Machine, Option<Bytes>) {
      var past' := past.Push(input);
      (this.(past := past'), kind.act(past'))
    }
  }

  /** Law: a machine has its artifact only once it is initialised, and not by that alone. */
  ghost predicate CompletesByAdvancing(kind: Kind) {
    && (forall past: Past :: kind.artifact(past).Some? ==> kind.selfInit || past.init.Some?)
    && (forall a: Artifact :: !kind.selfInit ==> kind.artifact(Past(Some(a), [])).None?)
  }

  /** Law: handshakes end, after `rounds` answered inputs the machine has its artifact. */
  ghost predicate Bounded(kind: Kind) {
    forall past: Past :: |past.inputs| >= kind.rounds && kind.act(past).Some? ==> kind.artifact(past).Some?
  }

  /** Law: a machine that waits for nothing has something to say. */
  ghost predicate Vocal(kind: Kind) {
    forall past: Past :: kind.artifact(past).None? && kind.readLen(past) == 0 ==> kind.act(past.Push([])) != Some([])
  }

  /** Law: a failed `advance` does not complete a machine. */
  ghost predicate FailsOpen(kind: Kind) {
    forall past: Past :: past.inputs != [] && kind.act(past).None? ==> kind.artifact(past).None?
  }

  /** The bytes of the acts a machine has answered so far. */
  function Acts(kind: Kind, past: Past): Bytes
    decreases |past.inputs|
  {
    if past.inputs == [] then []
    else
      Acts(kind, past.(inputs := past.inputs[..|past.inputs| - 1]))
      + (if kind.act(past).Some? then kind.act(past).value else [])
  }
}
