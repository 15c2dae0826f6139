/**
 * The validator-promotion heartbeat (src/node/heartbeat/promote_validator.rs).
 *
 * One tick takes the node context's write guard, asks the chain whether
 * the wallet is the validator at the current network time, and if so
 * records a fresh claim in the context, releases the guard and only then
 * broadcasts the claim.  The guard and the broadcast are outward effects
 * with no data of their own here: a ghost flag says whether the guard is
 * held and a ghost log records the acquire, record, release and broadcast events
 * in the order they happen.
 */
module PromoteValidator {

  import opened Wrappers

  /** Network time in seconds; `u32`. */
  type Timestamp = nat

  /** The node's publicly reachable address. */
  datatype PeerAddress = PeerAddress(ip: seq<bv8>, port: nat)

  /** The wallet's credentials; opaque here. */
  datatype Wallet = Wallet(seed: seq<bv8>)

  /** The chain's evidence that the wallet may validate the current slot; opaque here. */
  datatype ValidatorProof = ValidatorProof(bytes: seq<bv8>)

  /** A signed claim of the validator role for one time slot. */
  datatype ValidatorClaim = ValidatorClaim(
    timestamp: Timestamp,
    proof: ValidatorProof,
    node: PeerAddress,
    sig: seq<bv8>)

  /** A failure to read chain state; `BlockchainError`. */
  datatype BlockchainError = BlockchainError(reason: string)

  /** The errors a tick can surface; `NodeError`. */
  datatype NodeError =
    | BlockchainFailure(cause: BlockchainError)
    | ValidatorNotExposed

  /** Outward effects of a tick, in the order they happen. */
  datatype Event =
    | WriteAcquired
    | WriteReleased
    | ClaimRecorded(claim: ValidatorClaim)
    | ClaimBroadcast(claim: ValidatorClaim)

  /**
   * Replays an event log against the guard discipline: the guard is
   * acquired only when free, released only when held, a claim is
   * recorded in the context only while it is held, and a claim is
   * broadcast only while it is free.  The result is whether the guard is
   * held at the end of the log, or None when the log breaks the discipline.
   */
  function Replay(log: seq<Event>): Option<bool>
    decreases |log|
  {
    if log == [] then Some(false)
    else
      match Replay(log[..|log| - 1])
      case None => None
      case Some(held) =>
        match log[|log| - 1]
        case WriteAcquired => if held then None else Some(true)
        case WriteReleased => if held then Some(false) else None
        case ClaimRecorded(_) => if held then Some(true) else None
        case ClaimBroadcast(_) => if held then None else Some(false)
  }

  /** The claim of the last recording in the log, if any: what the context holds. */
  function LastRecorded(log: seq<Event>): Option<ValidatorClaim>
    decreases |log|
  {
    if log == [] then None
    else if log[|log| - 1].ClaimRecorded? then Some(log[|log| - 1].claim)
    else LastRecorded(log[..|log| - 1])
  }

  /** Replaying one more event takes one step from the replay of the log before it. */
  lemma ReplaySnoc(log: seq<Event>, ev: Event)
    ensures Replay(log + [ev]) ==
      match Replay(log)
      case None => None
      case Some(held) =>
        match ev
        case WriteAcquired => if held then None else Some(true)
        case WriteReleased => if held then Some(false) else None
        case ClaimRecorded(_) => if held then Some(true) else None
        case ClaimBroadcast(_) => if held then None else Some(false)
    ensures LastRecorded(log + [ev]) == if ev.ClaimRecorded? then Some(ev.claim) else LastRecorded(log)
  {
    assert (log + [ev])[..|log|] == log;
  }

  /**
   * The guard discipline of one tick: from a disciplined log with the
   * guard free, acquire-release and acquire-record-release-broadcast keep
   * the discipline and free the guard.
   */
  lemma TickKeepsDiscipline(log: seq<Event>, claim: ValidatorClaim)
    requires Replay(log) == Some(false)
    ensures Replay(log + [WriteAcquired, WriteReleased]) == Some(false)
    ensures Replay(log + [WriteAcquired, ClaimRecorded(claim), WriteReleased, ClaimBroadcast(claim)]) == Some(false)
  {
    var a := log + [WriteAcquired];
    ReplaySnoc(log, WriteAcquired);
    assert Replay(a) == Some(true);
    ReplaySnoc(a, WriteReleased);
    assert a + [WriteReleased] == log + [WriteAcquired, WriteReleased];
    var b := a + [ClaimRecorded(claim)];
    ReplaySnoc(a, ClaimRecorded(claim));
    assert Replay(b) == Some(true);
    var c := b + [WriteReleased];
    ReplaySnoc(b, WriteReleased);
    assert Replay(c) == Some(false);
    ReplaySnoc(c, ClaimBroadcast(claim));
    assert c + [ClaimBroadcast(claim)]
      == log + [WriteAcquired, ClaimRecorded(claim), WriteReleased, ClaimBroadcast(claim)];
  }

  /**
   * Recording the claim after the guard is released, or broadcasting it
   * while the guard is still held, breaks the discipline.
   */
  lemma MisorderedTickBreaksDiscipline(log: seq<Event>, claim: ValidatorClaim)
    requires Replay(log) == Some(false)
    ensures Replay(log + [WriteAcquired, WriteReleased, ClaimRecorded(claim)]) == None
    ensures Replay(log + [WriteAcquired, ClaimRecorded(claim), ClaimBroadcast(claim)]) == None
  {
    var a := log + [WriteAcquired];
    ReplaySnoc(log, WriteAcquired);
    assert Replay(a) == Some(true);
    var c := a + [WriteReleased];
    ReplaySnoc(a, WriteReleased);
    assert Replay(c) == Some(false);
    ReplaySnoc(c, ClaimRecorded(claim));
    assert c + [ClaimRecorded(claim)] == log + [WriteAcquired, WriteReleased, ClaimRecorded(claim)];
    var b := a + [ClaimRecorded(claim)];
    ReplaySnoc(a, ClaimRecorded(claim));
    assert Replay(b) == Some(true);
    ReplaySnoc(b, ClaimBroadcast(claim));
    assert b + [ClaimBroadcast(claim)] == log + [WriteAcquired, ClaimRecorded(claim), ClaimBroadcast(claim)];
  }

  /**
   * The shared node state; `NodeContext<B>` with B the chain handle.
   * Only the fields promotion reads or writes are modelled.
   */
  class NodeContext<B> {
    var wallet: Wallet
    var blockchain: B
    var address: Option<PeerAddress>
    var validatorClaim: Option<ValidatorClaim>

    /** Whether some tick holds the write guard. */
    ghost var locked: bool
    /** Every acquire, claim recording, release and broadcast so far. */
    ghost var events: seq<Event>

    /**
     * The log obeys the guard discipline, the flag is its current state,
     * and the stored claim is the one last recorded under the guard.
     */
    ghost predicate Valid()
      reads this
    {
      Replay(events) == Some(locked) && validatorClaim == LastRecorded(events)
    }

    constructor (wallet: Wallet, blockchain: B, address: Option<PeerAddress>)
      ensures this.wallet == wallet && this.blockchain == blockchain && this.address == address
      ensures Valid() && validatorClaim == None && !locked && events == []
    {
      this.wallet := wallet;
      this.blockchain := blockchain;
      this.address := address;
      validatorClaim := None;
      locked := false;
      events := [];
    }

    /** `context.write().await`: take the exclusive guard. */
    ghost method AcquireWrite()
      requires Valid() && !locked
      modifies this`locked, this`events
      ensures Valid() && locked && events == old(events) + [WriteAcquired]
    {
      ReplaySnoc(events, WriteAcquired);
      locked := true;
      events := events + [WriteAcquired];
    }

    /** `drop(ctx)`, or leaving the function with the guard: release it. */
    ghost method ReleaseWrite()
      requires Valid() && locked
      modifies this`locked, this`events
      ensures Valid() && !locked && events == old(events) + [WriteReleased]
    {
      ReplaySnoc(events, WriteReleased);
      locked := false;
      events := events + [WriteReleased];
    }

    /** `ctx.validator_claim = Some(claim)`: replace the claim, through the held guard. */
    method SetClaim(claim: ValidatorClaim)
      requires Valid() && locked
      modifies this`validatorClaim, this`events
      ensures Valid() && locked
      ensures validatorClaim == Some(claim) && events == old(events) + [ClaimRecorded(claim)]
    {
      ReplaySnoc(events, ClaimRecorded(claim));
      validatorClaim := Some(claim);
      events := events + [ClaimRecorded(claim)];
    }

    /** `promote_validator_claim`: send the claim to the network; allowed only without the guard. */
    method PromoteValidatorClaim(claim: ValidatorClaim)
      requires Valid() && !locked
      modifies this`events
      ensures Valid() && !locked
      ensures events == old(events) + [ClaimBroadcast(claim)]
    {
      ReplaySnoc(events, ClaimBroadcast(claim));
      events := events + [ClaimBroadcast(claim)];
    }

    /**
     * `promote_validator`: one heartbeat tick.  `validatorStatus` and
     * `claimValidator` stand for `Blockchain::validator_status` and
     * `Wallet::claim_validator`; `timestamp` is the network time read
     * once at the start of the tick.
     */
    method PromoteValidator(
      timestamp: Timestamp,
      validatorStatus: (B, Timestamp, Wallet) -> Result<Option<ValidatorProof>, BlockchainError>,
      claimValidator: (Wallet, Timestamp, ValidatorProof, PeerAddress) -> ValidatorClaim)
      returns (r: Result<(), NodeError>)
      requires Valid() && !locked
      modifies this`validatorClaim, this`locked, this`events
      ensures Valid() && !locked
      ensures wallet == old(wallet) && blockchain == old(blockchain) && address == old(address)
      ensures match validatorStatus(blockchain, timestamp, wallet)
        case Err(e) =>
          && r == Err(BlockchainFailure(e))
          && validatorClaim == old(validatorClaim)
          && events == old(events) + [WriteAcquired, WriteReleased]
        case Ok(None) =>
          && r == Ok(())
          && validatorClaim == old(validatorClaim)
          && events == old(events) + [WriteAcquired, WriteReleased]
        case Ok(Some(proof)) =>
          if address.None? then
            && r == Err(ValidatorNotExposed)
            && validatorClaim == old(validatorClaim)
            && events == old(events) + [WriteAcquired, WriteReleased]
          else
            var claim := claimValidator(wallet, timestamp, proof, address.value);
            && r == Ok(())
            && validatorClaim == Some(claim)
            && events == old(events) + [WriteAcquired, ClaimRecorded(claim), WriteReleased, ClaimBroadcast(claim)]
    {
      AcquireWrite();
      var status := validatorStatus(blockchain, timestamp, wallet);
      if status.Err? {
        ReleaseWrite();
        return Err(BlockchainFailure(status.error));
      }
      if status.value.Some? {
        var proof := status.value.value;
        if address.None? {
          ReleaseWrite();
          return Err(ValidatorNotExposed);
        }
        var node := address.value;
        var claim := claimValidator(wallet, timestamp, proof, node);
        SetClaim(claim);
        ReleaseWrite();
        PromoteValidatorClaim(claim);
      } else {
        ReleaseWrite();
      }
      r := Ok(());
    }
  }
}
