/**
 * The ledger records the configuration is built from: addresses, money,
 * transactions, headers, blocks, the per-contract genesis patch and the
 * consensus parameter set itself.  Hash-like values (contract ids, block
 * hashes, roots) are opaque byte strings.
 */
module Chain {

  import opened Wrappers
  import opened Zk

  /** The treasury issues the genesis transactions; other addresses are public keys. */
  datatype Address = Treasury | PublicKey(key: seq<bv8>)

  /** An amount in the smallest unit; `Money(u64)`. */
  datatype Money = Money(amount: nat)

  datatype Signature = Unsigned | Signed(bytes: seq<bv8>)

  /** The identifier of a contract, derived by hashing its creation transaction. */
  datatype ContractId = ContractId(digest: seq<bv8>)

  /** Only the two kinds of transaction the genesis block uses are modelled. */
  datatype TransactionData =
    | RegularSend(dst: Address, amount: Money)
    | CreateContract(contract: ZkContract)

  datatype Transaction = Transaction(
    src: Address,
    data: TransactionData,
    nonce: nat,
    fee: Money,
    sig: Signature)

  datatype TransactionAndDelta = TransactionAndDelta(
    tx: Transaction,
    stateDelta: Option<ZkDeltaPairs>)

  /** The compact encoding of a proof-of-work target; `Difficulty(u32)`. */
  datatype Difficulty = Difficulty(compact: bv32)

  datatype ProofOfWork = ProofOfWork(timestamp: nat, target: Difficulty, nonce: nat)

  datatype Header = Header(
    parentHash: seq<bv8>,
    number: nat,
    blockRoot: seq<bv8>,
    proofOfWork: ProofOfWork)

  datatype Block = Block(header: Header, body: seq<Transaction>)

  /** State patches applied together with a block, per contract. */
  datatype ZkBlockchainPatch = ZkBlockchainPatch(patches: map<ContractId, ZkStatePatch>)

  datatype BlockAndPatch = BlockAndPatch(block: Block, patch: ZkBlockchainPatch)

  /** The consensus parameter set; `BlockchainConfig`. */
  datatype BlockchainConfig = BlockchainConfig(
    limitedMiners: Option<seq<Address>>,
    mpnContractId: ContractId,
    genesis: BlockAndPatch,
    totalSupply: Money,
    rewardRatio: nat,
    maxBlockSize: nat,
    maxDeltaCount: nat,
    blockTime: nat,
    difficultyCalcInterval: nat,
    powBaseKey: seq<bv8>,
    powKeyChangeDelay: nat,
    powKeyChangeInterval: nat,
    medianTimestampCount: nat,
    mpnNumFunctionCalls: nat,
    mpnNumContractDeposits: nat,
    mpnNumContractWithdraws: nat,
    minimumPowDifficulty: Difficulty,
    testnetHeightLimit: Option<nat>)
}
