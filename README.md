# Bazuka consensus bootstrap and validator promotion, modelled in Dafny

This project models two pieces of the Bazuka node:

- **The consensus parameter set and genesis bundle** (`src/config/blockchain.rs`).
  `get_mpn_contract` builds the settlement (MPN) contract: a 4-ary state tree of
  4^3 accounts of four scalars, one deposit and one withdraw verifying key with a
  log4 payment capacity of 1, and one update key, wrapped in an unsigned,
  zero-fee, nonce-1 contract-creation transaction from the treasury.
  `get_blockchain_config` builds the mainnet parameters around it: the genesis
  block (number 0, default hashes, timestamp and nonce 0, target at the minimum
  difficulty), the one-entry genesis patch keyed by the contract id, the supply
  and reward ratio, the size limits and the proof-of-work key schedule.
  `get_test_mpn_contract` and `get_test_blockchain_config` derive the test
  network's variant by overwriting a fixed list of fields of a copy.
- **The validator-promotion heartbeat** (`src/node/heartbeat/promote_validator.rs`):
  take the node context's write guard, ask the chain whether this wallet is the
  validator at the current network time, and when it is and the node has a public
  address, record a new claim, release the guard and only then broadcast the claim.

Files:

- `wrappers.dfy` — `Option` and `Result`.
- `zk.dfy` (module `Zk`) — the state-model descriptor `ZkStateModel`
  (`Scalar | Struct | List`), its cell count, valid locators and the position a
  locator reaches, delta pairs, verifying keys and the contract record.
- `chain.dfy` (module `Chain`) — addresses, money, transactions, headers, blocks,
  the genesis patch and the `BlockchainConfig` record.
- `config_blockchain.dfy` (module `ConfigBlockchain`) — the four builders and the
  properties of mainnet and test configurations. The mainnet builders are pure
  functions. The test builders are methods that update a local copy step by step,
  as the Rust code does.
- `pow_key_schedule.dfy` (module `PowKeySchedule`) — the key schedule of the
  configuration's comment and its properties.
- `promote_validator.dfy` (module `PromoteValidator`) — the node context as a
  class, the promotion tick as a method on it, and the guard discipline.

Primitives that the configuration uses but that are defined elsewhere in the
repository are fields of the `Externals` record: the empty-tree commitment
(`ZkCompressedState::empty`), `compress::<ZkHasher>`, `ContractId::new`, the
address of `TxBuilder::new(..)`, the three decoded Groth16 keys, `UNIT`, `MB` and
the `Default::default()` value of block hashes. Function-typed fields stand for
uninterpreted functions. In the heartbeat, `validator_status` and
`claim_validator` are function parameters of the tick and the network time is an
input. The write guard is a ghost flag. The guard's acquisition and release, the
recording of the claim and the broadcast are ghost events appended to a log.

The key schedule is the one the configuration's comment states.
The comment at `src/config/blockchain.rs:148-152` keys heights 0–63 with the base
key. It keys every height h ≥ 64 with the hash of block 2048·⌊(h−64)/2048⌋. Its
windows are therefore `[64 + 2048j, 64 + 2048(j+1))`, not the multiples of 2048.
An epoch-aligned reading, where the key for heights `[2048k, 2048(k+1))` comes
from a block at or below `2048k − 2048 + 64`, does not hold of it: height 2112
lies in `[2048, 4096)` and is keyed by block 2048, which is above 64.
`PowKeySchedule.WindowsAreShiftedByDelay` states this for every window from the
second on, whenever the delay is below the interval. What the
schedule does guarantee is that the source block is at least 64 and fewer than
64 + 2048 blocks older than the height (`PowKeySchedule.KeySourceAge`), so the
key is never derived from a block less than 64 deep
(`PowKeySchedule.PowKeyUsesOnlyOldBlocks`).

The schedule itself is defined for any positive rotation interval
(`PowKeySchedule.ValidKeySchedule`). "Look-back delay below the rotation interval"
is the intended configuration invariant. The builders in `src/config/blockchain.rs`
do not check it, and the schedule does not rely on it. Both configurations are
proved to satisfy it as part of `ConsistentGenesis`
(`ConfigBlockchain.MainnetConsistent`, `ConfigBlockchain.GetTestBlockchainConfig`).
What fixes a key before the height it keys is mined is a delay of at least one
block (`PowKeySchedule.KeyFixedBeforeUse`).

## Model

| member | source | states |
|---|---|---|
| `Zk.LeafIndex` | src/config/blockchain.rs:81-88 | a locator that is valid for a state model (each list index below 4^log4_size, each struct index below the field count, ending at a scalar) reaches a cell strictly inside the model's cell count |
| `Zk.DataOfAsDelta` | src/config/blockchain.rs:103 | turning a data set into a delta clears no cell, and reading the set cells back out of that delta gives the original data set |
| `ConfigBlockchain.GetMpnContract` | src/config/blockchain.rs:29-69 | no contract of its own: the settlement contract's creation transaction and delta, specified by `MpnContractShape`, `MpnAccountLocator` and `MainnetGenesisBlock` |
| `ConfigBlockchain.GetBlockchainConfig` | src/config/blockchain.rs:107-171 | no contract of its own: the mainnet parameters and genesis bundle, specified by `MainnetGenesisBlock`, `MainnetGenesisPatch`, `MainnetParameters`, `MainnetBlockReward` and `MainnetConsistent` |
| `ConfigBlockchain.MpnContractShape` | src/config/blockchain.rs:29-55 | the MPN contract's model is `List{3, Struct[4 × Scalar]}`: 4^3 = 64 account slots and 256 = 4^4 cells; its initial state is the empty-tree commitment of that model; exactly one deposit and one withdraw key, the decoded Groth16 keys, each with payment capacity 4^1 = 4; exactly one update function |
| `ConfigBlockchain.MpnAccountLocator` | src/config/blockchain.rs:30-40 | `[i, f]` is a valid MPN locator if and only if i < 64 and f < 4, and it reaches cell 4·i + f |
| `ConfigBlockchain.MainnetGenesisBlock` | src/config/blockchain.rs:107-125 | the genesis header is number 0 with default parent hash and block root, timestamp 0, nonce 0, target equal to the minimum difficulty 0x0100ffff; the body is exactly the treasury's unsigned, zero-fee, nonce-1 `CreateContract` transaction |
| `ConfigBlockchain.MainnetGenesisPatch` | src/config/blockchain.rs:127-139 | the genesis patch has exactly one entry, keyed by the configured contract id, which is the id of the genesis contract transaction; the entry is that transaction's delta, the empty delta |
| `ConfigBlockchain.MainnetConsistent` | src/config/blockchain.rs:107-170 | mainnet satisfies the genesis invariant `ConsistentGenesis`: block 0 at the minimum difficulty, body opening with the treasury's contract creation, contract id derived from it, patch touching only that contract, delay below interval |
| `ConfigBlockchain.MainnetParameters` | src/config/blockchain.rs:141-169 | the mainnet constants: no miner allow-list, supply 2 000 000 000·UNIT, ratio 100 000, block size 1·MB, 1024 delta cells, 60 s blocks, difficulty every 128 blocks, base key "BAZUKA BASE KEY", delay 64 < interval 2048, median of 10, zero MPN counters, height limit `Some(5000)` |
| `ConfigBlockchain.MainnetBlockReward` | src/config/blockchain.rs:141-142 | total supply divided by the reward ratio is 20 000·UNIT with remainder 0, for every UNIT |
| `ConfigBlockchain.TestInitStateFitsModel` | src/config/blockchain.rs:74-84 | the test model `List{5, Scalar}` has 1024 cells; the initial data's only locator `[100]` is valid and reaches cell 100; its delta sets exactly that cell to `Some(200)` |
| `ConfigBlockchain.GetTestMpnContract` | src/config/blockchain.rs:72-105 | the test contract transaction equals the mainnet one except for the contract; the contract has model `List{5, Scalar}`, initial state the compression of the test data, one `Dummy` deposit and one `Dummy` withdraw key of capacity 1 and one `Dummy` function; the delta is the test data as a delta |
| `ConfigBlockchain.GetTestBlockchainConfig` | src/config/blockchain.rs:174-211 | putting back mainnet's miner list, three MPN counters, contract id, minimum difficulty, height limit and genesis gives mainnet exactly; the overrides are: no miner list, zero counters, difficulty 0x007fffff for both the minimum and the genesis target (the rest of the header inherited), no height limit, a body of two transactions (the test contract transaction, then the treasury's nonce-2 `RegularSend` of 10000 to the "ABC" address), and a patch with one entry for the new contract id; the result satisfies `ConsistentGenesis` |
| `PowKeySchedule.KeySource` | src/config/blockchain.rs:148-155 | no contract of its own: which block, or the base key, yields the key of a height, specified by `KeySourceAge`, `KeySourceWindow`, `KeySourceMonotone`, `KeyFixedBeforeUse` and `MainnetKeySchedule` |
| `PowKeySchedule.PowKey` | src/config/blockchain.rs:148-155 | no contract of its own: the key itself, the base key or the hash of the source block, specified by `PowKeyUsesOnlyOldBlocks` |
| `PowKeySchedule.KeySourceAge` | src/config/blockchain.rs:148-155 | the base key is used exactly below height D; otherwise the source block is a multiple of R at least D and fewer than D + R blocks below the height |
| `PowKeySchedule.KeySourceWindow` | src/config/blockchain.rs:148-155 | every height in `[D + jR, D + (j+1)R)` is keyed by block jR, so the key is constant over each window |
| `PowKeySchedule.KeyFixedBeforeUse` | src/config/blockchain.rs:148-155 | with a delay of at least one block, a key's source block lies strictly below the height it keys |
| `PowKeySchedule.KeySourceMonotone` | src/config/blockchain.rs:148-155 | the source never decreases as the height grows (the base key first) |
| `PowKeySchedule.PowKeyUsesOnlyOldBlocks` | src/config/blockchain.rs:148-155 | two chains that agree on every block at least D below a height give that height the same key |
| `PowKeySchedule.MainnetKeySchedule` | src/config/blockchain.rs:148-155 | with mainnet's parameters: exactly heights 0–63 use the base key, which is "BAZUKA BASE KEY"; 64–2111 block 0, 2112–4159 block 2048, 4160–6207 block 4096 |
| `PowKeySchedule.WindowsAreShiftedByDelay` | src/config/blockchain.rs:148-155 | for every k ≥ 1 and D < R, height kR + D is keyed by block kR, which is above kR − R + D, the bound of the epoch-aligned reading |
| `PromoteValidator.TickKeepsDiscipline` | src/node/heartbeat/promote_validator.rs:6-14 | from a disciplined log with the guard free, acquire–release and acquire–record–release–broadcast keep the discipline and end with the guard free |
| `PromoteValidator.MisorderedTickBreaksDiscipline` | src/node/heartbeat/promote_validator.rs:12-14 | recording the claim after the release, or broadcasting it before the release, breaks the discipline |
| `PromoteValidator.NodeContext.AcquireWrite` | src/node/heartbeat/promote_validator.rs:6 | taking the guard when it is free logs the acquisition and keeps the discipline |
| `PromoteValidator.NodeContext.ReleaseWrite` | src/node/heartbeat/promote_validator.rs:13 | releasing the held guard logs the release and keeps the discipline |
| `PromoteValidator.NodeContext.SetClaim` | src/node/heartbeat/promote_validator.rs:12 | the claim is replaced only while the guard is held, and the recording is logged; `Valid` ties the stored claim to the last recording in the log, so no other write of the claim keeps the invariant |
| `PromoteValidator.NodeContext.PromoteValidatorClaim` | src/node/heartbeat/promote_validator.rs:14 | a broadcast is allowed only while the guard is free, and logs exactly that claim |
| `PromoteValidator.NodeContext.PromoteValidator` | src/node/heartbeat/promote_validator.rs:3-17 | wallet, chain and address never change, the guard is free at the end, and the stored claim is always the one last recorded under the guard (`Valid`). A status error is returned as `BlockchainFailure`, with the claim unchanged and no broadcast. Not eligible gives `Ok(())`, with the claim unchanged and no broadcast. Eligible without an address gives `Err(ValidatorNotExposed)`, with the claim unchanged and no broadcast. Eligible with an address gives `Ok(())`: the claim becomes `claim_validator` of the same timestamp, the proof and the address, replacing any old claim, and the log gets acquire, the recording of that claim under the guard, release, then one broadcast of that same claim |

## Left out

- The Groth16 verifying keys are not decoded from their hex/bincode blobs (`src/config/blockchain.rs:20-27`); they are abstract values in `Externals`.
- Hashing and commitments (`ZkCompressedState::empty`, `compress::<ZkHasher>`, `ContractId::new`, the `TxBuilder` address) are uninterpreted functions in `Externals`; no byte-level agreement of the genesis hash is modelled.
- The values of `UNIT` and `MB` and the type of block hashes are defined outside the modelled files and are inputs. Money is an unbounded natural: the product 2 000 000 000·UNIT is assumed to fit in `u64`. Rust refuses an overflowing constant product at compile time.
- `Difficulty` keeps its compact `u32` encoding but not its meaning; only equality between fields matters here.
- The code that derives the actual PoW key, checks rewards or medians, and validates block size and delta counts is not in the modelled files. The schedule is modelled from the configuration's comment and constants.
- The validity rule for locators (`Zk.ValidPath`) and `as_delta` belong to the zk module, which is not part of this model. They are stated from the shapes the configuration uses. `compress` itself stays uninterpreted. `GetTestMpnContract` therefore requires that `compress` accepts the test data, where the Rust code would `unwrap` and panic.
- The `_ => panic!()` arm of `get_test_mpn_contract` cannot be reached, because the mainnet contract transaction is always a `CreateContract`. It is an `assert false` branch.
- Only the transaction kinds (`RegularSend`, `CreateContract`), patch kind (`Delta`) and verifier keys (`Groth16`, `Dummy`) that the configuration uses are modelled.
- `RwLock`, `async`/`await` and the scheduling of concurrent heartbeats are not modelled. The guard is a ghost flag with a ghost event log. `network_timestamp()` is the `timestamp` input, read once. `promote_validator_claim` is a logged broadcast event, and its transport is not modelled. `println!` is dropped.
- Limiting batch proofs to 4^capacity payments is enforced outside the modelled files. The model only exposes the bound (`Zk.PaymentCapacity`).
