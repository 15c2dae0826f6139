/**
 * The canonical mainnet consensus parameters and genesis bundle, and the
 * test-network variant derived from them by a fixed list of overrides
 * (src/config/blockchain.rs).
 *
 * The mainnet builders are pure functions of a record of primitives that
 * the configuration module uses but does not define: the hash-based
 * derivations, the decoded verifying keys and two unit constants.
 */
module ConfigBlockchain {

  import opened Wrappers
  import opened Zk
  import opened Chain

  /**
   * What the configuration consumes from the rest of the node: hashing
   * (`ZkCompressedState::empty`, `compress::<ZkHasher>`, `ContractId::new`),
   * wallet address derivation (`TxBuilder::new(..).get_address()`), the
   * three Groth16 keys decoded at start-up, `UNIT`, `MB`, and the
   * `Default::default()` value of a block hash.
   */
  datatype Externals = Externals(
    unit: nat,
    mb: nat,
    defaultHash: seq<bv8>,
    mpnUpdateVk: Groth16VerifyingKey,
    mpnDepositVk: Groth16VerifyingKey,
    mpnWithdrawVk: Groth16VerifyingKey,
    emptyState: ZkStateModel -> ZkCompressedState,
    compress: (ZkStateModel, ZkDataPairs) -> Result<ZkCompressedState, ZkError>,
    contractIdOf: Transaction -> ContractId,
    txBuilderAddress: seq<bv8> -> Address)

  const MpnLog4AccountCapacity: nat := 3
  const MpnLog4PaymentCapacity: nat := 1
  const TestnetHeightLimit: nat := 5000

  /** Two billion whole coins. */
  const TotalSupplyCoins: nat := 2_000_000_000

  /** The ASCII bytes of a string literal, as Rust's `b"..."`. */
  function AsciiBytes(s: string): (r: seq<bv8>)
    requires forall i :: 0 <= i < |s| ==> s[i] as int < 256
    ensures |r| == |s|
  {
    seq(|s|, i requires 0 <= i < |s| => s[i] as int as bv8)
  }

  function PowBaseKey(): seq<bv8>
  {
    AsciiBytes("BAZUKA BASE KEY")
  }

  function MainnetMinDifficulty(): Difficulty
  {
    Difficulty(0x0100ffff)
  }

  function TestMinDifficulty(): Difficulty
  {
    Difficulty(0x007fffff)
  }

  /** An account of the settlement contract: nonce, public key x and y, balance. */
  function MpnAccountModel(): ZkStateModel
  {
    Struct([Scalar, Scalar, Scalar, Scalar])
  }

  function MpnStateModel(): ZkStateModel
  {
    List(MpnLog4AccountCapacity, MpnAccountModel())
  }

  /** `get_mpn_contract`: the settlement contract and its creation transaction. */
  function GetMpnContract(e: Externals): TransactionAndDelta
  {
    var mpnStateModel := MpnStateModel();
    var mpnContract := ZkContract(
      mpnStateModel,
      e.emptyState(mpnStateModel),
      [ZkMultiInputVerifierKey(Groth16(e.mpnDepositVk), MpnLog4PaymentCapacity)],
      [ZkMultiInputVerifierKey(Groth16(e.mpnWithdrawVk), MpnLog4PaymentCapacity)],
      [ZkSingleInputVerifierKey(Groth16(e.mpnUpdateVk))]);
    var mpnContractCreateTx := Transaction(
      Treasury, CreateContract(mpnContract), 1, Money(0), Unsigned);
    TransactionAndDelta(mpnContractCreateTx, Some(EmptyDelta()))
  }

  /** `get_blockchain_config`: the mainnet parameters and genesis bundle. */
  function GetBlockchainConfig(e: Externals): BlockchainConfig
  {
    var mpnTxDelta := GetMpnContract(e);
    var mpnContractId := e.contractIdOf(mpnTxDelta.tx);
    var minDiff := MainnetMinDifficulty();
    var blk := Block(
      Header(e.defaultHash, 0, e.defaultHash, ProofOfWork(0, minDiff, 0)),
      [mpnTxDelta.tx]);
    BlockchainConfig(
      limitedMiners := None,
      mpnContractId := mpnContractId,
      genesis := BlockAndPatch(
        blk,
        ZkBlockchainPatch(map[mpnContractId := Delta(mpnTxDelta.stateDelta.value)])),
      totalSupply := Money(TotalSupplyCoins * e.unit),
      rewardRatio := 100_000,
      maxBlockSize := 1 * e.mb,
      maxDeltaCount := 1024,
      blockTime := 60,
      difficultyCalcInterval := 128,
      powBaseKey := PowBaseKey(),
      powKeyChangeDelay := 64,
      powKeyChangeInterval := 2048,
      medianTimestampCount := 10,
      mpnNumFunctionCalls := 0,
      mpnNumContractDeposits := 0,
      mpnNumContractWithdraws := 0,
      minimumPowDifficulty := minDiff,
      testnetHeightLimit := Some(TestnetHeightLimit))
  }

  /**
   * What both the mainnet and the test configuration keep: the genesis
   * block is block 0 mined at the minimum difficulty, opens with the
   * treasury's creation of the settlement contract, the configured
   * contract id is the one derived from that transaction, the genesis
   * patch touches that contract only, and the key look-back delay is
   * shorter than the key rotation interval.
   */
  predicate ConsistentGenesis(e: Externals, conf: BlockchainConfig)
  {
    var blk := conf.genesis.block;
    blk.header.number == 0
    && blk.header.proofOfWork.target == conf.minimumPowDifficulty
    && |blk.body| >= 1
    && blk.body[0].src == Treasury
    && blk.body[0].data.CreateContract?
    && conf.mpnContractId == e.contractIdOf(blk.body[0])
    && conf.genesis.patch.patches.Keys == {conf.mpnContractId}
    && conf.powKeyChangeDelay < conf.powKeyChangeInterval
  }

  /** The settlement contract's shape, keys and batch capacities. */
  lemma MpnContractShape(e: Externals)
    ensures GetMpnContract(e).tx.data.CreateContract?
    ensures var c := GetMpnContract(e).tx.data.contract;
      && c.stateModel == MpnStateModel()
      && Pow4(c.stateModel.log4Size) == 64
      && CellCount(c.stateModel) == 256 == Pow4(4)
      && c.initialState == e.emptyState(c.stateModel)
      && c.depositFunctions == [ZkMultiInputVerifierKey(Groth16(e.mpnDepositVk), 1)]
      && c.withdrawFunctions == [ZkMultiInputVerifierKey(Groth16(e.mpnWithdrawVk), 1)]
      && PaymentCapacity(c.depositFunctions[0]) == 4
      && PaymentCapacity(c.withdrawFunctions[0]) == 4
      && c.functions == [ZkSingleInputVerifierKey(Groth16(e.mpnUpdateVk))]
  {
    var fs := [Scalar, Scalar, Scalar, Scalar];
    assert fs == seq(4, _ => Scalar);
    FieldsOfScalars(4);
  }

  /**
   * A cell of the settlement contract is addressed by an account index
   * below 64 and a field index below 4, and the cells of account i are
   * the four consecutive cells from 4 * i.
   */
  lemma MpnAccountLocator(i: nat, f: nat)
    ensures ValidPath(MpnStateModel(), [i, f]) <==> i < 64 && f < 4
    ensures ValidPath(MpnStateModel(), [i, f]) ==> LeafIndex(MpnStateModel(), [i, f]) == 4 * i + f
  {
    var fs := [Scalar, Scalar, Scalar, Scalar];
    assert [i, f][1..] == [f];
    assert [f][1..] == [];
    assert fs == seq(4, _ => Scalar);
    FieldsOfScalars(4);
    if f < 4 {
      assert fs[..f] == seq(f, _ => Scalar);
      FieldsOfScalars(f);
    }
  }

  /** A sequence of n scalar fields holds n cells. */
  lemma {:induction false} FieldsOfScalars(n: nat)
    ensures FieldsCellCount(seq(n, _ => Scalar)) == n
  {
    if n > 0 {
      var fs := seq(n, _ => Scalar);
      assert fs[..n - 1] == seq(n - 1, _ => Scalar);
      FieldsOfScalars(n - 1);
    }
  }

  /** The genesis block of mainnet and its single transaction. */
  lemma MainnetGenesisBlock(e: Externals)
    ensures var conf := GetBlockchainConfig(e);
      var h := conf.genesis.block.header;
      && h.parentHash == e.defaultHash && h.blockRoot == e.defaultHash
      && h.number == 0
      && h.proofOfWork.timestamp == 0 && h.proofOfWork.nonce == 0
      && h.proofOfWork.target == conf.minimumPowDifficulty == Difficulty(0x0100ffff)
      && conf.genesis.block.body == [GetMpnContract(e).tx]
    ensures var tx := GetMpnContract(e).tx;
      tx.src == Treasury && tx.data.CreateContract? && tx.nonce == 1 && tx.fee == Money(0) && tx.sig == Unsigned
  {
  }

  /**
   * The mainnet genesis patch has exactly one entry, keyed by the
   * configured contract id, which is the id of the genesis contract
   * transaction, and carrying that transaction's (empty) delta.
   */
  lemma MainnetGenesisPatch(e: Externals)
    ensures var conf := GetBlockchainConfig(e);
      && conf.mpnContractId == e.contractIdOf(conf.genesis.block.body[0])
      && conf.genesis.patch.patches == map[conf.mpnContractId := Delta(GetMpnContract(e).stateDelta.value)]
      && GetMpnContract(e).stateDelta == Some(EmptyDelta())
  {
  }

  /** The mainnet configuration satisfies the genesis invariant. */
  lemma MainnetConsistent(e: Externals)
    ensures ConsistentGenesis(e, GetBlockchainConfig(e))
  {
  }

  /** The scalar parameters of mainnet. */
  lemma MainnetParameters(e: Externals)
    ensures var conf := GetBlockchainConfig(e);
      && conf.limitedMiners == None
      && conf.totalSupply == Money(2_000_000_000 * e.unit)
      && conf.rewardRatio == 100_000
      && conf.maxBlockSize == e.mb
      && conf.maxDeltaCount == 1024
      && conf.blockTime == 60
      && conf.difficultyCalcInterval == 128
      && conf.powBaseKey == AsciiBytes("BAZUKA BASE KEY")
      && conf.powKeyChangeDelay == 64 < conf.powKeyChangeInterval == 2048
      && conf.medianTimestampCount == 10
      && conf.mpnNumFunctionCalls == 0 && conf.mpnNumContractDeposits == 0 && conf.mpnNumContractWithdraws == 0
      && conf.testnetHeightLimit == Some(5000)
  {
  }

  /**
   * The per-block reward, total supply over the reward ratio, is 20 000
   * whole coins with no remainder, whatever the size of a coin.
   */
  lemma MainnetBlockReward(e: Externals)
    ensures var conf := GetBlockchainConfig(e);
      && conf.totalSupply.amount / conf.rewardRatio == 20_000 * e.unit
      && conf.totalSupply.amount % conf.rewardRatio == 0
  {
    var perBlock := 20_000 * e.unit;
    assert TotalSupplyCoins * e.unit == 100_000 * perBlock;
  }

  /** The state model of the test contract: 4^5 single scalars. */
  function TestStateModel(): ZkStateModel
  {
    List(5, Scalar)
  }

  /** The test contract's initial data: value 200 in cell 100. */
  function TestInitState(): ZkDataPairs
  {
    ZkDataPairs(map[ZkDataLocator([100]) := 200])
  }

  /**
   * The test contract has 1024 cells, its initial data sits at a valid
   * locator, in cell 100, and its genesis delta sets exactly that cell.
   */
  lemma TestInitStateFitsModel()
    ensures CellCount(TestStateModel()) == 1024
    ensures forall l :: l in TestInitState().pairs ==>
      ValidPath(TestStateModel(), l.path) && LeafIndex(TestStateModel(), l.path) == 100
    ensures AsDelta(TestInitState()).pairs == map[ZkDataLocator([100]) := Some(200)]
  {
    assert [100][1..] == [];
  }

  /** `get_test_mpn_contract`: the mainnet contract with its shape, data and keys replaced. */
  method GetTestMpnContract(e: Externals) returns (mpnTxDelta: TransactionAndDelta)
    requires e.compress(TestStateModel(), TestInitState()).Ok?
    ensures mpnTxDelta.tx.data.CreateContract?
    ensures mpnTxDelta.tx == GetMpnContract(e).tx.(data := mpnTxDelta.tx.data)
    ensures var c := mpnTxDelta.tx.data.contract;
      && c.stateModel == TestStateModel()
      && c.initialState == e.compress(TestStateModel(), TestInitState()).value
      && c.depositFunctions == [ZkMultiInputVerifierKey(Dummy, 1)]
      && c.withdrawFunctions == [ZkMultiInputVerifierKey(Dummy, 1)]
      && c.functions == [ZkSingleInputVerifierKey(Dummy)]
    ensures mpnTxDelta.stateDelta == Some(AsDelta(TestInitState()))
  {
    mpnTxDelta := GetMpnContract(e);
    var initState := TestInitState();
    match mpnTxDelta.tx.data {
      case CreateContract(contract) =>
        var c := contract.(stateModel := List(5, Scalar));
        c := c.(initialState := e.compress(c.stateModel, initState).value);
        c := c.(depositFunctions := [ZkMultiInputVerifierKey(Dummy, 1)]);
        c := c.(withdrawFunctions := [ZkMultiInputVerifierKey(Dummy, 1)]);
        c := c.(functions := [ZkSingleInputVerifierKey(Dummy)]);
        mpnTxDelta := mpnTxDelta.(tx := mpnTxDelta.tx.(data := CreateContract(c)));
      case RegularSend(_, _) =>
        assert false;
    }
    mpnTxDelta := mpnTxDelta.(stateDelta := Some(AsDelta(initState)));
  }

  /**
   * `get_test_blockchain_config`: mainnet with a fixed list of fields
   * overwritten.  Every field not listed is inherited from mainnet.
   */
  method GetTestBlockchainConfig(e: Externals) returns (conf: BlockchainConfig)
    requires e.compress(TestStateModel(), TestInitState()).Ok?
    ensures var m := GetBlockchainConfig(e);
      conf.(limitedMiners := m.limitedMiners,
            mpnNumContractDeposits := m.mpnNumContractDeposits,
            mpnNumContractWithdraws := m.mpnNumContractWithdraws,
            mpnNumFunctionCalls := m.mpnNumFunctionCalls,
            mpnContractId := m.mpnContractId,
            minimumPowDifficulty := m.minimumPowDifficulty,
            testnetHeightLimit := m.testnetHeightLimit,
            genesis := m.genesis) == m
    ensures conf.limitedMiners == None && conf.testnetHeightLimit == None
    ensures conf.mpnNumContractDeposits == 0 && conf.mpnNumContractWithdraws == 0 && conf.mpnNumFunctionCalls == 0
    ensures conf.minimumPowDifficulty == Difficulty(0x007fffff)
    ensures var h := GetBlockchainConfig(e).genesis.block.header;
      conf.genesis.block.header == h.(proofOfWork := h.proofOfWork.(target := Difficulty(0x007fffff)))
    ensures var body := conf.genesis.block.body;
      && |body| == 2
      && body[0] == GetMpnContract(e).tx.(data := body[0].data)
      && body[0].data.CreateContract?
      && body[0].data.contract.stateModel == TestStateModel()
      && body[0].data.contract.initialState == e.compress(TestStateModel(), TestInitState()).value
      && body[0].data.contract.depositFunctions == [ZkMultiInputVerifierKey(Dummy, 1)]
      && body[0].data.contract.withdrawFunctions == [ZkMultiInputVerifierKey(Dummy, 1)]
      && body[0].data.contract.functions == [ZkSingleInputVerifierKey(Dummy)]
      && body[1] == Transaction(Treasury, RegularSend(e.txBuilderAddress(AsciiBytes("ABC")), Money(10000)), 2, Money(0), Unsigned)
    ensures conf.genesis.patch.patches == map[conf.mpnContractId := Delta(AsDelta(TestInitState()))]
    ensures ConsistentGenesis(e, conf)
  {
    var mpnTxDelta := GetTestMpnContract(e);
    var mpnContractId := e.contractIdOf(mpnTxDelta.tx);
    var minDiff := TestMinDifficulty();

    conf := GetBlockchainConfig(e);
    conf := conf.(limitedMiners := None);
    conf := conf.(mpnNumContractDeposits := 0);
    conf := conf.(mpnNumContractWithdraws := 0);
    conf := conf.(mpnNumFunctionCalls := 0);
    conf := conf.(mpnContractId := mpnContractId);
    conf := conf.(minimumPowDifficulty := minDiff);
    var blk := conf.genesis.block;
    var pow := blk.header.proofOfWork.(target := minDiff);
    blk := blk.(header := blk.header.(proofOfWork := pow));
    conf := conf.(testnetHeightLimit := None);

    var testContract := GetTestMpnContract(e);
    blk := blk.(body := blk.body[0 := testContract.tx]);
    var abc := e.txBuilderAddress(AsciiBytes("ABC"));
    blk := blk.(body := blk.body + [Transaction(Treasury, RegularSend(abc, Money(10000)), 2, Money(0), Unsigned)]);
    conf := conf.(genesis := BlockAndPatch(
      blk,
      ZkBlockchainPatch(map[mpnContractId := Delta(mpnTxDelta.stateDelta.value)])));
  }
}
