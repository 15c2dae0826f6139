/**
 * The proof-of-work key schedule the configuration fixes: heights below
 * the look-back delay D use the base key; from then on the key changes
 * every R blocks (R the rotation interval), and the key for height h is
 * derived from the hash of block R * ((h - D) / R).  With D = 64 and
 * R = 2048 heights 0..63 use the base key, 64..2111 block 0, 2112..4159
 * block 2048, and so on (src/config/blockchain.rs:148-155).
 */
module PowKeySchedule {

  import opened Chain
  import opened ConfigBlockchain

  /** Where the key for a height comes from. */
  datatype PowKeySource = BaseKey | BlockHashAt(height: nat)

  /**
   * The schedule is defined whenever keys rotate at all.  It does not
   * depend on the configuration invariant delay < interval
   * (`ConsistentGenesis`); what fixes a key before it is used is a
   * delay of at least one block (`KeyFixedBeforeUse`).
   */
  predicate ValidKeySchedule(conf: BlockchainConfig)
  {
    conf.powKeyChangeInterval > 0
  }

  function KeySource(conf: BlockchainConfig, height: nat): PowKeySource
    requires ValidKeySchedule(conf)
  {
    var d, r := conf.powKeyChangeDelay, conf.powKeyChangeInterval;
    if height < d then BaseKey else BlockHashAt(r * ((height - d) / r))
  }

  /** The key itself, given the hashes of the blocks of the chain. */
  function PowKey(conf: BlockchainConfig, height: nat, blockHash: nat -> seq<bv8>): seq<bv8>
    requires ValidKeySchedule(conf)
  {
    match KeySource(conf, height)
    case BaseKey => conf.powBaseKey
    case BlockHashAt(n) => blockHash(n)
  }

  /** Base key first, then source blocks in height order. */
  predicate SourceAtMost(a: PowKeySource, b: PowKeySource)
  {
    a.BaseKey? || (b.BlockHashAt? && a.height <= b.height)
  }

  /** q = floor(x / r) is pinned down by r * q <= x < r * (q + 1). */
  lemma DivBetween(x: nat, r: nat, q: nat)
    requires r > 0 && r * q <= x < r * q + r
    ensures x / r == q
  {
    var p := x / r;
    assert r * p <= x < r * p + r;
    MulMonotone(r, p + 1, q);
    MulMonotone(r, q + 1, p);
  }

  lemma MulMonotone(r: nat, a: nat, b: nat)
    ensures a <= b ==> r * a <= r * b
  {
  }

  lemma FloorMonotone(x: nat, y: nat, r: nat)
    requires r > 0 && x <= y
    ensures x / r <= y / r
  {
    var q1, q2 := x / r, y / r;
    assert r * q1 <= x && y < r * q2 + r;
    MulMonotone(r, q2 + 1, q1);
  }

  /**
   * The key's source: the base key exactly below height D; otherwise a
   * block at a multiple of R that is at least D blocks older than the
   * height and less than D + R older.
   */
  lemma KeySourceAge(conf: BlockchainConfig, height: nat)
    requires ValidKeySchedule(conf)
    ensures KeySource(conf, height).BaseKey? <==> height < conf.powKeyChangeDelay
    ensures KeySource(conf, height).BlockHashAt? ==>
      var n := KeySource(conf, height).height;
      && n % conf.powKeyChangeInterval == 0
      && n + conf.powKeyChangeDelay <= height < n + conf.powKeyChangeDelay + conf.powKeyChangeInterval
  {
    var d, r := conf.powKeyChangeDelay, conf.powKeyChangeInterval;
    if height >= d {
      var q := (height - d) / r;
      assert r * q <= height - d < r * q + r;
      assert (r * q) % r == 0 by { DivBetween(r * q, r, q); }
    }
  }

  /**
   * Window j: every height in [D + j R, D + (j + 1) R) takes its key from
   * block j R, so the key is constant across the window and is fixed D
   * blocks before the window opens.
   */
  lemma {:induction false} KeySourceWindow(conf: BlockchainConfig, j: nat, height: nat)
    requires ValidKeySchedule(conf)
    requires conf.powKeyChangeDelay + j * conf.powKeyChangeInterval <= height
    requires height < conf.powKeyChangeDelay + j * conf.powKeyChangeInterval + conf.powKeyChangeInterval
    ensures KeySource(conf, height) == BlockHashAt(j * conf.powKeyChangeInterval)
  {
    var d, r := conf.powKeyChangeDelay, conf.powKeyChangeInterval;
    DivBetween(height - d, r, j);
  }

  /**
   * With a look-back delay of at least one block, a key's source block
   * lies strictly below the height it keys, so the key is fixed before
   * that height is mined.
   */
  lemma KeyFixedBeforeUse(conf: BlockchainConfig, height: nat)
    requires ValidKeySchedule(conf) && conf.powKeyChangeDelay >= 1
    ensures KeySource(conf, height).BlockHashAt? ==> KeySource(conf, height).height < height
  {
    KeySourceAge(conf, height);
  }

  /** The source never moves backwards as the height grows. */
  lemma KeySourceMonotone(conf: BlockchainConfig, h1: nat, h2: nat)
    requires ValidKeySchedule(conf)
    requires h1 <= h2
    ensures SourceAtMost(KeySource(conf, h1), KeySource(conf, h2))
  {
    var d, r := conf.powKeyChangeDelay, conf.powKeyChangeInterval;
    if h1 >= d {
      FloorMonotone(h1 - d, h2 - d, r);
      MulMonotone(r, (h1 - d) / r, (h2 - d) / r);
    }
  }

  /**
   * Grinding resistance: the key for a height depends on no block less
   * than D blocks below it.  Two chains that agree on every block at
   * least D blocks older yield the same key.
   */
  lemma PowKeyUsesOnlyOldBlocks(conf: BlockchainConfig, height: nat, hash1: nat -> seq<bv8>, hash2: nat -> seq<bv8>)
    requires ValidKeySchedule(conf)
    requires forall n: nat :: n + conf.powKeyChangeDelay <= height ==> hash1(n) == hash2(n)
    ensures PowKey(conf, height, hash1) == PowKey(conf, height, hash2)
  {
    KeySourceAge(conf, height);
  }

  /** The mainnet schedule as the configuration's comment tabulates it. */
  lemma MainnetKeySchedule(e: Externals, height: nat)
    ensures ValidKeySchedule(GetBlockchainConfig(e))
    ensures var conf := GetBlockchainConfig(e);
      && (height < 64 <==> KeySource(conf, height) == BaseKey)
      && conf.powBaseKey == AsciiBytes("BAZUKA BASE KEY")
      && (64 <= height < 2112 ==> KeySource(conf, height) == BlockHashAt(0))
      && (2112 <= height < 4160 ==> KeySource(conf, height) == BlockHashAt(2048))
      && (4160 <= height < 6208 ==> KeySource(conf, height) == BlockHashAt(4096))
  {
    var conf := GetBlockchainConfig(e);
    if 64 <= height < 2112 {
      KeySourceWindow(conf, 0, height);
    } else if 2112 <= height < 4160 {
      KeySourceWindow(conf, 1, height);
    } else if 4160 <= height < 6208 {
      KeySourceWindow(conf, 2, height);
    }
  }

  /**
   * The schedule's windows are offset by D from the multiples of R: the
   * height k R + D already uses block k R, which lies above k R - R + D
   * for every k >= 1 when D < R.  On mainnet, height 2112 is keyed by
   * block 2048, above 64.
   */
  lemma WindowsAreShiftedByDelay(conf: BlockchainConfig, k: nat)
    requires conf.powKeyChangeDelay < conf.powKeyChangeInterval
    requires k >= 1
    ensures ValidKeySchedule(conf)
    ensures var d, r := conf.powKeyChangeDelay, conf.powKeyChangeInterval;
      && KeySource(conf, k * r + d) == BlockHashAt(k * r)
      && k * r > k * r - r + d
  {
    KeySourceWindow(conf, k, k * conf.powKeyChangeInterval + conf.powKeyChangeDelay);
  }
}
