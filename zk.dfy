/**
 * The shape descriptor of a zero-knowledge contract's state and the
 * contract record built around it.
 *
 * A `ZkStateModel` describes a 4-ary commitment tree: a `Scalar` is one
 * cell, a `Struct` is a fixed sequence of heterogeneous fields, and a
 * `List` is exactly 4^log4Size copies of one item model.  A locator is a
 * path of indices from the root of the model down to one scalar cell.
 */
module Zk {

  import opened Wrappers

  /** 4^n, the number of slots of a list whose log4 size is n. */
  function Pow4(n: nat): (r: nat)
    ensures r >= 1
  {
    if n == 0 then 1 else 4 * Pow4(n - 1)
  }

  datatype ZkStateModel =
    | Scalar
    | Struct(fieldTypes: seq<ZkStateModel>)
    | List(log4Size: nat, itemType: ZkStateModel)

  /** Number of scalar cells of a state of this shape. */
  function CellCount(m: ZkStateModel): nat
    decreases m
  {
    match m
    case Scalar => 1
    case Struct(fs) => FieldsCellCount(fs)
    case List(n, item) => Pow4(n) * CellCount(item)
  }

  /** Total number of cells of a sequence of fields, summed from the back. */
  function FieldsCellCount(fs: seq<ZkStateModel>): nat
    decreases fs
  {
    if fs == [] then 0 else FieldsCellCount(fs[..|fs| - 1]) + CellCount(fs[|fs| - 1])
  }

  /** A path of indices into the model; `ZkDataLocator(Vec<u32>)`. */
  datatype ZkDataLocator = ZkDataLocator(path: seq<nat>)

  /**
   * A path is valid for a model when it ends exactly at a scalar cell,
   * each struct index within the field count and each list index within
   * the 4^log4Size slots.
   */
  predicate ValidPath(m: ZkStateModel, path: seq<nat>)
    decreases m
  {
    match m
    case Scalar => path == []
    case Struct(fs) => |path| > 0 && path[0] < |fs| && ValidPath(fs[path[0]], path[1..])
    case List(n, item) => |path| > 0 && path[0] < Pow4(n) && ValidPath(item, path[1..])
  }

  /**
   * The position of the cell a valid path reaches when the cells of the
   * model are laid out in order; always inside the model's cells.
   */
  function LeafIndex(m: ZkStateModel, path: seq<nat>): (r: nat)
    requires ValidPath(m, path)
    ensures r < CellCount(m)
    decreases m
  {
    match m
    case Scalar => 0
    case Struct(fs) =>
      var i := path[0];
      var inner := LeafIndex(fs[i], path[1..]);
      FieldsPrefixFits(fs, i);
      FieldsCellCount(fs[..i]) + inner
    case List(n, item) =>
      var i := path[0];
      var inner := LeafIndex(item, path[1..]);
      SlotFits(i, Pow4(n), CellCount(item), inner);
      i * CellCount(item) + inner
  }

  /** The cells before field i together with field i's own cells fit in the struct. */
  lemma {:induction false} FieldsPrefixFits(fs: seq<ZkStateModel>, i: nat)
    requires i < |fs|
    ensures FieldsCellCount(fs[..i]) + CellCount(fs[i]) <= FieldsCellCount(fs)
    decreases |fs|
  {
    var last := |fs| - 1;
    assert fs[..last] == fs[..|fs| - 1];
    if i < last {
      FieldsPrefixFits(fs[..last], i);
      assert fs[..last][..i] == fs[..i];
      assert fs[..last][i] == fs[i];
    } else {
      assert fs[..i] == fs[..|fs| - 1];
    }
  }

  /** Slot i of a list of n slots of c cells each, at offset j < c, lies inside n * c cells. */
  lemma SlotFits(i: nat, n: nat, c: nat, j: nat)
    requires i < n && j < c
    ensures i * c + j < n * c
  {
    assert i * c + c == (i + 1) * c;
    assert (i + 1) * c <= n * c;
  }

  /** A field element of the proof system; only small constants appear here. */
  type ZkScalar = nat

  /** Full assignment of cells; `ZkDataPairs`. */
  datatype ZkDataPairs = ZkDataPairs(pairs: map<ZkDataLocator, ZkScalar>)

  /** A change set where `None` clears a cell; `ZkDeltaPairs`. */
  datatype ZkDeltaPairs = ZkDeltaPairs(pairs: map<ZkDataLocator, Option<ZkScalar>>)

  /** `ZkDeltaPairs::default()`: the empty change set. */
  function EmptyDelta(): ZkDeltaPairs
  {
    ZkDeltaPairs(map[])
  }

  /** `ZkDataPairs::as_delta`: every assigned cell becomes a `Some` entry. */
  function AsDelta(d: ZkDataPairs): ZkDeltaPairs
  {
    ZkDeltaPairs(map l | l in d.pairs :: Some(d.pairs[l]))
  }

  /** The cells a delta sets, with their values; the cleared cells are dropped. */
  function DataOf(delta: ZkDeltaPairs): ZkDataPairs
  {
    ZkDataPairs(map l | l in delta.pairs && delta.pairs[l].Some? :: delta.pairs[l].value)
  }

  /** A data set turned into a delta and read back is the same data set, and the delta clears nothing. */
  lemma DataOfAsDelta(d: ZkDataPairs)
    ensures DataOf(AsDelta(d)) == d
    ensures forall l :: l in AsDelta(d).pairs ==> AsDelta(d).pairs[l].Some?
  {
    assert DataOf(AsDelta(d)).pairs == d.pairs;
  }

  /** The compressed root commitment of a state; the digest is opaque. */
  datatype ZkCompressedState = ZkCompressedState(digest: seq<bv8>)

  /** A decoded Groth16 verifying key; its content is opaque here. */
  datatype Groth16VerifyingKey = Groth16VerifyingKey(encoded: seq<bv8>)

  datatype ZkVerifierKey = Groth16(vk: Groth16VerifyingKey) | Dummy

  /** A key for a batched deposit or withdraw proof and its log4 batch bound. */
  datatype ZkMultiInputVerifierKey =
    ZkMultiInputVerifierKey(verifierKey: ZkVerifierKey, log4PaymentCapacity: nat)

  datatype ZkSingleInputVerifierKey = ZkSingleInputVerifierKey(verifierKey: ZkVerifierKey)

  /** Largest number of payments one batch proof checked against k may carry. */
  function PaymentCapacity(k: ZkMultiInputVerifierKey): nat
  {
    Pow4(k.log4PaymentCapacity)
  }

  datatype ZkContract = ZkContract(
    stateModel: ZkStateModel,
    initialState: ZkCompressedState,
    depositFunctions: seq<ZkMultiInputVerifierKey>,
    withdrawFunctions: seq<ZkMultiInputVerifierKey>,
    functions: seq<ZkSingleInputVerifierKey>)

  datatype ZkStatePatch = Delta(delta: ZkDeltaPairs)

  /** Why a compression was refused; `ZkError`. */
  datatype ZkError = ZkError(reason: string)
}
