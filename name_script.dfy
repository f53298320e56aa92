/**
  The three name-operation output scripts (name_new, name_firstupdate, name_update),
  written as sequences of abstract script tokens, together with the commitment hash
  that binds a name to its random value.
*/
module NameScript {
  import opened Common

  type Name = Bytes

  const ZeroHash: seq<byte> := [0, 0, 0, 0, 0, 0, 0, 0, 0, 0, 0, 0, 0, 0, 0, 0, 0, 0, 0, 0]

  /** A `uint160`, kept as its 20 bytes. */
  type Hash160 = h: Bytes | |h| == 20 witness ZeroHash

  /**
    The cryptographic and big-number helpers the file calls but does not define:
    `Hash160` (SHA-256 then RIPEMD-160) and `CBigNum(rand).getvch()`.
  */
  datatype Crypto = Crypto(hash160: Bytes -> Hash160, bigNumBytes: uint64 -> Bytes)

  /** The commitment a name_new publishes: Hash160 over the random value's bytes followed by the name. */
  function CommitmentHash(c: Crypto, rand: uint64, name: Name): Hash160
  {
    c.hash160(c.bigNumBytes(rand) + name)
  }

  /** `uint160(vch)`: the bytes themselves when there are exactly 20 of them, zero otherwise. */
  function Uint160(v: Bytes): Hash160
  {
    if |v| == 20 then v else ZeroHash
  }

  datatype Token =
    | NameNewOp | NameFirstUpdateOp | NameUpdateOp
    | DropOp | TwoDropOp | ReturnOp
    | DupOp | Hash160Op | EqualVerifyOp | CheckSigOp
    | Push(data: Bytes)

  type Script = seq<Token>

  /** `SetBitcoinAddress`: pay to the holder of the key whose hash is `keyHash`. */
  function PayToKeyHash(keyHash: Hash160): Script
  {
    [DupOp, Hash160Op, Push(keyHash), EqualVerifyOp, CheckSigOp]
  }

  /** `OP_NAME_NEW <hash> OP_2DROP` followed by the payment script. */
  function NewScript(hash: Hash160, payment: Script): Script
  {
    [NameNewOp, Push(hash), TwoDropOp] + payment
  }

  /** `OP_NAME_FIRSTUPDATE <name> <rand> <value> OP_2DROP OP_2DROP` followed by the payment script. */
  function FirstUpdateScript(name: Name, rand: Bytes, value: Bytes, payment: Script): Script
  {
    [NameFirstUpdateOp, Push(name), Push(rand), Push(value), TwoDropOp, TwoDropOp] + payment
  }

  /** `OP_NAME_UPDATE <name> <value> OP_2DROP OP_DROP` followed by the payment script. */
  function UpdateScript(name: Name, value: Bytes, payment: Script): Script
  {
    [NameUpdateOp, Push(name), Push(value), TwoDropOp, DropOp] + payment
  }

  /** The provably unspendable output that carries the network fee. */
  const FeeScript: Script := [ReturnOp]

  datatype NameOpKind = OpNew | OpFirstUpdate | OpUpdate

  datatype NameOp = NameOp(kind: NameOpKind, args: seq<Bytes>)

  function OpKindOf(t: Token): Option<NameOpKind>
  {
    match t
    case NameNewOp => Some(OpNew)
    case NameFirstUpdateOp => Some(OpFirstUpdate)
    case NameUpdateOp => Some(OpUpdate)
    case _ => None
  }

  /** Number of pushed arguments each operation carries. */
  function Arity(k: NameOpKind): nat
  {
    match k
    case OpNew => 1
    case OpFirstUpdate => 3
    case OpUpdate => 2
  }

  /** The pushes that precede the first drop marker; None when anything else comes first. */
  function PushedArgs(s: Script): Option<seq<Bytes>>
  {
    if s == [] then None
    else
      match s[0]
      case Push(d) =>
        (match PushedArgs(s[1..])
         case None => None
         case Some(rest) => Some([d] + rest))
      case DropOp => Some([])
      case TwoDropOp => Some([])
      case _ => None
  }

  /** Recognises a name-operation prefix: an operation token, its pushes, a drop marker. */
  function DecodeNameScript(s: Script): (r: Option<NameOp>)
    ensures r.Some? ==> |r.value.args| == Arity(r.value.kind)
    ensures r.Some? ==> s != [] && OpKindOf(s[0]) == Some(r.value.kind)
  {
    if s == [] then None
    else
      match OpKindOf(s[0])
      case None => None
      case Some(k) =>
        match PushedArgs(s[1..])
        case None => None
        case Some(args) => if |args| == Arity(k) then Some(NameOp(k, args)) else None
  }

  /** One push in front of a script adds one argument in front of its arguments. */
  lemma PushedArgsPush(d: Bytes, rest: Script)
    ensures PushedArgs([Push(d)] + rest)
         == (match PushedArgs(rest) case None => None case Some(args) => Some([d] + args))
  {
    assert ([Push(d)] + rest)[1..] == rest;
  }

  /** A drop marker ends the arguments. */
  lemma PushedArgsMarker(t: Token, rest: Script)
    requires t == DropOp || t == TwoDropOp
    ensures PushedArgs([t] + rest) == Some([])
  {
  }

  /** Decoding the name_new layout recovers the committed hash. */
  lemma DecodeNewScript(hash: Hash160, payment: Script)
    ensures DecodeNameScript(NewScript(hash, payment)) == Some(NameOp(OpNew, [hash]))
  {
    var tail := [TwoDropOp] + payment;
    PushedArgsMarker(TwoDropOp, payment);
    PushedArgsPush(hash, tail);
    assert NewScript(hash, payment)[1..] == [Push(hash)] + tail;
    assert [hash] + [] == [hash];
  }

  /** Decoding the name_firstupdate layout recovers name, random value and value. */
  lemma DecodeFirstUpdateScript(name: Name, rand: Bytes, value: Bytes, payment: Script)
    ensures DecodeNameScript(FirstUpdateScript(name, rand, value, payment))
         == Some(NameOp(OpFirstUpdate, [name, rand, value]))
  {
    var t3 := [TwoDropOp] + ([TwoDropOp] + payment);
    var t2 := [Push(value)] + t3;
    var t1 := [Push(rand)] + t2;
    PushedArgsMarker(TwoDropOp, [TwoDropOp] + payment);
    PushedArgsPush(value, t3);
    PushedArgsPush(rand, t2);
    PushedArgsPush(name, t1);
    assert FirstUpdateScript(name, rand, value, payment)[1..] == [Push(name)] + t1;
    assert [name] + ([rand] + ([value] + [])) == [name, rand, value];
  }

  /** Decoding the name_update layout recovers name and value. */
  lemma DecodeUpdateScript(name: Name, value: Bytes, payment: Script)
    ensures DecodeNameScript(UpdateScript(name, value, payment)) == Some(NameOp(OpUpdate, [name, value]))
  {
    var t2 := [TwoDropOp] + ([DropOp] + payment);
    var t1 := [Push(value)] + t2;
    PushedArgsMarker(TwoDropOp, [DropOp] + payment);
    PushedArgsPush(value, t2);
    PushedArgsPush(name, t1);
    assert UpdateScript(name, value, payment)[1..] == [Push(name)] + t1;
    assert [name] + ([value] + []) == [name, value];
  }

  /** Plain payment scripts and the fee output are not name operations. */
  lemma PlainScriptsAreNotNameOps(keyHash: Hash160)
    ensures DecodeNameScript(PayToKeyHash(keyHash)) == None
    ensures DecodeNameScript(FeeScript) == None
  {
  }
}
