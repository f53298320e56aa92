/**
  Building the name_firstupdate reveal (`nameFirstUpdateCreateTx`) and the name_update
  transaction (`nameUpdate`): the ordered precondition checks, the commitment check and
  the network-fee rounding.
*/
module NameTx {
  import opened Common
  import opened NameScript
  import opened Collaborators

  /** One hundredth of a coin, in base units. */
  const CENT: int := 1000000

  /** The value locked in every name output. */
  const MIN_AMOUNT: int := CENT

  /** C++ division on integers, which truncates toward zero. */
  function TruncDiv(a: int, b: int): (q: int)
    requires b > 0
    ensures a >= 0 ==> 0 <= q && q * b <= a < q * b + b
    ensures a < 0 ==> q <= 0 && q * b - b < a <= q * b
  {
    if a >= 0 then a / b else -((-a) / b)
  }

  /** `nNetFee += CENT - 1; nNetFee = (nNetFee / CENT) * CENT`. */
  function RoundUpToCent(fee: int): int
  {
    TruncDiv(fee + CENT - 1, CENT) * CENT
  }

  /** A non-negative fee is rounded up to the next multiple of CENT, and a zero fee stays zero. */
  lemma RoundUpToCentBounds(fee: int)
    requires fee >= 0
    ensures RoundUpToCent(fee) % CENT == 0
    ensures fee <= RoundUpToCent(fee) < fee + CENT
    ensures RoundUpToCent(fee) == 0 <==> fee == 0
  {
    var q := (fee + CENT - 1) / CENT;
    var m := (fee + CENT - 1) % CENT;
    assert fee + CENT - 1 == q * CENT + m;
    assert RoundUpToCent(fee) == q * CENT;
    assert (q * CENT) % CENT == 0 by {
      assert q * CENT == 0 + q * CENT;
    }
  }

  /** How the previous transaction's name outputs look. */
  datatype HashScan = NotNameNew | NoNameOutput | Committed(hash: Bytes)

  predicate IsNameNewOutput(o: TxOut)
  {
    var d := DecodeNameScript(o.script);
    d.Some? && d.value.kind == OpNew
  }

  predicate IsOtherNameOutput(o: TxOut)
  {
    var d := DecodeNameScript(o.script);
    d.Some? && d.value.kind != OpNew
  }

  /** The hash pushed by the last name_new output, if there is one. */
  function LastCommittedHash(vout: seq<TxOut>): Option<Bytes>
  {
    if vout == [] then None
    else
      var o := vout[|vout| - 1];
      if IsNameNewOutput(o) then Some(DecodeNameScript(o.script).value.args[0])
      else LastCommittedHash(vout[..|vout| - 1])
  }

  /**
    Reference definition of the scan over the previous transaction's outputs: any name
    output that is not a name_new rejects it; otherwise the last name_new's hash counts.
  */
  function ScanPrevTx(vout: seq<TxOut>): HashScan
  {
    if exists i :: 0 <= i < |vout| && IsOtherNameOutput(vout[i]) then NotNameNew
    else
      match LastCommittedHash(vout)
      case None => NoNameOutput
      case Some(h) => Committed(h)
  }

  /** The loop over `wtxIn.vout`, returning at the first name output that is not a name_new. */
  method FindCommittedHash(vout: seq<TxOut>) returns (r: HashScan)
    ensures r == ScanPrevTx(vout)
  {
    var vchHash: Bytes := [];
    var found := false;
    var i := 0;
    while i < |vout|
      invariant 0 <= i <= |vout|
      invariant forall k :: 0 <= k < i ==> !IsOtherNameOutput(vout[k])
      invariant found <==> LastCommittedHash(vout[..i]).Some?
      invariant found ==> vchHash == LastCommittedHash(vout[..i]).value
    {
      var d := DecodeNameScript(vout[i].script);
      if d.Some? {
        if d.value.kind != OpNew {
          assert IsOtherNameOutput(vout[i]);
          return NotNameNew;
        }
        vchHash := d.value.args[0];
        found := true;
      }
      assert vout[..i + 1][..i] == vout[..i];
      i := i + 1;
    }
    assert vout[..i] == vout;
    if !found {
      return NoNameOutput;
    }
    return Committed(vchHash);
  }

  /** A transaction whose only name output is one name_new commits to that output's hash. */
  lemma {:induction false} LastCommittedHashSingle(vout: seq<TxOut>, j: nat, hash: Hash160, payment: Script)
    requires j < |vout| && vout[j].script == NewScript(hash, payment)
    requires forall k :: 0 <= k < |vout| && k != j ==> DecodeNameScript(vout[k].script) == None
    ensures LastCommittedHash(vout) == Some(hash)
    ensures ScanPrevTx(vout) == Committed(hash)
    decreases |vout|
  {
    DecodeNewScript(hash, payment);
    var last := |vout| - 1;
    if j < last {
      var init := vout[..last];
      forall k | 0 <= k < |init| && k != j
        ensures DecodeNameScript(init[k].script) == None
      {
        assert init[k] == vout[k];
      }
      LastCommittedHashSingle(init, j, hash, payment);
    }
    forall i | 0 <= i < |vout|
      ensures !IsOtherNameOutput(vout[i])
    {
    }
  }

  datatype FirstUpdateError =
    | PendingOperations
    | AlreadyActive
    | PrevTxNotInWallet
    | PrevTxNotNameNew
    | PrevTxNotNameTx
    | DifferentRandom
    | FeeRequired(fee: int)
    | CreationFailed
    | CheckTransactionFailed

  /** No pending operation on the name and no live registration of it. */
  predicate NameIsFree(chain: ChainState, name: Name)
  {
    !HasPendingOps(chain, name) && name !in chain.activeNames
  }

  /**
    The outputs requested for the reveal: the name_firstupdate output with MIN_AMOUNT,
    then, only when the rounded network fee is not zero, an OP_RETURN output carrying it.
  */
  function FirstUpdateSends(env: Env, name: Name, rand: uint64, value: Bytes, key: Bytes): (sends: seq<Send>)
    ensures 1 <= |sends| <= 2
    ensures DecodeNameScript(sends[0].script)
         == Some(NameOp(OpFirstUpdate, [name, env.crypto.bigNumBytes(rand), value]))
    ensures sends[0].value == MIN_AMOUNT
    ensures |sends| == 2 <==> RoundUpToCent(env.chain.networkFee(env.chain.bestHeight)) != 0
    ensures |sends| == 2 ==> sends[1] == Send(FeeScript, RoundUpToCent(env.chain.networkFee(env.chain.bestHeight)))
  {
    var payment := PayToKeyHash(env.crypto.hash160(key));
    var script := FirstUpdateScript(name, env.crypto.bigNumBytes(rand), value, payment);
    DecodeFirstUpdateScript(name, env.crypto.bigNumBytes(rand), value, payment);
    var netFee := RoundUpToCent(env.chain.networkFee(env.chain.bestHeight));
    [Send(script, MIN_AMOUNT)] + (if netFee != 0 then [Send(FeeScript, netFee)] else [])
  }

  /** A zero network fee adds no fee output; a positive one adds a whole number of CENTs, never less than it. */
  lemma FirstUpdateFeeOutput(env: Env, name: Name, rand: uint64, value: Bytes, key: Bytes)
    requires env.chain.networkFee(env.chain.bestHeight) >= 0
    ensures var sends := FirstUpdateSends(env, name, rand, value, key);
            var fee := env.chain.networkFee(env.chain.bestHeight);
            && (fee == 0 <==> |sends| == 1)
            && (fee > 0 ==> sends[1].value % CENT == 0 && fee <= sends[1].value < fee + CENT)
  {
    RoundUpToCentBounds(env.chain.networkFee(env.chain.bestHeight));
  }

  /** The six checks before the build all pass: the name is free and the previous transaction commits to `rand` and `name`. */
  predicate ChecksPass(env: Env, txs: map<TxId, WalletTx>, name: Name, prevTx: TxId, rand: uint64)
  {
    && NameIsFree(env.chain, name) && prevTx in txs && ScanPrevTx(txs[prevTx].vout).Committed?
    && Uint160(ScanPrevTx(txs[prevTx].vout).hash) == CommitmentHash(env.crypto, rand, name)
  }

  /** What `CreateTransactionWithInputTx` answers for the reveal spending the name output of `prevTx`. */
  function BuildReveal(env: Env, txs: map<TxId, WalletTx>, name: Name, prevTx: TxId, rand: uint64, value: Bytes, key: Bytes)
    : BuildOutcome
    requires prevTx in txs
  {
    env.createWithInputTx(FirstUpdateSends(env, name, rand, value, key), txs[prevTx], env.indexOfNameOutput(txs[prevTx]))
  }

  /**
    `nameFirstUpdateCreateTx`, as a reference definition: the six checks in order, each
    with its own error, and only then the transaction build and its final check.
  */
  function FirstUpdateTx(env: Env, txs: map<TxId, WalletTx>, balance: int, name: Name, prevTx: TxId,
                         rand: uint64, value: Bytes, key: Bytes): (r: Result<WalletTx, FirstUpdateError>)
    ensures r == Err(PendingOperations) <==> HasPendingOps(env.chain, name)
    ensures r == Err(AlreadyActive) <==> !HasPendingOps(env.chain, name) && name in env.chain.activeNames
    ensures r == Err(PrevTxNotInWallet) <==> NameIsFree(env.chain, name) && prevTx !in txs
    ensures r == Err(PrevTxNotNameNew)
        <==> NameIsFree(env.chain, name) && prevTx in txs && ScanPrevTx(txs[prevTx].vout) == NotNameNew
    ensures r == Err(PrevTxNotNameTx)
        <==> NameIsFree(env.chain, name) && prevTx in txs && ScanPrevTx(txs[prevTx].vout) == NoNameOutput
    ensures r == Err(DifferentRandom)
        <==> && NameIsFree(env.chain, name) && prevTx in txs && ScanPrevTx(txs[prevTx].vout).Committed?
             && Uint160(ScanPrevTx(txs[prevTx].vout).hash) != CommitmentHash(env.crypto, rand, name)
    ensures !ChecksPass(env, txs, name, prevTx, rand) ==>
        && r.Err? && !r.error.FeeRequired? && r.error != CreationFailed && r.error != CheckTransactionFailed
    ensures ChecksPass(env, txs, name, prevTx, rand) ==>
        var built := BuildReveal(env, txs, name, prevTx, rand, value, key);
        && (r.Ok? <==> built.Built? && env.checkTransaction(built.tx))
        && (r.Ok? ==> r.value == built.tx)
        && (r.Err? && r.error.FeeRequired? <==> built.BuildFailed? && MIN_AMOUNT + built.feeRequired > balance)
        && (r.Err? && r.error.FeeRequired? ==> r.error.fee == built.feeRequired)
        && (r == Err(CreationFailed) <==> built.BuildFailed? && MIN_AMOUNT + built.feeRequired <= balance)
        && (r == Err(CheckTransactionFailed) <==> built.Built? && !env.checkTransaction(built.tx))
  {
    if HasPendingOps(env.chain, name) then Err(PendingOperations)
    else if name in env.chain.activeNames then Err(AlreadyActive)
    else if prevTx !in txs then Err(PrevTxNotInWallet)
    else
      var wtxIn := txs[prevTx];
      match ScanPrevTx(wtxIn.vout)
      case NotNameNew => Err(PrevTxNotNameNew)
      case NoNameOutput => Err(PrevTxNotNameTx)
      case Committed(vchHash) =>
        if Uint160(vchHash) != CommitmentHash(env.crypto, rand, name) then Err(DifferentRandom)
        else
          match env.createWithInputTx(FirstUpdateSends(env, name, rand, value, key), wtxIn,
                                      env.indexOfNameOutput(wtxIn))
          case BuildFailed(feeRequired) =>
            if MIN_AMOUNT + feeRequired > balance then Err(FeeRequired(feeRequired)) else Err(CreationFailed)
          case Built(wtx) =>
            if env.checkTransaction(wtx) then Ok(wtx) else Err(CheckTransactionFailed)
  }

  /** `nameFirstUpdateCreateTx`: builds, but does not send, the reveal for `name`. */
  method NameFirstUpdateCreateTx(env: Env, txs: map<TxId, WalletTx>, balance: int, name: Name, prevTx: TxId,
                                 rand: uint64, value: Bytes, key: Bytes)
    returns (r: Result<WalletTx, FirstUpdateError>)
    ensures r == FirstUpdateTx(env, txs, balance, name, prevTx, rand, value, key)
  {
    if HasPendingOps(env.chain, name) {
      return Err(PendingOperations);
    }
    if name in env.chain.activeNames {
      return Err(AlreadyActive);
    }
    if prevTx !in txs {
      return Err(PrevTxNotInWallet);
    }
    var wtxIn := txs[prevTx];
    var scan := FindCommittedHash(wtxIn.vout);
    if scan.NotNameNew? {
      return Err(PrevTxNotNameNew);
    }
    if scan.NoNameOutput? {
      return Err(PrevTxNotNameTx);
    }
    if Uint160(scan.hash) != CommitmentHash(env.crypto, rand, name) {
      return Err(DifferentRandom);
    }
    var sends := FirstUpdateSends(env, name, rand, value, key);
    var nTxOut := env.indexOfNameOutput(wtxIn);
    var built := env.createWithInputTx(sends, wtxIn, nTxOut);
    if built.BuildFailed? {
      if MIN_AMOUNT + built.feeRequired > balance {
        return Err(FeeRequired(built.feeRequired));
      }
      return Err(CreationFailed);
    }
    if !env.checkTransaction(built.tx) {
      return Err(CheckTransactionFailed);
    }
    return Ok(built.tx);
  }

  /**
    Commitment consistency: when the previous transaction's only name output is the
    name_new for `rand` and `name`, revealing the same `rand` and `name` passes every
    check that looks at the commitment.
  */
  lemma SameCommitmentIsAccepted(env: Env, txs: map<TxId, WalletTx>, balance: int, name: Name, prevTx: TxId,
                                 rand: uint64, value: Bytes, key: Bytes, j: nat, payment: Script)
    requires NameIsFree(env.chain, name) && prevTx in txs
    requires j < |txs[prevTx].vout| && txs[prevTx].vout[j].script == NewScript(CommitmentHash(env.crypto, rand, name), payment)
    requires forall k :: 0 <= k < |txs[prevTx].vout| && k != j ==> DecodeNameScript(txs[prevTx].vout[k].script) == None
    ensures var r := FirstUpdateTx(env, txs, balance, name, prevTx, rand, value, key);
            r.Ok? || r.error.FeeRequired? || r.error == CreationFailed || r.error == CheckTransactionFailed
  {
    LastCommittedHashSingle(txs[prevTx].vout, j, CommitmentHash(env.crypto, rand, name), payment);
  }

  /** "Different random value" is answered only when the random value or the name differs from the committed ones. */
  lemma DifferentRandomMeansOtherPreimage(env: Env, txs: map<TxId, WalletTx>, balance: int, name: Name, prevTx: TxId,
                                          rand: uint64, value: Bytes, key: Bytes,
                                          committedRand: uint64, committedName: Name, j: nat, payment: Script)
    requires prevTx in txs && j < |txs[prevTx].vout|
    requires txs[prevTx].vout[j].script == NewScript(CommitmentHash(env.crypto, committedRand, committedName), payment)
    requires forall k :: 0 <= k < |txs[prevTx].vout| && k != j ==> DecodeNameScript(txs[prevTx].vout[k].script) == None
    requires FirstUpdateTx(env, txs, balance, name, prevTx, rand, value, key) == Err(DifferentRandom)
    ensures rand != committedRand || name != committedName
  {
    LastCommittedHashSingle(txs[prevTx].vout, j, CommitmentHash(env.crypto, committedRand, committedName), payment);
  }

  datatype NameUpdateError =
    | InvalidAddress
    | UpdatePendingOperations
    | NoCoinWithName
    | CoinNotInWallet
    | SendFailed(message: string)

  /** What `SendMoneyWithInputTx` was asked to send: the name_update script and the transaction it spends. */
  datatype UpdateRequest = UpdateRequest(script: Script, prevTx: WalletTx)

  /** The payment part of the name_update output: the transfer address when one is given, else a fresh key. */
  function UpdatePayment(env: Env, transferTo: string, key: Bytes): Option<Script>
  {
    if transferTo != "" then
      match env.addressToHash160(transferTo)
      case None => None
      case Some(h) => Some(PayToKeyHash(h))
    else Some(PayToKeyHash(env.crypto.hash160(key)))
  }

  /**
    `nameUpdate`: the address check, then, in order, pending operations, a live coin for
    the name, and that coin's transaction in the wallet; then the send itself.
  */
  function NameUpdate(env: Env, txs: map<TxId, WalletTx>, name: Name, value: Bytes, transferTo: string, key: Bytes)
    : (r: Result<UpdateRequest, NameUpdateError>)
    ensures r == Err(InvalidAddress) <==> transferTo != "" && env.addressToHash160(transferTo).None?
    ensures r == Err(UpdatePendingOperations)
        <==> UpdatePayment(env, transferTo, key).Some? && HasPendingOps(env.chain, name)
    ensures r == Err(NoCoinWithName)
        <==> UpdatePayment(env, transferTo, key).Some? && !HasPendingOps(env.chain, name)
             && name !in env.chain.activeNames
    ensures r == Err(CoinNotInWallet)
        <==> UpdatePayment(env, transferTo, key).Some? && !HasPendingOps(env.chain, name)
             && name in env.chain.activeNames && env.chain.activeNames[name] !in txs
    ensures r.Ok? ==>
        && name in env.chain.activeNames && env.chain.activeNames[name] in txs
        && r.value.prevTx == txs[env.chain.activeNames[name]]
        && DecodeNameScript(r.value.script) == Some(NameOp(OpUpdate, [name, value]))
        && UpdatePayment(env, transferTo, key).Some?
        && r.value.script == UpdateScript(name, value, UpdatePayment(env, transferTo, key).value)
        && env.sendWithInputTx(r.value.script, MIN_AMOUNT, 0, r.value.prevTx) == ""
    ensures UpdatePayment(env, transferTo, key).Some? && !HasPendingOps(env.chain, name)
            && name in env.chain.activeNames && env.chain.activeNames[name] in txs ==>
        var prev := txs[env.chain.activeNames[name]];
        var script := UpdateScript(name, value, UpdatePayment(env, transferTo, key).value);
        var message := env.sendWithInputTx(script, MIN_AMOUNT, 0, prev);
        && (message == "" ==> r == Ok(UpdateRequest(script, prev)))
        && (message != "" ==> r == Err(SendFailed(message)))
  {
    match UpdatePayment(env, transferTo, key)
    case None => Err(InvalidAddress)
    case Some(payment) =>
      var script := UpdateScript(name, value, payment);
      DecodeUpdateScript(name, value, payment);
      if HasPendingOps(env.chain, name) then Err(UpdatePendingOperations)
      else if name !in env.chain.activeNames then Err(NoCoinWithName)
      else
        var prev := env.chain.activeNames[name];
        if prev !in txs then Err(CoinNotInWallet)
        else
          var message := env.sendWithInputTx(script, MIN_AMOUNT, 0, txs[prev]);
          if message != "" then Err(SendFailed(message)) else Ok(UpdateRequest(script, txs[prev]))
  }
}
