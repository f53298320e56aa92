/**
  The state and services walletmodel.cpp consumes but does not define: the chain and
  name index (read-only here), the wallet (CWallet), and the transaction builders.
  Services whose internals lie outside the file are function-valued fields, so the
  model holds for every behaviour they may have.
*/
module Collaborators {
  import opened Common
  import opened NameScript

  type TxId = Bytes

  datatype TxOut = TxOut(script: Script, value: int)

  /** A wallet transaction with its outputs and its depth in the main chain as seen now. */
  datatype WalletTx = WalletTx(hash: TxId, vout: seq<TxOut>, depth: int)

  /** A default-constructed `CWalletTx`. */
  const EmptyWalletTx: WalletTx := WalletTx([], [], 0)

  /** One requested output: a script and the amount it receives. */
  datatype Send = Send(script: Script, value: int)

  /** Position of a transaction on disk; `NullPos` is a null `CDiskTxPos`. */
  datatype TxPos = NullPos | DiskPos(file: nat, blockPos: nat, txPos: nat)

  /** What `CreateTransactionWithInputTx` answers: the built transaction, or failure with the fee it required. */
  datatype BuildOutcome = Built(tx: WalletTx) | BuildFailed(feeRequired: int)

  /**
    Chain-side state read under the chain lock:
    - `namePending`: `mapNamePending`, the unconfirmed name operations per name;
    - `activeNames`: the names for which `GetTxOfName` finds a live transaction;
    - `nameIndex`: what `CNameDB::ReadName` returns for each name it can read;
    - `readableTxs`: the positions `ReadFromDisk` can read;
    - `valueHeights`: the positions `GetValueOfTxPos` can read, with the height it reports;
    - `expirationDepth`: `GetDisplayExpirationDepth`; `networkFee`: `GetNetworkFee`.
  */
  datatype ChainState = ChainState(
    bestHeight: int,
    initialBlockDownload: bool,
    namePending: map<Name, seq<TxId>>,
    activeNames: map<Name, TxId>,
    nameIndex: map<Name, seq<TxPos>>,
    readableTxs: set<TxPos>,
    valueHeights: map<TxPos, int>,
    expirationDepth: int -> int,
    networkFee: int -> int)

  /** `mapNamePending.count(name) && mapNamePending[name].size()`. */
  predicate HasPendingOps(chain: ChainState, name: Name)
  {
    name in chain.namePending && |chain.namePending[name]| > 0
  }

  /**
    Services used when building name transactions: the hashing helpers,
    `IndexOfNameOutput`, `CreateTransactionWithInputTx`, `CWalletTx::CheckTransaction`,
    `SendMoneyWithInputTx` (answering an error text, empty on success) and
    `AddressToHash160` (None for an invalid address).
  */
  datatype Env = Env(
    crypto: Crypto,
    chain: ChainState,
    indexOfNameOutput: WalletTx -> int,
    createWithInputTx: (seq<Send>, WalletTx, int) -> BuildOutcome,
    checkTransaction: WalletTx -> bool,
    sendWithInputTx: (Script, int, int, WalletTx) -> string,
    addressToHash160: string -> Option<Hash160>)

  /** What the wallet persists for a prepared name_firstupdate (`WriteNameFirstUpdate`). */
  datatype FirstUpdateRecord = FirstUpdateRecord(prevTx: TxId, rand: uint64, data: Bytes, wtx: WalletTx)

  /** One `SetAddressBookName` call. */
  datatype LabelWrite = LabelWrite(address: string, text: string)

  /** The part of `CWallet` this file reads and writes. */
  class Wallet {
    var txs: map<TxId, WalletTx>
    var balance: int
    var unconfirmedBalance: int
    var immatureBalance: int
    var crypted: bool
    var locked: bool
    var addressBook: map<string, string>
    var labelWrites: seq<LabelWrite>
    /** The name_firstupdate records in the wallet database. */
    ghost var nameFirstUpdateDb: map<Name, FirstUpdateRecord>

    constructor (txs: map<TxId, WalletTx>, balance: int, crypted: bool, locked: bool)
      ensures this.txs == txs && this.balance == balance
      ensures unconfirmedBalance == 0 && immatureBalance == 0
      ensures this.crypted == crypted && this.locked == locked
      ensures addressBook == map[] && labelWrites == [] && nameFirstUpdateDb == map[]
    {
      this.txs := txs;
      this.balance := balance;
      unconfirmedBalance := 0;
      immatureBalance := 0;
      this.crypted := crypted;
      this.locked := locked;
      addressBook := map[];
      labelWrites := [];
      nameFirstUpdateDb := map[];
    }

    /** `Lock`: only an encrypted wallet can be locked. */
    method Lock() returns (ok: bool)
      modifies this`locked
      ensures ok == crypted
      ensures locked == (old(locked) || crypted)
    {
      ok := crypted;
      if crypted {
        locked := true;
      }
    }
  }
}
