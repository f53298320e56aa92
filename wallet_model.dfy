/**
  The wallet model: the process-wide store of pending name registrations, the
  commit-reveal operations that fill and drain it, the cached balance and encryption
  state with their change events, `sendCoins`, and the unlock context.
*/
module WalletModel {
  import opened Common
  import opened NameScript
  import opened Collaborators
  import opened NameTx
  import opened SendCoins

  /** Confirmations a name_new needs before its name_firstupdate may be broadcast. */
  const MIN_FIRSTUPDATE_DEPTH: int := 12

  /** A registration waiting for its reveal: the random value, the value to publish and the prepared reveal. */
  datatype PreparedNameFirstUpdate = PreparedNameFirstUpdate(rand: uint64, data: Bytes, wtx: WalletTx)

  /**
    The three process-wide maps: `mapMyNames` (name to its name_new transaction),
    `mapMyNameHashes` (commitment to name) and `mapMyNameFirstUpdate` (name to its
    pending reveal). A map holds at most one entry per key, so there is at most one
    pending registration per name.
  */
  class NameStore {
    var myNames: map<Name, TxId>
    var myNameHashes: map<Hash160, Name>
    var firstUpdates: map<Name, PreparedNameFirstUpdate>

    constructor ()
      ensures myNames == map[] && myNameHashes == map[] && firstUpdates == map[]
    {
      myNames := map[];
      myNameHashes := map[];
      firstUpdates := map[];
    }
  }

  /** What `sendPendingNameFirstUpdates` does with one pending entry. */
  datatype PendingFate = DropNoTxId | DropNoWalletTx | Retain | SendReveal

  /**
    The fate of the entry for `name`: dropped when its name_new id is unknown or that
    transaction is not in the wallet, kept while the name_new is too shallow, and sent
    otherwise.
  */
  function PendingFateOf(myNames: map<Name, TxId>, txs: map<TxId, WalletTx>, name: Name): (f: PendingFate)
    ensures f == DropNoTxId <==> name !in myNames
    ensures f == DropNoWalletTx <==> name in myNames && myNames[name] !in txs
    ensures f == Retain <==> name in myNames && myNames[name] in txs && txs[myNames[name]].depth < MIN_FIRSTUPDATE_DEPTH
    ensures f == SendReveal ==> txs[myNames[name]].depth >= MIN_FIRSTUPDATE_DEPTH
  {
    if name !in myNames then DropNoTxId
    else if myNames[name] !in txs then DropNoWalletTx
    else if txs[myNames[name]].depth < MIN_FIRSTUPDATE_DEPTH then Retain
    else SendReveal
  }

  /** The effect of one pass of the loop body on the iteration. */
  datatype IteratorStep = IteratorStep(erases: bool, commits: bool, readsEnd: bool, advances: nat)

  /**
    One pass of the loop body as written. When the name_new transaction is missing, the
    entry is erased and the iterator advanced, and then the depth is read through the
    wallet's end iterator; `endDepth` stands for whatever that read yields, and when it
    is below the threshold the iterator is advanced a second time.
  */
  function PendingStepAsWritten(hasTxId: bool, walletTx: Option<WalletTx>, endDepth: int): (step: IteratorStep)
    ensures 1 <= step.advances <= 2
  {
    if !hasTxId then IteratorStep(true, false, false, 1)
    else
      match walletTx
      case None => IteratorStep(true, false, true, if endDepth < MIN_FIRSTUPDATE_DEPTH then 2 else 1)
      case Some(tx) =>
        if tx.depth < MIN_FIRSTUPDATE_DEPTH then IteratorStep(false, false, false, 1)
        else IteratorStep(true, true, false, 1)
  }

  /** One pass of the loop body as intended: erase and move on when the name_new transaction is missing. */
  function PendingStep(f: PendingFate): IteratorStep
  {
    match f
    case DropNoTxId => IteratorStep(true, false, false, 1)
    case DropNoWalletTx => IteratorStep(true, false, false, 1)
    case Retain => IteratorStep(false, false, false, 1)
    case SendReveal => IteratorStep(true, true, false, 1)
  }

  /** As written, a missing name_new transaction leads to a read through the end iterator, and may skip the next entry. */
  lemma MissingWalletTxReadsEnd(endDepth: int)
    ensures PendingStepAsWritten(true, None, endDepth).readsEnd
    ensures endDepth < MIN_FIRSTUPDATE_DEPTH ==> PendingStepAsWritten(true, None, endDepth).advances == 2
  {
  }

  /**
    The intended step never reads the end iterator and visits each entry once, and it
    agrees with the code as written whenever the name_new transaction is in the wallet.
  */
  lemma PendingStepAgreesWithAsWritten(myNames: map<Name, TxId>, txs: map<TxId, WalletTx>, name: Name, endDepth: int)
    ensures !PendingStep(PendingFateOf(myNames, txs, name)).readsEnd
    ensures PendingStep(PendingFateOf(myNames, txs, name)).advances == 1
    ensures PendingStep(PendingFateOf(myNames, txs, name)).erases
        <==> PendingFateOf(myNames, txs, name) != Retain
    ensures (name in myNames ==> myNames[name] in txs) ==>
      PendingStep(PendingFateOf(myNames, txs, name))
        == PendingStepAsWritten(name in myNames,
                                if name in myNames then Some(txs[myNames[name]]) else None,
                                endDepth)
  {
  }

  /** What the loop body sees of one pending entry: whether its name_new id is known, and its wallet transaction if any. */
  datatype EntryView = EntryView(hasTxId: bool, walletTx: Option<WalletTx>)

  /**
    The positions, in key order, at which the loop as written runs its body, starting at
    position `i`. Erasing with `erase(mi++)` moves to the next key just as `mi++` does, so
    each step advances by the step's `advances`; stepping past the last entry ends the loop.
  */
  function VisitedAsWritten(es: seq<EntryView>, i: nat, endDepth: int): (v: seq<nat>)
    ensures forall k :: 0 <= k < |v| ==> i <= v[k] < |es|
    decreases |es| - i
  {
    if i >= |es| then []
    else [i] + VisitedAsWritten(es, i + PendingStepAsWritten(es[i].hasTxId, es[i].walletTx, endDepth).advances, endDepth)
  }

  /** The positions at which the intended loop runs its body, given each entry's fate. */
  function VisitedIntended(fates: seq<PendingFate>, i: nat): seq<nat>
    decreases |fates| - i
  {
    if i >= |fates| then []
    else [i] + VisitedIntended(fates, i + PendingStep(fates[i]).advances)
  }

  /**
    As written, an entry whose name_new id is known but whose transaction is missing from
    the wallet makes the loop skip the entry after it whenever the read through the end
    iterator yields a depth below the threshold.
  */
  lemma MissingWalletTxSkipsNext(es: seq<EntryView>, i: nat, endDepth: int)
    requires i + 1 < |es| && es[i].hasTxId && es[i].walletTx.None?
    requires endDepth < MIN_FIRSTUPDATE_DEPTH
    ensures i + 1 !in VisitedAsWritten(es, i, endDepth)
  {
    assert VisitedAsWritten(es, i, endDepth) == [i] + VisitedAsWritten(es, i + 2, endDepth);
  }

  /** The intended loop runs its body exactly once at every position, in order. */
  lemma {:induction false} IntendedVisitsEveryEntry(fates: seq<PendingFate>, i: nat)
    requires i <= |fates|
    ensures |VisitedIntended(fates, i)| == |fates| - i
    ensures forall k :: 0 <= k < |fates| - i ==> VisitedIntended(fates, i)[k] == i + k
    decreases |fates| - i
  {
    if i < |fates| {
      IntendedVisitsEveryEntry(fates, i + 1);
      assert VisitedIntended(fates, i) == [i] + VisitedIntended(fates, i + 1);
    }
  }

  /** Without a known id whose transaction is missing, the loop as written also runs its body once at every position. */
  lemma {:induction false} AsWrittenVisitsEveryEntryOtherwise(es: seq<EntryView>, i: nat, endDepth: int)
    requires i <= |es|
    requires forall k :: 0 <= k < |es| && es[k].hasTxId ==> es[k].walletTx.Some?
    ensures |VisitedAsWritten(es, i, endDepth)| == |es| - i
    ensures forall k :: 0 <= k < |es| - i ==> VisitedAsWritten(es, i, endDepth)[k] == i + k
    decreases |es| - i
  {
    if i < |es| {
      AsWrittenVisitsEveryEntryOtherwise(es, i + 1, endDepth);
      assert VisitedAsWritten(es, i, endDepth) == [i] + VisitedAsWritten(es, i + 1, endDepth);
    }
  }

  /**
    The name_new transaction `nameNew` sends, together with any further outputs that are
    not name scripts (such as change), commits to exactly the random value and the name.
  */
  lemma NameNewTxCommits(c: Crypto, rand: uint64, name: Name, newKey: Bytes, others: seq<TxOut>)
    requires forall k :: 0 <= k < |others| ==> DecodeNameScript(others[k].script) == None
    ensures var hash := CommitmentHash(c, rand, name);
            var vout := [TxOut(NewScript(hash, PayToKeyHash(c.hash160(newKey))), MIN_AMOUNT)] + others;
            ScanPrevTx(vout) == Committed(hash) && Uint160(hash) == hash
  {
    var hash := CommitmentHash(c, rand, name);
    var payment := PayToKeyHash(c.hash160(newKey));
    var vout := [TxOut(NewScript(hash, payment), MIN_AMOUNT)] + others;
    forall k | 0 <= k < |vout| && k != 0
      ensures DecodeNameScript(vout[k].script) == None
    {
      assert vout[k] == others[k - 1];
    }
    LastCommittedHashSingle(vout, 0, hash, payment);
  }

  datatype EncryptionStatus = Unencrypted | Locked | Unlocked

  /** `getEncryptionStatus`: unencrypted, else locked or unlocked. */
  function EncryptionStatusOf(crypted: bool, locked: bool): (s: EncryptionStatus)
    ensures s == Unencrypted <==> !crypted
    ensures s == Locked <==> crypted && locked
    ensures s == Unlocked <==> crypted && !locked
  {
    if !crypted then Unencrypted
    else if locked then Locked
    else Unlocked
  }

  /** The signals the model emits towards the user interface. */
  datatype Event =
    | BalanceChanged(balance: int, unconfirmed: int, immature: int)
    | NumTransactionsChanged(count: int)
    | EncryptionStatusChanged(status: EncryptionStatus)
    | RequireUnlock

  datatype PrepareError = NoStoredTxHash | NoStoredRand | CreateTxFailed(reason: FirstUpdateError)

  /** The answer of `nameNew`; the fields after `ok` carry meaning only when `ok` holds, `errMsg` only when not. */
  datatype NameNewReturn = NameNewReturn(ok: bool, vchName: Name, hex: TxId, rand: uint64, hash: Hash160, errMsg: string)

  /** What `CreateTransaction` answers in `sendCoins`: the new transaction's id, or failure; with the fee it requires. */
  datatype CreateOutcome = Created(hex: string, feeRequired: int) | NotCreated(feeRequired: int)

  /** The entries of `m` not yet visited, and the visited ones whose fate is to stay. */
  ghost function KeptEntries<V>(m: map<Name, V>, todo: set<Name>, names: map<Name, TxId>, txs: map<TxId, WalletTx>): map<Name, V>
  {
    map n | n in m && (n in todo || PendingFateOf(names, txs, n) == Retain) :: m[n]
  }

  /** The reveals of the visited entries whose fate is to be sent. */
  ghost function SentReveals(m: map<Name, PreparedNameFirstUpdate>, todo: set<Name>, names: map<Name, TxId>,
                             txs: map<TxId, WalletTx>): map<Name, WalletTx>
  {
    map n | n in m && n !in todo && PendingFateOf(names, txs, n) == SendReveal :: m[n].wtx
  }

  /** Visiting `name` keeps its entry when its fate is to stay and removes it otherwise. */
  lemma KeptEntriesStep<V>(m: map<Name, V>, todo: set<Name>, name: Name, names: map<Name, TxId>, txs: map<TxId, WalletTx>)
    requires name in todo
    ensures PendingFateOf(names, txs, name) == Retain ==>
      KeptEntries(m, todo - {name}, names, txs) == KeptEntries(m, todo, names, txs)
    ensures PendingFateOf(names, txs, name) != Retain ==>
      KeptEntries(m, todo - {name}, names, txs) == KeptEntries(m, todo, names, txs) - {name}
  {
  }

  /** Visiting `name` adds its reveal exactly when its fate is to be sent. */
  lemma SentRevealsStep(m: map<Name, PreparedNameFirstUpdate>, todo: set<Name>, name: Name, names: map<Name, TxId>,
                        txs: map<TxId, WalletTx>)
    requires name in todo && name in m
    ensures PendingFateOf(names, txs, name) == SendReveal ==>
      SentReveals(m, todo - {name}, names, txs) == SentReveals(m, todo, names, txs)[name := m[name].wtx]
    ensures PendingFateOf(names, txs, name) != SendReveal ==>
      SentReveals(m, todo - {name}, names, txs) == SentReveals(m, todo, names, txs)
  {
  }

  class WalletModel {
    const wallet: Wallet
    const store: NameStore
    var cachedBalance: int
    var cachedUnconfirmedBalance: int
    var cachedImmatureBalance: int
    var cachedNumTransactions: int
    var cachedEncryptionStatus: EncryptionStatus
    var cachedNumBlocks: int
    /** Signals emitted so far, oldest first. */
    var events: seq<Event>

    /** Every name_firstupdate record in the wallet database belongs to a pending entry. */
    ghost predicate PersistedCovered()
      reads wallet, store
    {
      wallet.nameFirstUpdateDb.Keys <= store.firstUpdates.Keys
    }

    constructor (wallet: Wallet, store: NameStore)
      requires wallet.nameFirstUpdateDb.Keys <= store.firstUpdates.Keys
      ensures this.wallet == wallet && this.store == store && PersistedCovered()
      ensures cachedBalance == 0 && cachedUnconfirmedBalance == 0 && cachedImmatureBalance == 0
      ensures cachedNumTransactions == 0 && cachedNumBlocks == 0
      ensures cachedEncryptionStatus == Unencrypted && events == []
    {
      this.wallet := wallet;
      this.store := store;
      cachedBalance := 0;
      cachedUnconfirmedBalance := 0;
      cachedImmatureBalance := 0;
      cachedNumTransactions := 0;
      cachedEncryptionStatus := Unencrypted;
      cachedNumBlocks := 0;
      events := [];
    }

    /** `checkBalanceChanged`: refresh the three cached balances, with one event only when one of them changed. */
    method CheckBalanceChanged()
      modifies this`cachedBalance, this`cachedUnconfirmedBalance, this`cachedImmatureBalance, this`events
      ensures cachedBalance == wallet.balance
      ensures cachedUnconfirmedBalance == wallet.unconfirmedBalance
      ensures cachedImmatureBalance == wallet.immatureBalance
      ensures events == old(events) +
        (if old(cachedBalance) != wallet.balance || old(cachedUnconfirmedBalance) != wallet.unconfirmedBalance
            || old(cachedImmatureBalance) != wallet.immatureBalance
         then [BalanceChanged(wallet.balance, wallet.unconfirmedBalance, wallet.immatureBalance)]
         else [])
    {
      var newBalance := wallet.balance;
      var newUnconfirmedBalance := wallet.unconfirmedBalance;
      var newImmatureBalance := wallet.immatureBalance;
      if cachedBalance != newBalance || cachedUnconfirmedBalance != newUnconfirmedBalance
         || cachedImmatureBalance != newImmatureBalance
      {
        cachedBalance := newBalance;
        cachedUnconfirmedBalance := newUnconfirmedBalance;
        cachedImmatureBalance := newImmatureBalance;
        events := events + [BalanceChanged(newBalance, newUnconfirmedBalance, newImmatureBalance)];
      }
    }

    /** `updateTransaction`: balances as above, then the transaction count, with an event only when it changed. */
    method UpdateTransaction()
      modifies this`cachedBalance, this`cachedUnconfirmedBalance, this`cachedImmatureBalance,
               this`cachedNumTransactions, this`events
      ensures cachedBalance == wallet.balance
      ensures cachedUnconfirmedBalance == wallet.unconfirmedBalance
      ensures cachedImmatureBalance == wallet.immatureBalance
      ensures cachedNumTransactions == |wallet.txs|
      ensures events == old(events)
        + (if old(cachedBalance) != wallet.balance || old(cachedUnconfirmedBalance) != wallet.unconfirmedBalance
              || old(cachedImmatureBalance) != wallet.immatureBalance
           then [BalanceChanged(wallet.balance, wallet.unconfirmedBalance, wallet.immatureBalance)]
           else [])
        + (if old(cachedNumTransactions) != |wallet.txs| then [NumTransactionsChanged(|wallet.txs|)] else [])
    {
      CheckBalanceChanged();
      var newNumTransactions := |wallet.txs|;
      if cachedNumTransactions != newNumTransactions {
        cachedNumTransactions := newNumTransactions;
        events := events + [NumTransactionsChanged(newNumTransactions)];
      }
    }

    /**
      `updateStatus`: emits the current encryption status when it differs from the cached
      one. The cache itself is never updated, as in the source.
    */
    method UpdateStatus()
      modifies this`events
      ensures cachedEncryptionStatus == old(cachedEncryptionStatus)
      ensures events == old(events)
        + (if cachedEncryptionStatus != EncryptionStatusOf(wallet.crypted, wallet.locked)
           then [EncryptionStatusChanged(EncryptionStatusOf(wallet.crypted, wallet.locked))] else [])
    {
      var newEncryptionStatus := EncryptionStatusOf(wallet.crypted, wallet.locked);
      if cachedEncryptionStatus != newEncryptionStatus {
        events := events + [EncryptionStatusChanged(newEncryptionStatus)];
      }
    }

    /**
      `sendPendingNameFirstUpdates`: every pending entry is visited once. Entries whose
      name_new id is unknown or whose name_new transaction is missing are erased from the
      store and from the wallet database; entries whose name_new is too shallow stay as
      they are; every other entry's reveal is handed to `CommitTransaction` and the entry
      is erased whatever the commit answers. Returns the reveals handed over, by name.
    */
    method SendPendingNameFirstUpdates() returns (sent: map<Name, WalletTx>)
      requires PersistedCovered()
      modifies store`firstUpdates, wallet`nameFirstUpdateDb
      ensures PersistedCovered()
      ensures store.firstUpdates == map n | n in old(store.firstUpdates)
                                            && PendingFateOf(store.myNames, wallet.txs, n) == Retain
                                          :: old(store.firstUpdates)[n]
      ensures wallet.nameFirstUpdateDb == map n | n in old(wallet.nameFirstUpdateDb)
                                                  && PendingFateOf(store.myNames, wallet.txs, n) == Retain
                                                :: old(wallet.nameFirstUpdateDb)[n]
      ensures sent == map n | n in old(store.firstUpdates) && PendingFateOf(store.myNames, wallet.txs, n) == SendReveal
                            :: old(store.firstUpdates)[n].wtx
      ensures forall n :: n in sent ==> wallet.txs[store.myNames[n]].depth >= MIN_FIRSTUPDATE_DEPTH
    {
      ghost var pending0 := store.firstUpdates;
      ghost var db0 := wallet.nameFirstUpdateDb;
      ghost var names := store.myNames;
      ghost var txs := wallet.txs;
      var todo := store.firstUpdates.Keys;
      sent := map[];
      while todo != {}
        invariant todo <= pending0.Keys
        invariant store.firstUpdates == KeptEntries(pending0, todo, names, txs)
        invariant wallet.nameFirstUpdateDb == KeptEntries(db0, todo, names, txs)
        invariant sent == SentReveals(pending0, todo, names, txs)
        decreases todo
      {
        var name :| name in todo;
        KeptEntriesStep(pending0, todo, name, names, txs);
        KeptEntriesStep(db0, todo, name, names, txs);
        SentRevealsStep(pending0, todo, name, names, txs);
        var erase := true;
        if name in store.myNames {
          var wtxInHash := store.myNames[name];
          if wtxInHash in wallet.txs {
            if wallet.txs[wtxInHash].depth < MIN_FIRSTUPDATE_DEPTH {
              erase := false;
            } else {
              sent := sent[name := store.firstUpdates[name].wtx];
            }
          }
        }
        if erase {
          wallet.nameFirstUpdateDb := wallet.nameFirstUpdateDb - {name};
          store.firstUpdates := store.firstUpdates - {name};
        }
        todo := todo - {name};
      }
    }

    /** `pollBalanceChanged`: only when the best height moved, refresh balances and, outside the initial download, send mature reveals. */
    method PollBalanceChanged(bestHeight: int, initialBlockDownload: bool) returns (sent: map<Name, WalletTx>)
      requires PersistedCovered()
      modifies this`cachedNumBlocks, this`cachedBalance, this`cachedUnconfirmedBalance, this`cachedImmatureBalance,
               this`events, store`firstUpdates, wallet`nameFirstUpdateDb
      ensures PersistedCovered()
      ensures bestHeight == old(cachedNumBlocks) ==>
        && unchanged(this) && unchanged(store) && unchanged(wallet) && sent == map[]
      ensures bestHeight != old(cachedNumBlocks) ==>
        && cachedNumBlocks == bestHeight
        && cachedBalance == wallet.balance
        && cachedUnconfirmedBalance == wallet.unconfirmedBalance
        && cachedImmatureBalance == wallet.immatureBalance
        && events == old(events) +
             (if old(cachedBalance) != wallet.balance || old(cachedUnconfirmedBalance) != wallet.unconfirmedBalance
                 || old(cachedImmatureBalance) != wallet.immatureBalance
              then [BalanceChanged(wallet.balance, wallet.unconfirmedBalance, wallet.immatureBalance)]
              else [])
      ensures initialBlockDownload ==> unchanged(store) && unchanged(wallet) && sent == map[]
      ensures bestHeight != old(cachedNumBlocks) && !initialBlockDownload ==>
        && store.firstUpdates == (map n | n in old(store.firstUpdates)
                                          && PendingFateOf(store.myNames, wallet.txs, n) == Retain
                                        :: old(store.firstUpdates)[n])
        && wallet.nameFirstUpdateDb == (map n | n in old(wallet.nameFirstUpdateDb)
                                                && PendingFateOf(store.myNames, wallet.txs, n) == Retain
                                              :: old(wallet.nameFirstUpdateDb)[n])
        && sent == (map n | n in old(store.firstUpdates) && PendingFateOf(store.myNames, wallet.txs, n) == SendReveal
                          :: old(store.firstUpdates)[n].wtx)
    {
      sent := map[];
      if bestHeight != cachedNumBlocks {
        cachedNumBlocks := bestHeight;
        CheckBalanceChanged();
        if !initialBlockDownload {
          sent := SendPendingNameFirstUpdates();
        }
      }
    }

    /**
      `nameFirstUpdatePrepare`: needs the stored name_new id and random value; builds the
      reveal and, only on success, replaces the entry's data and reveal (keeping its random
      value) and writes one wallet record for the name.
    */
    method NameFirstUpdatePrepare(name: Name, data: Bytes, key: Bytes, env: Env) returns (r: Result<WalletTx, PrepareError>)
      requires PersistedCovered()
      modifies store`firstUpdates, wallet`nameFirstUpdateDb
      ensures PersistedCovered()
      ensures name !in store.myNames ==> r == Err(NoStoredTxHash)
      ensures name in store.myNames && name !in old(store.firstUpdates) ==> r == Err(NoStoredRand)
      ensures r.Err? ==> unchanged(store) && unchanged(wallet)
      ensures name in store.myNames && name in old(store.firstUpdates) ==>
        var built := FirstUpdateTx(env, wallet.txs, wallet.balance, name, store.myNames[name],
                                   old(store.firstUpdates)[name].rand, data, key);
        && (built.Err? ==> r == Err(CreateTxFailed(built.error)))
        && (built.Ok? ==>
              && r == Ok(built.value)
              && store.firstUpdates
                 == old(store.firstUpdates)[name := PreparedNameFirstUpdate(old(store.firstUpdates)[name].rand, data, built.value)]
              && wallet.nameFirstUpdateDb
                 == old(wallet.nameFirstUpdateDb)[name := FirstUpdateRecord(store.myNames[name],
                                                     old(store.firstUpdates)[name].rand, data, built.value)])
    {
      if name !in store.myNames {
        return Err(NoStoredTxHash);
      }
      if name !in store.firstUpdates {
        return Err(NoStoredRand);
      }
      var wtxInHash := store.myNames[name];
      var rand := store.firstUpdates[name].rand;
      var built := NameFirstUpdateCreateTx(env, wallet.txs, wallet.balance, name, wtxInHash, rand, data, key);
      if built.Err? {
        return Err(CreateTxFailed(built.error));
      }
      store.firstUpdates := store.firstUpdates[name := PreparedNameFirstUpdate(rand, data, built.value)];
      wallet.nameFirstUpdateDb := wallet.nameFirstUpdateDb[name := FirstUpdateRecord(wtxInHash, rand, data, built.value)];
      return Ok(built.value);
    }

    /**
      `nameNew`: commits to `rand` and `name` with a name_new sent through `SendMoney`
      (whose answer is `sendMoney`). On failure nothing changes. On success the three maps
      record the registration, the wallet holds the name_new, and the reveal is prepared
      at once with empty data; a failure of that step leaves `ok` set. Because the
      name_new carries exactly the commitment for `rand` and `name`, that step can only
      fail on the name's own state or when building the transaction, never on the
      commitment.
    */
    method NameNew(name: Name, rand: uint64, newKey: Bytes, revealKey: Bytes, sendMoney: Result<TxId, string>, env: Env)
      returns (ret: NameNewReturn)
      requires PersistedCovered()
      modifies store, wallet`txs, wallet`nameFirstUpdateDb
      ensures PersistedCovered()
      ensures ret.vchName == name
      ensures ret.ok <==> sendMoney.Ok?
      ensures sendMoney.Err? ==> ret.errMsg == sendMoney.error && unchanged(store) && unchanged(wallet)
      ensures sendMoney.Ok? ==>
        var hash := CommitmentHash(env.crypto, rand, name);
        var nameNewTx := WalletTx(sendMoney.value,
                                  [TxOut(NewScript(hash, PayToKeyHash(env.crypto.hash160(newKey))), MIN_AMOUNT)], 0);
        var entry := if name in old(store.firstUpdates)
                     then old(store.firstUpdates)[name].(rand := rand)
                     else PreparedNameFirstUpdate(rand, [], EmptyWalletTx);
        var built := FirstUpdateTx(env, wallet.txs, wallet.balance, name, sendMoney.value, rand, [], revealKey);
        && ret.hex == sendMoney.value && ret.rand == rand && ret.hash == hash
        && store.myNames == old(store.myNames)[name := sendMoney.value]
        && store.myNameHashes == old(store.myNameHashes)[hash := name]
        && wallet.txs == old(wallet.txs)[sendMoney.value := nameNewTx]
        && (built.Err? ==>
              && store.firstUpdates == old(store.firstUpdates)[name := entry]
              && wallet.nameFirstUpdateDb == old(wallet.nameFirstUpdateDb))
        && (built.Ok? ==>
              && store.firstUpdates == old(store.firstUpdates)[name := PreparedNameFirstUpdate(rand, [], built.value)]
              && wallet.nameFirstUpdateDb
                 == old(wallet.nameFirstUpdateDb)[name := FirstUpdateRecord(sendMoney.value, rand, [], built.value)])
        && (NameIsFree(env.chain, name) ==>
              built.Ok? || built.error.FeeRequired? || built.error == CreationFailed
              || built.error == CheckTransactionFailed)
    {
      var hash := CommitmentHash(env.crypto, rand, name);
      var scriptPubKey := NewScript(hash, PayToKeyHash(env.crypto.hash160(newKey)));
      if sendMoney.Err? {
        return NameNewReturn(false, name, [], 0, ZeroHash, sendMoney.error);
      }
      var txid := sendMoney.value;
      wallet.txs := wallet.txs[txid := WalletTx(txid, [TxOut(scriptPubKey, MIN_AMOUNT)], 0)];
      ret := NameNewReturn(true, name, txid, rand, hash, "");
      store.myNames := store.myNames[name := txid];
      store.myNameHashes := store.myNameHashes[hash := name];
      var entry := if name in store.firstUpdates
                   then store.firstUpdates[name].(rand := rand)
                   else PreparedNameFirstUpdate(rand, [], EmptyWalletTx);
      store.firstUpdates := store.firstUpdates[name := entry];
      if NameIsFree(env.chain, name) {
        SameCommitmentIsAccepted(env, wallet.txs, wallet.balance, name, txid, rand, [], revealKey,
                                 0, PayToKeyHash(env.crypto.hash160(newKey)));
      }
      var prepared := NameFirstUpdatePrepare(name, [], revealKey, env);
    }

    /**
      The part of `sendCoins` after the checks: build, ask for the fee, commit, then store
      the recipients' labels. `created`, `feeApproved` and `committed` are the answers of
      `CreateTransaction`, `ThreadSafeAskFee` and `CommitTransaction`.
    */
    method SendCoins(rs: seq<Recipient>, validAddress: string -> bool, txFee: int,
                     created: CreateOutcome, feeApproved: bool, committed: bool)
      returns (ret: SendCoinsReturn)
      modifies wallet`addressBook, wallet`labelWrites
      ensures var pre := PrecheckRecipients(rs, validAddress, wallet.balance, txFee);
        && (pre.Stop? ==> ret == pre.ret && unchanged(wallet))
        && (pre.Proceed? && created.NotCreated? ==>
              && ret == (if pre.total + created.feeRequired > wallet.balance
                         then SendCoinsReturn(AmountWithFeeExceedsBalance, created.feeRequired, "")
                         else Status(TransactionCreationFailed))
              && unchanged(wallet))
        && (pre.Proceed? && created.Created? && !feeApproved ==> ret == Status(Aborted) && unchanged(wallet))
        && (pre.Proceed? && created.Created? && feeApproved && !committed ==>
              ret == Status(TransactionCommitFailed) && unchanged(wallet))
        && (pre.Proceed? && created.Created? && feeApproved && committed ==>
              && ret == SendCoinsReturn(OK, 0, created.hex)
              && wallet.addressBook == BookAfter(old(wallet.addressBook), rs)
              && wallet.labelWrites == old(wallet.labelWrites) + LabelWrites(old(wallet.addressBook), rs)
              && (forall k :: 0 <= k < |rs| ==>
                    rs[k].address in wallet.addressBook && wallet.addressBook[rs[k].address] == rs[k].labelText)
              && (forall k :: 0 <= k < |rs| ==>
                    (LabelWrite(rs[k].address, rs[k].labelText) in LabelWrites(old(wallet.addressBook), rs)
                     <==> rs[k].address !in old(wallet.addressBook)
                          || old(wallet.addressBook)[rs[k].address] != rs[k].labelText)))
    {
      var pre := CheckRecipients(rs, validAddress, wallet.balance, txFee);
      if pre.Stop? {
        return pre.ret;
      }
      var total := pre.total;
      if created.NotCreated? {
        if total + created.feeRequired > wallet.balance {
          return SendCoinsReturn(AmountWithFeeExceedsBalance, created.feeRequired, "");
        }
        return Status(TransactionCreationFailed);
      }
      if !feeApproved {
        return Status(Aborted);
      }
      if !committed {
        return Status(TransactionCommitFailed);
      }
      PrecheckProceedIff(rs, validAddress, wallet.balance, txFee);
      StoreRecipientLabels(rs);
      BookAfterContents(old(wallet.addressBook), rs);
      LabelWritesExactlyChanged(old(wallet.addressBook), rs);
      return SendCoinsReturn(OK, 0, created.hex);
    }

    /** The address-book loop of `sendCoins`: set a label only for a new address or a changed label. */
    method StoreRecipientLabels(rs: seq<Recipient>)
      modifies wallet`addressBook, wallet`labelWrites
      ensures wallet.addressBook == BookAfter(old(wallet.addressBook), rs)
      ensures wallet.labelWrites == old(wallet.labelWrites) + LabelWrites(old(wallet.addressBook), rs)
    {
      ghost var book0 := wallet.addressBook;
      ghost var writes0 := wallet.labelWrites;
      var i := 0;
      while i < |rs|
        invariant 0 <= i <= |rs|
        invariant wallet.addressBook == BookAfter(book0, rs[..i])
        invariant wallet.labelWrites == writes0 + LabelWrites(book0, rs[..i])
      {
        var rcp := rs[i];
        assert rs[..i + 1][..i] == rs[..i];
        if rcp.address !in wallet.addressBook || wallet.addressBook[rcp.address] != rcp.labelText {
          wallet.addressBook := wallet.addressBook[rcp.address := rcp.labelText];
          wallet.labelWrites := wallet.labelWrites + [LabelWrite(rcp.address, rcp.labelText)];
        } else {
          assert wallet.addressBook[rcp.address := rcp.labelText] == wallet.addressBook;
        }
        i := i + 1;
      }
      assert rs[..i] == rs;
    }

    /**
      `requestUnlock`: a locked wallet asks the user to unlock it (`unlockGranted` is the
      user's answer). The context is valid when the wallet is no longer locked, and it
      relocks when the wallet was locked before.
    */
    method RequestUnlock(unlockGranted: bool) returns (ctx: UnlockContext)
      modifies this`events, wallet`locked
      ensures fresh(ctx) && ctx.model == this
      ensures ctx.relock == (EncryptionStatusOf(old(wallet.crypted), old(wallet.locked)) == Locked)
      ensures ctx.valid == (EncryptionStatusOf(wallet.crypted, wallet.locked) != Locked)
      ensures ctx.relock ==> events == old(events) + [RequireUnlock] && wallet.locked == !unlockGranted
      ensures !ctx.relock ==> events == old(events) && wallet.locked == old(wallet.locked) && ctx.valid
    {
      var wasLocked := EncryptionStatusOf(wallet.crypted, wallet.locked) == Locked;
      if wasLocked {
        events := events + [RequireUnlock];
        wallet.locked := !unlockGranted;
      }
      var valid := EncryptionStatusOf(wallet.crypted, wallet.locked) != Locked;
      ctx := new UnlockContext(this, valid, wasLocked);
    }
  }

  /** `WalletModel::UnlockContext`: relocks the wallet on release when it is valid and responsible for relocking. */
  class UnlockContext {
    var model: WalletModel
    var valid: bool
    var relock: bool

    constructor (model: WalletModel, valid: bool, relock: bool)
      ensures this.model == model && this.valid == valid && this.relock == relock
    {
      this.model := model;
      this.valid := valid;
      this.relock := relock;
    }

    /** The destructor: relocks exactly when `valid && relock`. */
    method Release() returns (relocked: bool)
      modifies model.wallet`locked
      ensures relocked == (valid && relock)
      ensures relocked ==> model.wallet.locked == (old(model.wallet.locked) || model.wallet.crypted)
      ensures !relocked ==> model.wallet.locked == old(model.wallet.locked)
    {
      relocked := valid && relock;
      if relocked {
        var ok := model.wallet.Lock();
      }
    }

    /**
      `CopyFrom`: take over `rhs`'s state and its duty to relock, which `rhs` gives up.
      Copying a context onto itself leaves it with no duty to relock.
    */
    method CopyFrom(rhs: UnlockContext)
      modifies this, rhs`relock
      ensures model == old(rhs.model) && valid == old(rhs.valid)
      ensures relock == (rhs != this && old(rhs.relock))
      ensures !rhs.relock
    {
      model, valid, relock := rhs.model, rhs.valid, rhs.relock;
      rhs.relock := false;
    }
  }
}
