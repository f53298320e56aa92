/**
  `sendCoins`: the checks on the recipient list made before any transaction is built,
  and the address-book rule applied to the recipients after a successful send.
*/
module SendCoins {
  import opened Common
  import opened Collaborators

  datatype Recipient = Recipient(address: string, labelText: string, amount: int)

  datatype SendCoinsStatus =
    | OK
    | InvalidAddress
    | InvalidAmount
    | DuplicateAddress
    | AmountExceedsBalance
    | AmountWithFeeExceedsBalance
    | TransactionCreationFailed
    | TransactionCommitFailed
    | Aborted

  datatype SendCoinsReturn = SendCoinsReturn(status: SendCoinsStatus, fee: int, hex: string)

  function Status(s: SendCoinsStatus): SendCoinsReturn
  {
    SendCoinsReturn(s, 0, "")
  }

  /** The outcome of the checks: an answer to return at once, or the total to send. */
  datatype CheckOutcome = Stop(ret: SendCoinsReturn) | Proceed(total: int)

  /** The first recipient with an invalid address or a non-positive amount decides; its address is looked at first. */
  function FirstInvalidRecipient(rs: seq<Recipient>, validAddress: string -> bool): Option<SendCoinsStatus>
  {
    if rs == [] then None
    else if !validAddress(rs[0].address) then Some(InvalidAddress)
    else if rs[0].amount <= 0 then Some(InvalidAmount)
    else FirstInvalidRecipient(rs[1..], validAddress)
  }

  predicate AllRecipientsWellFormed(rs: seq<Recipient>, validAddress: string -> bool)
  {
    forall k :: 0 <= k < |rs| ==> validAddress(rs[k].address) && rs[k].amount > 0
  }

  /** Recipients that all pass let the first bad one behind them decide. */
  lemma {:induction false} FirstInvalidAfterGoodPrefix(rs: seq<Recipient>, validAddress: string -> bool, i: nat)
    requires i <= |rs|
    requires forall k :: 0 <= k < i ==> validAddress(rs[k].address) && rs[k].amount > 0
    ensures FirstInvalidRecipient(rs, validAddress) == FirstInvalidRecipient(rs[i..], validAddress)
    decreases i
  {
    if i > 0 {
      FirstInvalidAfterGoodPrefix(rs[1..], validAddress, i - 1);
      assert rs[1..][i - 1..] == rs[i..];
    }
  }

  /** No bad recipient is found exactly when every recipient is well formed. */
  lemma {:induction false} FirstInvalidNoneIff(rs: seq<Recipient>, validAddress: string -> bool)
    ensures FirstInvalidRecipient(rs, validAddress).None? <==> AllRecipientsWellFormed(rs, validAddress)
    decreases |rs|
  {
    if rs != [] {
      FirstInvalidNoneIff(rs[1..], validAddress);
      if AllRecipientsWellFormed(rs[1..], validAddress) && validAddress(rs[0].address) && rs[0].amount > 0 {
        forall k | 0 <= k < |rs|
          ensures validAddress(rs[k].address) && rs[k].amount > 0
        {
          if k > 0 {
            assert rs[k] == rs[1..][k - 1];
          }
        }
      }
      if AllRecipientsWellFormed(rs, validAddress) {
        forall k | 0 <= k < |rs[1..]|
          ensures validAddress(rs[1..][k].address) && rs[1..][k].amount > 0
        {
          assert rs[1..][k] == rs[k + 1];
        }
      }
    }
  }

  predicate HasDuplicateAddress(rs: seq<Recipient>)
  {
    exists i, j :: 0 <= i < j < |rs| && rs[i].address == rs[j].address
  }

  /** `setAddress`: the distinct addresses among the recipients. */
  function AddressSet(rs: seq<Recipient>): set<string>
  {
    set k | 0 <= k < |rs| :: rs[k].address
  }

  /** Adding a recipient at the end adds its address to the set. */
  lemma AddressSetSnoc(rs: seq<Recipient>)
    requires rs != []
    ensures AddressSet(rs) == AddressSet(rs[..|rs| - 1]) + {rs[|rs| - 1].address}
  {
    var init := rs[..|rs| - 1];
    forall a | a in AddressSet(rs)
      ensures a in AddressSet(init) + {rs[|rs| - 1].address}
    {
      var k :| 0 <= k < |rs| && rs[k].address == a;
      if k < |rs| - 1 {
        assert init[k] == rs[k];
      }
    }
    forall a | a in AddressSet(init)
      ensures a in AddressSet(rs)
    {
      var k :| 0 <= k < |init| && init[k].address == a;
      assert rs[k] == init[k];
    }
  }

  /** A list has distinct addresses when its front does and its last address is not among them. */
  lemma DistinctSplit(rs: seq<Recipient>)
    requires rs != []
    ensures !HasDuplicateAddress(rs)
        <==> !HasDuplicateAddress(rs[..|rs| - 1]) && rs[|rs| - 1].address !in AddressSet(rs[..|rs| - 1])
  {
    var init := rs[..|rs| - 1];
    var last := rs[|rs| - 1];
    if HasDuplicateAddress(init) {
      var i, j :| 0 <= i < j < |init| && init[i].address == init[j].address;
      assert rs[i] == init[i] && rs[j] == init[j];
    } else if last.address in AddressSet(init) {
      var k :| 0 <= k < |init| && init[k].address == last.address;
      assert rs[k] == init[k];
    } else {
      forall i, j | 0 <= i < j < |rs|
        ensures rs[i].address != rs[j].address
      {
        assert rs[i] == init[i];
        if j < |rs| - 1 {
          assert rs[j] == init[j];
        } else {
          assert init[i].address in AddressSet(init);
        }
      }
    }
  }

  /** The address set is as large as the list exactly when no address repeats. */
  lemma {:induction false} AddressSetSize(rs: seq<Recipient>)
    ensures |AddressSet(rs)| <= |rs|
    ensures |AddressSet(rs)| == |rs| <==> !HasDuplicateAddress(rs)
    decreases |rs|
  {
    if rs != [] {
      AddressSetSize(rs[..|rs| - 1]);
      AddressSetSnoc(rs);
      DistinctSplit(rs);
    }
  }

  /** The sum of the amounts, accumulated front to back. */
  function Total(rs: seq<Recipient>): int
  {
    if rs == [] then 0 else Total(rs[..|rs| - 1]) + rs[|rs| - 1].amount
  }

  /**
    Reference definition of the checks, in the source's order: an empty list is accepted
    with nothing sent; then a bad address or amount, a repeated address, a total above
    the balance, and a total plus the fee above the balance.
  */
  function PrecheckRecipients(rs: seq<Recipient>, validAddress: string -> bool, balance: int, txFee: int): CheckOutcome
  {
    if rs == [] then Stop(Status(OK))
    else
      match FirstInvalidRecipient(rs, validAddress)
      case Some(s) => Stop(Status(s))
      case None =>
        if HasDuplicateAddress(rs) then Stop(Status(DuplicateAddress))
        else if Total(rs) > balance then Stop(Status(AmountExceedsBalance))
        else if Total(rs) + txFee > balance then Stop(SendCoinsReturn(AmountWithFeeExceedsBalance, txFee, ""))
        else Proceed(Total(rs))
  }

  /** A transaction is built only for a non-empty list of well-formed, distinct recipients the balance covers with the fee. */
  lemma PrecheckProceedIff(rs: seq<Recipient>, validAddress: string -> bool, balance: int, txFee: int)
    ensures PrecheckRecipients(rs, validAddress, balance, txFee).Proceed?
        <==> && rs != []
             && AllRecipientsWellFormed(rs, validAddress)
             && !HasDuplicateAddress(rs)
             && Total(rs) <= balance
             && Total(rs) + txFee <= balance
    ensures PrecheckRecipients(rs, validAddress, balance, txFee).Proceed? ==> PrecheckRecipients(rs, validAddress, balance, txFee).total == Total(rs)
  {
    FirstInvalidNoneIff(rs, validAddress);
  }

  /** The pre-checking loop of `sendCoins`, building `total` and `setAddress`. */
  method CheckRecipients(rs: seq<Recipient>, validAddress: string -> bool, balance: int, txFee: int)
    returns (r: CheckOutcome)
    ensures r == PrecheckRecipients(rs, validAddress, balance, txFee)
  {
    if rs == [] {
      return Stop(Status(OK));
    }
    var total := 0;
    var setAddress: set<string> := {};
    var i := 0;
    while i < |rs|
      invariant 0 <= i <= |rs|
      invariant forall k :: 0 <= k < i ==> validAddress(rs[k].address) && rs[k].amount > 0
      invariant setAddress == AddressSet(rs[..i])
      invariant total == Total(rs[..i])
    {
      if !validAddress(rs[i].address) {
        FirstInvalidAfterGoodPrefix(rs, validAddress, i);
        return Stop(Status(InvalidAddress));
      }
      setAddress := setAddress + {rs[i].address};
      if rs[i].amount <= 0 {
        FirstInvalidAfterGoodPrefix(rs, validAddress, i);
        return Stop(Status(InvalidAmount));
      }
      total := total + rs[i].amount;
      assert rs[..i + 1][..i] == rs[..i];
      AddressSetSnoc(rs[..i + 1]);
      i := i + 1;
    }
    assert rs[..i] == rs;
    FirstInvalidNoneIff(rs, validAddress);
    AddressSetSize(rs);
    if |rs| > |setAddress| {
      return Stop(Status(DuplicateAddress));
    }
    if total > balance {
      return Stop(Status(AmountExceedsBalance));
    }
    if total + txFee > balance {
      return Stop(SendCoinsReturn(AmountWithFeeExceedsBalance, txFee, ""));
    }
    return Proceed(total);
  }

  /** The address book after the recipients are stored one after the other. */
  function BookAfter(book: map<string, string>, rs: seq<Recipient>): map<string, string>
  {
    if rs == [] then book
    else
      var last := rs[|rs| - 1];
      BookAfter(book, rs[..|rs| - 1])[last.address := last.labelText]
  }

  /** The `SetAddressBookName` calls made: only for an address that is new or whose label changed. */
  function LabelWrites(book: map<string, string>, rs: seq<Recipient>): seq<LabelWrite>
  {
    if rs == [] then []
    else
      var init := rs[..|rs| - 1];
      var last := rs[|rs| - 1];
      var current := BookAfter(book, init);
      LabelWrites(book, init)
        + (if last.address !in current || current[last.address] != last.labelText
           then [LabelWrite(last.address, last.labelText)] else [])
  }

  /** With distinct addresses, each recipient's label ends up in the book and nothing else changes. */
  lemma {:induction false} BookAfterContents(book: map<string, string>, rs: seq<Recipient>)
    requires !HasDuplicateAddress(rs)
    ensures BookAfter(book, rs).Keys == book.Keys + AddressSet(rs)
    ensures forall k :: 0 <= k < |rs| ==> BookAfter(book, rs)[rs[k].address] == rs[k].labelText
    ensures forall a :: a in book && a !in AddressSet(rs) ==> BookAfter(book, rs)[a] == book[a]
    decreases |rs|
  {
    if rs != [] {
      var init := rs[..|rs| - 1];
      var last := rs[|rs| - 1];
      DistinctSplit(rs);
      BookAfterContents(book, init);
      AddressSetSnoc(rs);
      forall k | 0 <= k < |rs|
        ensures BookAfter(book, rs)[rs[k].address] == rs[k].labelText
      {
        if k < |rs| - 1 {
          assert rs[k] == init[k];
          assert rs[k].address != last.address;
        }
      }
    }
  }

  /** With distinct addresses, a recipient's label is written exactly when its address is new or its label differs. */
  lemma {:induction false} LabelWritesExactlyChanged(book: map<string, string>, rs: seq<Recipient>)
    requires !HasDuplicateAddress(rs)
    ensures forall k :: 0 <= k < |rs| ==>
      (LabelWrite(rs[k].address, rs[k].labelText) in LabelWrites(book, rs)
       <==> rs[k].address !in book || book[rs[k].address] != rs[k].labelText)
    ensures forall w :: w in LabelWrites(book, rs) ==> w.address in AddressSet(rs)
    decreases |rs|
  {
    if rs != [] {
      var init := rs[..|rs| - 1];
      var last := rs[|rs| - 1];
      DistinctSplit(rs);
      LabelWritesExactlyChanged(book, init);
      BookAfterContents(book, init);
      var current := BookAfter(book, init);
      assert last.address in current <==> last.address in book;
      assert last.address in book ==> current[last.address] == book[last.address];
      forall k | 0 <= k < |rs|
        ensures LabelWrite(rs[k].address, rs[k].labelText) in LabelWrites(book, rs)
            <==> rs[k].address !in book || book[rs[k].address] != rs[k].labelText
      {
        if k < |rs| - 1 {
          assert rs[k] == init[k];
          assert rs[k].address != last.address;
        }
      }
      forall w | w in LabelWrites(book, rs)
        ensures w.address in AddressSet(rs)
      {
        if w in LabelWrites(book, init) {
          var k :| 0 <= k < |init| && init[k].address == w.address;
          assert rs[k] == init[k];
        } else {
          assert rs[|rs| - 1].address == w.address;
        }
      }
    }
  }
}
