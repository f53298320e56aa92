/** Whether a name is free to be registered, read from the name index and the expiration policy. */
module NameAvailability {
  import opened NameScript
  import opened Collaborators

  /**
    The name is taken exactly when its newest index entry can be read from disk, is not
    null, carries a value at some height `h`, and the chain has not yet reached
    `h + expirationDepth(h)`. Every read failure counts as "available".
  */
  ghost predicate LiveRegistration(chain: ChainState, name: Name)
  {
    && name in chain.nameIndex
    && |chain.nameIndex[name]| > 0
    && var pos := chain.nameIndex[name][|chain.nameIndex[name]| - 1];
       && pos in chain.readableTxs
       && pos != NullPos
       && pos in chain.valueHeights
       && chain.bestHeight < chain.valueHeights[pos] + chain.expirationDepth(chain.valueHeights[pos])
  }

  /** `nameAvailable`: the checks in the order the source makes them. */
  function NameAvailable(chain: ChainState, name: Name): (available: bool)
    ensures available <==> !LiveRegistration(chain, name)
  {
    if name !in chain.nameIndex then true
    else
      var vtxPos := chain.nameIndex[name];
      if |vtxPos| < 1 then true
      else
        var txPos := vtxPos[|vtxPos| - 1];
        if txPos !in chain.readableTxs then true
        else if txPos.NullPos? || txPos !in chain.valueHeights then true
        else
          var nHeight := chain.valueHeights[txPos];
          nHeight + chain.expirationDepth(nHeight) - chain.bestHeight <= 0
  }

  /** A registration whose expiration height has been reached frees the name, one that has not keeps it taken. */
  lemma ExpirationBoundary(chain: ChainState, name: Name, pos: TxPos, h: int)
    requires name in chain.nameIndex && |chain.nameIndex[name]| > 0
    requires chain.nameIndex[name][|chain.nameIndex[name]| - 1] == pos
    requires pos in chain.readableTxs && pos != NullPos
    requires pos in chain.valueHeights && chain.valueHeights[pos] == h
    ensures NameAvailable(chain, name) <==> chain.bestHeight - h >= chain.expirationDepth(h)
  {
  }
}
