/** MarkerLabelLib: hands out single-symbol marker labels, cycling through an
    alphabet, and, when recycling is on, reusing freed labels first, the most
    recently freed one first. */
module MarkerLabels {

  /** The symbol at position `index` of the endless cycle over `alphabet`.
      With an empty alphabet the source reads `alphabet[NaN]`, which is
      `undefined` and becomes the string "undefined". */
  function SymbolAt(alphabet: seq<string>, index: nat): (s: string)
    ensures |alphabet| > 0 ==> s in alphabet
  {
    if |alphabet| == 0 then "undefined" else alphabet[index % |alphabet|]
  }

  /** The cycle restarts after |alphabet| symbols, and its first round is the
      alphabet in order. */
  lemma SymbolCycle(alphabet: seq<string>, index: nat)
    requires |alphabet| > 0
    ensures SymbolAt(alphabet, index + |alphabet|) == SymbolAt(alphabet, index)
    ensures index < |alphabet| ==> SymbolAt(alphabet, index) == alphabet[index]
  {
    var n := |alphabet|;
    ModShift(index, n);
    if index < n {
      MultipleBelowIsZero(index / n, n);
    }
  }

  /** Adding the modulus does not change the remainder. */
  lemma ModShift(i: nat, n: nat)
    requires n > 0
    ensures (i + n) % n == i % n
  {
    var q, r := i / n, i % n;
    var q', r' := (i + n) / n, (i + n) % n;
    assert (q' - q - 1) * n == r - r';
    MultipleBelowIsZero(q' - q - 1, n);
  }

  /** The only multiple of n strictly between -n and n is 0. */
  lemma MultipleBelowIsZero(k: int, n: int)
    requires n > 0 && -n < k * n < n
    ensures k == 0
  {
    assert k >= 1 ==> k * n >= n;
    assert k <= -1 ==> k * n <= -n;
  }

  class MarkerLabelLib {
    const alphabet: seq<string>
    var index: nat
    var recyclingEnabled: bool
    var recycleBin: seq<string>
    /** Every symbol ever handed to RecycleSymbol. */
    ghost var recycled: set<string>

    /** Everything in the recycle bin was recycled at some point. */
    ghost predicate Valid()
      reads this
    {
      forall i :: 0 <= i < |recycleBin| ==> recycleBin[i] in recycled
    }

    constructor (alphabet: seq<string>, recycleSymbols: bool)
      ensures Valid()
      ensures this.alphabet == alphabet && index == 0 && recyclingEnabled == recycleSymbols
      ensures recycleBin == [] && recycled == {}
    {
      this.alphabet := alphabet;
      index := 0;
      recyclingEnabled := recycleSymbols;
      recycleBin := [];
      recycled := {};
    }

    /** Puts `symbol` on top of the recycle bin, whether or not recycling is on. */
    method RecycleSymbol(symbol: string)
      requires Valid()
      modifies this
      ensures Valid()
      ensures recycleBin == old(recycleBin) + [symbol]
      ensures recycled == old(recycled) + {symbol}
      ensures index == old(index) && recyclingEnabled == old(recyclingEnabled)
    {
      recycleBin := recycleBin + [symbol];
      recycled := recycled + {symbol};
    }

    /** The next label: the top of the recycle bin, popped, when recycling is
        on and the bin is not empty; otherwise the alphabet symbol at the
        current index, which then advances.  Every label is an alphabet symbol
        or a recycled one. */
    method NextSymbol() returns (s: string)
      requires Valid()
      modifies this
      ensures Valid()
      ensures old(recyclingEnabled) && |old(recycleBin)| != 0 ==>
        && s == old(recycleBin)[|old(recycleBin)| - 1]
        && recycleBin == old(recycleBin)[..|old(recycleBin)| - 1]
        && index == old(index)
      ensures !(old(recyclingEnabled) && |old(recycleBin)| != 0) ==>
        && s == SymbolAt(alphabet, old(index))
        && index == old(index) + 1
        && recycleBin == old(recycleBin)
      ensures |alphabet| > 0 ==> s in alphabet || s in recycled
      ensures recyclingEnabled == old(recyclingEnabled) && recycled == old(recycled)
    {
      if recyclingEnabled && |recycleBin| != 0 {
        s := recycleBin[|recycleBin| - 1];
        recycleBin := recycleBin[..|recycleBin| - 1];
      } else {
        s := SymbolAt(alphabet, index);
        index := index + 1;
      }
    }

    /** Restarts the alphabet at its first symbol; empties the recycle bin
        exactly when asked to. */
    method Reset(emptyRecycleBin: bool)
      requires Valid()
      modifies this
      ensures Valid()
      ensures index == 0
      ensures recycleBin == if emptyRecycleBin then [] else old(recycleBin)
      ensures recyclingEnabled == old(recyclingEnabled) && recycled == old(recycled)
    {
      index := 0;
      if emptyRecycleBin {
        EmptyRecycleBin();
      }
    }

    /** Forgets every freed symbol. */
    method EmptyRecycleBin()
      modifies this
      ensures Valid()
      ensures recycleBin == []
      ensures index == old(index) && recyclingEnabled == old(recyclingEnabled) && recycled == old(recycled)
    {
      recycleBin := [];
    }

    /** Turns recycling on or off; the recycle bin is kept either way. */
    method SetRecycling(state: bool)
      modifies this
      ensures recyclingEnabled == state
      ensures recycleBin == old(recycleBin) && index == old(index) && recycled == old(recycled)
    {
      recyclingEnabled := state;
    }

    method IsRecyclingOn() returns (on: bool)
      ensures on == recyclingEnabled
    {
      on := recyclingEnabled;
    }
  }
}
