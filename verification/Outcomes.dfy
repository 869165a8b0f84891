/** What one accepted operation does to the ledger, said of every account at once. */
module Outcomes {
  import opened Ledger
  import opened Books

  /**
   * One posting under this key was added; it took the amount from one account
   * and gave it to another, and no other balance moved.
   */
  ghost predicate Moves(l: Book, l': Book, key: Key, from: Account, to: Account, amount: int) {
    && |l'| == |l| + 1 && l <= l' && l'[|l|].key == key
    && forall a :: Balance(l', a)
         == Balance(l, a) + (if a == to then amount else 0) - (if a == from then amount else 0)
  }

  /** The same for a posting over three accounts: what each of them gains. */
  ghost predicate Shifts(l: Book, l': Book, key: Key, x: Account, dx: int, y: Account, dy: int, z: Account, dz: int) {
    && |l'| == |l| + 1 && l <= l' && l'[|l|].key == key
    && forall a :: Balance(l', a) == Balance(l, a)
         + (if a == x then dx else 0) + (if a == y then dy else 0) + (if a == z then dz else 0)
  }

  lemma PairMoves(l: Book, l': Book, key: Key, from: Account, to: Account, amount: int)
    requires l' == l + [NewTxn(key, [Dr(from, amount), Cr(to, amount)])]
    ensures Moves(l, l', key, from, to, amount)
  {
    forall a ensures Balance(l', a) == Balance(l, a) + (if a == to then amount else 0) - (if a == from then amount else 0) {
      BalanceAppend(l, NewTxn(key, [Dr(from, amount), Cr(to, amount)]), a);
      PairEffect(from, to, amount, a);
    }
  }
}
