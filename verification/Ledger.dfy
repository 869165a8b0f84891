/**
 * The double-entry ledger: an append-only sequence of transactions, balances
 * derived from entries, postings that are idempotent on their key, and
 * reversals.
 */
module Ledger {
  import opened Prelude

  /** One currency. A member holds one wallet, so a wallet is named by its member. */
  datatype Account =
    | Available(user: nat)
    | Reserved(user: nat)
    | Pool(group: nat)
    | Escrow(programme: nat)
    | ProviderPayable
    | FeeRevenue

  /** What a caller may put in the free part of an idempotency key. */
  datatype CallerKey = Client(nonce: nat) | OfIntent(intent: nat)

  datatype Key =
    | IntentKey(intent: nat, caller: nat)
    | SettlementKey(intent: nat)
    | BillReserve(bill: nat)
    | BillRelease(bill: nat)
    | BillSettle(bill: nat)
    | BillReversal(bill: nat)
    | TransferKey(request: nat)
    | WithdrawalKey(request: nat)
    | ContributionKey(group: nat, schedule: nat, contributor: CallerKey)
    | PayoutKey(group: nat, schedule: nat)
    | RefundKey(subscription: nat, paidAt: int)
    | ManualKey(request: nat)

  datatype Direction = Debit | Credit
  datatype Entry = Entry(account: Account, direction: Direction, amount: int)
  datatype TxnStatus = Posted | Reversed
  datatype Txn = Txn(key: Key, status: TxnStatus, reversalOf: Option<nat>, entries: seq<Entry>)
  type Book = seq<Txn>

  function Dr(account: Account, amount: int): Entry { Entry(account, Debit, amount) }
  function Cr(account: Account, amount: int): Entry { Entry(account, Credit, amount) }

  // ----- Balances ---------------------------------------------------------

  function Signed(e: Entry): int { if e.direction == Credit then e.amount else -e.amount }

  function SignedOn(a: Account): Entry -> int {
    (e: Entry) => if e.account == a then Signed(e) else 0
  }

  function AnySigned(): Entry -> int { (e: Entry) => Signed(e) }

  function DebitOf(): Entry -> int { (e: Entry) => if e.direction == Debit then e.amount else 0 }
  function CreditOf(): Entry -> int { (e: Entry) => if e.direction == Credit then e.amount else 0 }

  /** What a list of entries does to one account. */
  function Effect(entries: seq<Entry>, a: Account): int { Sum(entries, SignedOn(a)) }

  function PostedEffect(a: Account): Txn -> int {
    (t: Txn) => if t.status == Posted then Effect(t.entries, a) else 0
  }

  function AnyEffect(a: Account): Txn -> int { (t: Txn) => Effect(t.entries, a) }

  /** The balance the services read: entries of POSTED transactions only. */
  function Balance(l: Book, a: Account): int { Sum(l, PostedEffect(a)) }

  /** The balance of a reader that counts REVERSED transactions as well. */
  function FullBalance(l: Book, a: Account): int { Sum(l, AnyEffect(a)) }

  // ----- Posting ----------------------------------------------------------

  predicate Balanced(entries: seq<Entry>) {
    && |entries| >= 2
    && (forall i :: 0 <= i < |entries| ==> entries[i].amount > 0)
    && Sum(entries, DebitOf()) == Sum(entries, CreditOf())
  }

  ghost predicate HasKey(l: Book, key: Key) {
    exists i :: 0 <= i < |l| && l[i].key == key
  }

  ghost predicate DistinctKeys(l: Book) {
    forall i, j :: 0 <= i < j < |l| ==> l[i].key != l[j].key
  }

  /** The unique-index lookup on idempotencyKey. */
  function Find(l: Book, key: Key): (found: Option<nat>)
    ensures found.Some? ==> found.value < |l| && l[found.value].key == key
    ensures found.None? <==> !HasKey(l, key)
  {
    if l == [] then None
    else if l[|l| - 1].key == key then Some(|l| - 1)
    else
      var rest := l[..|l| - 1];
      assert HasKey(l, key) <==> HasKey(rest, key) by {
        if HasKey(l, key) {
          var i :| 0 <= i < |l| && l[i].key == key;
          assert rest[i].key == key;
        }
        if HasKey(rest, key) {
          var i :| 0 <= i < |rest| && rest[i].key == key;
          assert l[i].key == key;
        }
      }
      Find(rest, key)
  }

  datatype Posting = Posting(ledger: Book, id: nat)

  function NewTxn(key: Key, entries: seq<Entry>): Txn { Txn(key, Posted, None, entries) }

  /** postWithin: refuse an unbalanced posting, replay a known key, else append. */
  function Post(l: Book, key: Key, entries: seq<Entry>): Result<Posting> {
    if !Balanced(entries) then Err(Unprocessable)
    else
      match Find(l, key)
      case Some(id) => Ok(Posting(l, id))
      case None => Ok(Posting(l + [NewTxn(key, entries)], |l|))
  }

  lemma BalanceAppend(l: Book, t: Txn, a: Account)
    ensures Balance(l + [t], a) == Balance(l, a) + PostedEffect(a)(t)
  {
    SumAppend(l, t, PostedEffect(a));
  }

  lemma EffectPair(x: Entry, y: Entry, a: Account)
    ensures Effect([x, y], a) == SignedOn(a)(x) + SignedOn(a)(y)
  {
    SumPair(x, y, SignedOn(a));
  }

  lemma EffectTriple(x: Entry, y: Entry, z: Entry, a: Account)
    ensures Effect([x, y, z], a) == SignedOn(a)(x) + SignedOn(a)(y) + SignedOn(a)(z)
  {
    EffectPair(x, y, a);
    SumAppend([x, y], z, SignedOn(a));
    assert [x, y] + [z] == [x, y, z];
  }

  /** A pair moving one positive amount is a balanced posting. */
  lemma PairBalanced(from: Account, to: Account, amount: int)
    ensures Balanced([Dr(from, amount), Cr(to, amount)]) <==> amount > 0
  {
    var x, y := Dr(from, amount), Cr(to, amount);
    SumPair(x, y, DebitOf());
    SumPair(x, y, CreditOf());
    assert [x, y][0].amount == amount;
  }

  // ----- What every posting keeps ----------------------------------------

  /** A ledger no reversal has touched: distinct keys, balanced postings, all POSTED. */
  ghost predicate Sound(l: Book) {
    && DistinctKeys(l)
    && forall i :: 0 <= i < |l| ==> Balanced(l[i].entries) && l[i].status == Posted
  }

  /**
   * A posting under a new key adds its entries' effect to every account; under
   * a known key it changes nothing and returns the first posting.
   */
  lemma PostOutcome(l: Book, key: Key, entries: seq<Entry>, a: Account)
    requires Post(l, key, entries).Ok?
    ensures var r := Post(l, key, entries).value;
            && r.id < |r.ledger| && r.ledger[r.id].key == key
            && (HasKey(l, key) ==> r.ledger == l)
            && (!HasKey(l, key) ==>
                  && r.ledger == l + [NewTxn(key, entries)]
                  && Balance(r.ledger, a) == Balance(l, a) + Effect(entries, a))
    ensures Sound(l) ==> Sound(Post(l, key, entries).value.ledger)
  {
    BalanceAppend(l, NewTxn(key, entries), a);
    var r := Post(l, key, entries).value;
    if Sound(l) && !HasKey(l, key) {
      forall i, j | 0 <= i < j < |r.ledger| ensures r.ledger[i].key != r.ledger[j].key {
        if j == |l| {
          assert l[i].key != key;
        }
      }
    }
  }

  /** A posting is accepted exactly if it has two or more positive entries and debits equal credits: they add up to zero. */
  lemma {:induction false} PostAcceptedIff(l: Book, key: Key, entries: seq<Entry>)
    ensures Post(l, key, entries).Ok? <==>
              && |entries| >= 2 && (forall e :: e in entries ==> e.amount > 0) && Sum(entries, AnySigned()) == 0
  {
    SumDifference(entries, AnySigned(), CreditOf(), DebitOf());
    assert (forall e :: e in entries ==> e.amount > 0) <==> (forall i :: 0 <= i < |entries| ==> entries[i].amount > 0);
  }

  // ----- Conservation -----------------------------------------------------

  ghost predicate Distinct<T>(xs: seq<T>) {
    forall i, j :: 0 <= i < j < |xs| ==> xs[i] != xs[j]
  }

  ghost predicate Covers(accounts: seq<Account>, entries: seq<Entry>) {
    forall e :: e in entries ==> e.account in accounts
  }

  function EffectOf(entries: seq<Entry>): Account -> int { (a: Account) => Effect(entries, a) }
  function BalanceOf(l: Book): Account -> int { (a: Account) => Balance(l, a) }
  function SignedAt(e: Entry): Account -> int { (a: Account) => SignedOn(a)(e) }

  lemma {:induction false} OneAccountPerEntry(accounts: seq<Account>, e: Entry)
    requires Distinct(accounts)
    ensures Sum(accounts, SignedAt(e)) == if e.account in accounts then Signed(e) else 0
    decreases |accounts|
  {
    if accounts != [] {
      var last := |accounts| - 1;
      OneAccountPerEntry(accounts[..last], e);
      assert e.account in accounts <==> e.account in accounts[..last] || e.account == accounts[last];
      if e.account in accounts[..last] {
        var i :| 0 <= i < last && accounts[i] == e.account;
        assert accounts[i] != accounts[last];
      }
      assert SignedAt(e)(accounts[last]) == SignedOn(accounts[last])(e);
    }
  }

  lemma {:induction false} EffectsAddUp(accounts: seq<Account>, entries: seq<Entry>)
    requires Distinct(accounts) && Covers(accounts, entries)
    ensures Sum(accounts, EffectOf(entries)) == Sum(entries, AnySigned())
    decreases |entries|
  {
    if entries == [] {
      SumZero(accounts, EffectOf(entries));
    } else {
      var last := |entries| - 1;
      EffectsAddUp(accounts, entries[..last]);
      OneAccountPerEntry(accounts, entries[last]);
      assert entries[last] in entries;
      SumPlus(accounts, EffectOf(entries), EffectOf(entries[..last]), SignedAt(entries[last]));
    }
  }

  lemma {:induction false} BalancedIsZero(entries: seq<Entry>)
    requires Balanced(entries)
    ensures Sum(entries, AnySigned()) == 0
  {
    SumDifference(entries, AnySigned(), CreditOf(), DebitOf());
  }

  /**
   * The sum of all account balances is zero: over any list of distinct
   * accounts that includes every account the ledger mentions.
   */
  lemma {:induction false} BooksBalance(l: Book, accounts: seq<Account>)
    requires forall i :: 0 <= i < |l| ==> Balanced(l[i].entries) && Covers(accounts, l[i].entries)
    requires Distinct(accounts)
    ensures Sum(accounts, BalanceOf(l)) == 0
    decreases |l|
  {
    if l == [] {
      SumZero(accounts, BalanceOf(l));
    } else {
      var last := |l| - 1;
      var rest, t := l[..last], l[last];
      BooksBalance(rest, accounts);
      EffectsAddUp(accounts, t.entries);
      BalancedIsZero(t.entries);
      if t.status == Posted {
        SumPlus(accounts, BalanceOf(l), BalanceOf(rest), EffectOf(t.entries));
      } else {
        SumSame(accounts, BalanceOf(l), BalanceOf(rest));
      }
    }
  }

  // ----- Reversal ---------------------------------------------------------

  function Flip(entries: seq<Entry>): (flipped: seq<Entry>)
    ensures |flipped| == |entries|
  {
    seq(|entries|, i requires 0 <= i < |entries| =>
      entries[i].(direction := if entries[i].direction == Debit then Credit else Debit))
  }

  /** reverse: only a POSTED original; a known key is replayed; the original becomes REVERSED. */
  function Reverse(l: Book, original: nat, key: Key): Result<Posting> {
    if original >= |l| || l[original].status != Posted then Err(NotFound)
    else
      match Find(l, key)
      case Some(id) => Ok(Posting(l, id))
      case None =>
        var reversal := Txn(key, Posted, Some(original), Flip(l[original].entries));
        Ok(Posting(l[original := l[original].(status := Reversed)] + [reversal], |l|))
  }

  lemma {:induction false} FlipNegates(entries: seq<Entry>, a: Account)
    ensures Effect(Flip(entries), a) == -Effect(entries, a)
    decreases |entries|
  {
    if entries != [] {
      var last := |entries| - 1;
      assert Flip(entries)[..last] == Flip(entries[..last]);
      FlipNegates(entries[..last], a);
    }
  }

  ghost predicate Reverses(l: Book, original: nat, key: Key) {
    original < |l| && l[original].status == Posted && !HasKey(l, key)
  }

  /** Only a POSTED transaction can be reversed; a known key changes nothing. */
  lemma ReverseAcceptedIff(l: Book, original: nat, key: Key)
    ensures Reverse(l, original, key).Ok? <==> original < |l| && l[original].status == Posted
    ensures Reverse(l, original, key).Ok? && HasKey(l, key) ==> Reverse(l, original, key).value.ledger == l
  {
  }

  /**
   * The reader the services use counts only POSTED transactions, so it loses
   * the original and gains its mirror: it moves by minus twice the effect.
   */
  lemma ReversalMovesPostedBalanceTwice(l: Book, original: nat, key: Key, a: Account)
    requires Reverses(l, original, key)
    ensures Reverse(l, original, key).Ok?
    ensures Balance(Reverse(l, original, key).value.ledger, a)
         == Balance(l, a) - 2 * Effect(l[original].entries, a)
  {
    var marked := l[original := l[original].(status := Reversed)];
    SumUpdate(l, original, marked[original], PostedEffect(a));
    FlipNegates(l[original].entries, a);
    BalanceAppend(marked, Txn(key, Posted, Some(original), Flip(l[original].entries)), a);
  }

  /** A reader that counts both statuses sees the original undone exactly. */
  lemma ReversalUndoesInFullBalance(l: Book, original: nat, key: Key, a: Account)
    requires Reverses(l, original, key)
    ensures Reverse(l, original, key).Ok?
    ensures FullBalance(Reverse(l, original, key).value.ledger, a) == FullBalance(Drop(l, original), a)
  {
    var marked := l[original := l[original].(status := Reversed)];
    var reversal := Txn(key, Posted, Some(original), Flip(l[original].entries));
    SumUpdate(l, original, marked[original], AnyEffect(a));
    SumAppend(marked, reversal, AnyEffect(a));
    FlipNegates(l[original].entries, a);
    SumDrop(l, original, AnyEffect(a));
  }

  /**
   * Exactly when a reversal restores the balance the services read: only on
   * accounts the original left unmoved.
   */
  lemma ReversalRestoresPostedBalanceIff(l: Book, original: nat, key: Key, a: Account)
    requires Reverses(l, original, key)
    ensures Reverse(l, original, key).Ok?
    ensures Balance(Reverse(l, original, key).value.ledger, a) == Balance(Drop(l, original), a)
       <==> Effect(l[original].entries, a) == 0
  {
    ReversalMovesPostedBalanceTwice(l, original, key, a);
    SumDrop(l, original, PostedEffect(a));
  }

  /** Distinct keys; a reversal points at an earlier REVERSED transaction nobody else reverses. */
  ghost predicate ReversalsSound(l: Book) {
    && DistinctKeys(l)
    && (forall i :: 0 <= i < |l| && l[i].reversalOf.Some? ==>
          l[i].reversalOf.value < |l| && l[l[i].reversalOf.value].status == Reversed)
    && (forall i, j :: 0 <= i < j < |l| && l[i].reversalOf.Some? ==> l[i].reversalOf != l[j].reversalOf)
  }

  datatype LedgerStep =
    | DoPost(key: Key, entries: seq<Entry>)
    | DoReverse(original: nat, reversalKey: Key)

  function LedgerNext(l: Book, step: LedgerStep): Book {
    var r := match step
      case DoPost(key, entries) => Post(l, key, entries)
      case DoReverse(original, key) => Reverse(l, original, key);
    if r.Ok? then r.value.ledger else l
  }

  function LedgerRun(steps: seq<LedgerStep>): Book {
    if steps == [] then [] else LedgerNext(LedgerRun(steps[..|steps| - 1]), steps[|steps| - 1])
  }

  lemma ReversalsSoundStep(l: Book, step: LedgerStep)
    requires ReversalsSound(l)
    ensures ReversalsSound(LedgerNext(l, step))
  {
    var l' := LedgerNext(l, step);
    if l' != l {
      forall i, j | 0 <= i < j < |l'| ensures l'[i].key != l'[j].key {
        if j == |l| {
          var key := l'[j].key;
          assert !HasKey(l, key);
          assert l[i].key != key;
        }
      }
    }
  }

  /** At most one reversal per transaction, in every run of postings and reversals. */
  lemma {:induction false} AtMostOneReversal(steps: seq<LedgerStep>, i: nat, j: nat, original: nat)
    requires i < |LedgerRun(steps)| && j < |LedgerRun(steps)|
    requires LedgerRun(steps)[i].reversalOf == Some(original) == LedgerRun(steps)[j].reversalOf
    ensures i == j
    ensures original < |LedgerRun(steps)| && LedgerRun(steps)[original].status == Reversed
  {
    LedgerRunSound(steps);
  }

  lemma {:induction false} LedgerRunSound(steps: seq<LedgerStep>)
    ensures ReversalsSound(LedgerRun(steps))
    decreases |steps|
  {
    if steps != [] {
      LedgerRunSound(steps[..|steps| - 1]);
      ReversalsSoundStep(LedgerRun(steps[..|steps| - 1]), steps[|steps| - 1]);
    }
  }
}
