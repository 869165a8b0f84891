/**
 * The database the services work on. Each service method below runs one
 * transaction step by step; a refusal after a write restores what was there.
 */
module Store {
  import opened Prelude
  import opened Ledger
  import opened Tables
  import Groups

  class Database {
    var now: int
    var ledger: Book
    var wallets: map<nat, bool>
    var intents: seq<Intent>
    var bills: seq<Bill>
    var withdrawals: seq<Withdrawal>
    var transfers: seq<Transfer>
    var groups: seq<Groups.Group>
    var contributions: seq<ContributionRow>
    var payouts: seq<PayoutRow>
    var programmes: seq<Programme>
    var subscriptions: seq<Subscription>
    var handlers: seq<Handler>

    constructor ()
      ensures State() == EMPTY
    {
      now, ledger, wallets, intents, bills := 0, [], map[], [], [];
      withdrawals, transfers, groups, contributions, payouts := [], [], [], [], [];
      programmes, subscriptions, handlers := [], [], [];
    }

    function State(): Db
      reads this
    {
      Db(now, ledger, wallets, intents, bills, withdrawals, transfers, groups, contributions, payouts, programmes,
         subscriptions, handlers)
    }

    /** Rolls back what a transaction may have written. Nothing here writes the clock or the wallets. */
    method Restore(saved: Db)
      requires now == saved.now && wallets == saved.wallets
      modifies this
      ensures State() == saved
    {
      RestorePayments(saved);
      RestoreProducts(saved);
    }

    method RestorePayments(saved: Db)
      modifies `ledger, `intents, `bills, `withdrawals, `transfers, `handlers
      ensures ledger == saved.ledger && intents == saved.intents && bills == saved.bills
      ensures withdrawals == saved.withdrawals && transfers == saved.transfers
      ensures handlers == saved.handlers
    {
      ledger, intents, bills := saved.ledger, saved.intents, saved.bills;
      withdrawals, transfers, handlers := saved.withdrawals, saved.transfers, saved.handlers;
    }

    method RestoreProducts(saved: Db)
      modifies `groups, `contributions, `payouts, `programmes, `subscriptions
      ensures groups == saved.groups && contributions == saved.contributions && payouts == saved.payouts
      ensures programmes == saved.programmes && subscriptions == saved.subscriptions
    {
      groups, contributions, payouts := saved.groups, saved.contributions, saved.payouts;
      programmes, subscriptions := saved.programmes, saved.subscriptions;
    }
  }

  /** A transaction did exactly what its specification says: committed its result, or refused and changed nothing. */
  ghost predicate Commits(before: Db, after: Db, outcome: Result<()>, spec: Result<Db>) {
    match spec
    case Ok(db) => outcome.Ok? && after == db
    case Err(error) => outcome == Err(error) && after == before
  }

  // ----- Posting ----------------------------------------------------------

  /** The posting rules, entry by entry. */
  method AssertBalanced(entries: seq<Entry>) returns (ok: bool)
    ensures ok <==> Balanced(entries)
  {
    if |entries| < 2 {
      return false;
    }
    var debits, credits := 0, 0;
    for i := 0 to |entries|
      invariant forall k :: 0 <= k < i ==> entries[k].amount > 0
      invariant debits == Sum(entries[..i], DebitOf()) && credits == Sum(entries[..i], CreditOf())
    {
      if entries[i].amount <= 0 {
        return false;
      }
      SumAppend(entries[..i], entries[i], DebitOf());
      SumAppend(entries[..i], entries[i], CreditOf());
      assert entries[..i + 1] == entries[..i] + [entries[i]];
      if entries[i].direction == Debit {
        debits := debits + entries[i].amount;
      } else {
        credits := credits + entries[i].amount;
      }
    }
    assert entries[..|entries|] == entries;
    ok := debits == credits;
  }

  method PostWithin(db: Database, key: Key, entries: seq<Entry>) returns (posted: Result<nat>)
    modifies db`ledger
    ensures match Post(old(db.ledger), key, entries)
            case Ok(posting) => posted == Ok(posting.id) && db.ledger == posting.ledger
            case Err(error) => posted == Err(error) && db.ledger == old(db.ledger)
  {
    var balanced := AssertBalanced(entries);
    if !balanced {
      return Err(Unprocessable);
    }
    var existing := Find(db.ledger, key);
    if existing.Some? {
      return Ok(existing.value);
    }
    var id := |db.ledger|;
    db.ledger := db.ledger + [NewTxn(key, entries)];
    posted := Ok(id);
  }

  /** A mirror posting is added, then the original is marked. */
  method ReverseWithin(db: Database, original: nat, key: Key) returns (posted: Result<nat>)
    modifies db`ledger
    ensures match Reverse(old(db.ledger), original, key)
            case Ok(posting) => posted == Ok(posting.id) && db.ledger == posting.ledger
            case Err(error) => posted == Err(error) && db.ledger == old(db.ledger)
  {
    if original >= |db.ledger| || db.ledger[original].status != Posted {
      return Err(NotFound);
    }
    var existing := Find(db.ledger, key);
    if existing.Some? {
      return Ok(existing.value);
    }
    var mirrored := Flip(db.ledger[original].entries);
    var id := |db.ledger|;
    db.ledger := db.ledger + [Txn(key, Posted, Some(original), mirrored)];
    db.ledger := db.ledger[original := db.ledger[original].(status := Reversed)];
    assert db.ledger == old(db.ledger)[original := old(db.ledger)[original].(status := Reversed)]
                        + [Txn(key, Posted, Some(original), mirrored)];
    posted := Ok(id);
  }
}
