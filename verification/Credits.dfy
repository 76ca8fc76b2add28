// The credit ledger under row locks (app/billing/credits.py:108-224).
module Credits {
  import opened Rows

  type Worker = nat

  datatype Movement = Movement(delta: int, balanceAfter: int)
  datatype Account = Account(balance: int, rows: seq<Movement>)
  datatype Operation = Grant(amount: int) | Reset(amount: int) | Debit
  // Insufficient is the refused debit; ValueError is raised before the row is locked.
  datatype Answer = Done | Insufficient | ValueError

  function Post(a: Account, delta: int): Account {
    Account(a.balance + delta, a.rows + [Movement(delta, a.balance + delta)])
  }

  // One operation on the locked row.
  function Perform(a: Account, op: Operation): (Account, Answer) {
    match op
    case Grant(n) => if n <= 0 then (a, ValueError) else (Post(a, n), Done)
    case Reset(n) =>
      if n < 0 then (a, ValueError) else if n == a.balance then (a, Done) else (Post(a, n - a.balance), Done)
    case Debit => if a.balance < 1 then (a, Insufficient) else (Post(a, -1), Done)
  }

  // What an operation is worth: a grant adds, a reset lands on its amount, a
  // debit takes one credit, and a refusal writes no row.
  lemma OperationEffect(a: Account, op: Operation)
    requires a.balance >= 0
    ensures var (b, r) := Perform(a, op);
            && b.balance >= 0
            && (r != Done ==> b == a)
            && (op.Grant? ==> (r == Done <==> op.amount > 0) && (r == Done ==> b.balance == a.balance + op.amount))
            && (op.Reset? ==> (r == Done <==> op.amount >= 0) && (r == Done ==> b.balance == op.amount))
            && (op.Debit? ==> (r == Done <==> a.balance > 0) && (r == Done ==> b.balance == a.balance - 1))
            && (b.balance == a.balance ==> b.rows == a.rows)
            && |b.rows| <= |a.rows| + 1
  {
  }

  function Sum(rows: seq<Movement>): int {
    if rows == [] then 0 else Sum(rows[..|rows| - 1]) + rows[|rows| - 1].delta
  }

  // The cached balance is the sum of the deltas, every row's balance_after is
  // the running sum at that row, and no balance was ever negative.
  ghost predicate Audited(a: Account) {
    && a.balance == Sum(a.rows) && a.balance >= 0
    && forall i :: 0 <= i < |a.rows| ==> a.rows[i].balanceAfter == Sum(a.rows[..i + 1]) >= 0
  }

  // Rows that lead from one balance to another.
  predicate Leads(start: int, rows: seq<Movement>, end: int) {
    if rows == [] then end == start
    else
      var last := rows[|rows| - 1];
      last.balanceAfter == end >= 0 && Leads(start, rows[..|rows| - 1], end - last.delta)
  }

  lemma {:induction false} LeadsOn(start: int, a: seq<Movement>, mid: int, b: seq<Movement>, end: int)
    requires Leads(start, a, mid) && Leads(mid, b, end)
    ensures Leads(start, a + b, end)
  {
    if b == [] {
      assert a + b == a;
    } else {
      LeadsOn(start, a, mid, b[..|b| - 1], end - b[|b| - 1].delta);
      assert (a + b)[..|a + b| - 1] == a + b[..|b| - 1];
    }
  }

  lemma {:induction false} LeadsAudits(rows: seq<Movement>, end: int)
    requires Leads(0, rows, end)
    ensures Audited(Account(end, rows))
  {
    if rows != [] {
      var n := |rows| - 1;
      LeadsAudits(rows[..n], end - rows[n].delta);
      forall i | 0 <= i < |rows| ensures rows[i].balanceAfter == Sum(rows[..i + 1]) >= 0 {
        if i < n {
          assert rows[..n][..i + 1] == rows[..i + 1];
        } else {
          assert rows[..i + 1] == rows;
        }
      }
    }
  }

  // A session's object for the organization: its balance as last read, the rows
  // it has added, and how many of its debits were tried and won.
  datatype Session = Session(copy: int, pending: seq<Movement>, tried: nat, won: nat)
  datatype Bank = Bank(account: Account, holder: Option<Worker>, sessions: map<Worker, Session>, tried: nat, won: nat)

  // A transaction loads the row, locks it -- rereading it under the lock, as
  // _lock_org does -- works, and commits or rolls back.
  datatype Step =
    | Load(w: Worker)
    | Lock(w: Worker, reread: bool)
    | Work(w: Worker, op: Operation)
    | Commit(w: Worker)
    | Rollback(w: Worker)

  function Close(b: Bank, w: Worker): Bank {
    b.(sessions := b.sessions - {w}, holder := if b.holder == Some(w) then None else b.holder)
  }

  function Worked(s: Session, op: Operation): Session {
    var (a, r) := Perform(Account(s.copy, s.pending), op);
    Session(a.balance, a.rows, s.tried + (if op.Debit? then 1 else 0),
        s.won + (if op.Debit? && r == Done then 1 else 0))
  }

  // A step that cannot be taken waits: the state stays.
  function Do(b: Bank, x: Step): Bank {
    match x
    case Load(w) => if w in b.sessions then b else b.(sessions := b.sessions[w := Session(b.account.balance, [], 0, 0)])
    case Lock(w, reread) =>
      if w !in b.sessions || b.holder.Some? then b
      else b.(holder := Some(w),
              sessions := if reread then b.sessions[w := b.sessions[w].(copy := b.account.balance)] else b.sessions)
    case Work(w, op) =>
      if b.holder != Some(w) || w !in b.sessions then b else b.(sessions := b.sessions[w := Worked(b.sessions[w], op)])
    case Commit(w) =>
      if w !in b.sessions then b
      else
        var s := b.sessions[w];
        Close(b, w).(account := if s.pending == [] then b.account else Account(s.copy, b.account.rows + s.pending),
                     tried := b.tried + s.tried, won := b.won + s.won)
    case Rollback(w) => Close(b, w)
  }

  function Run(b: Bank, steps: seq<Step>): Bank {
    if steps == [] then b else Do(Run(b, steps[..|steps| - 1]), steps[|steps| - 1])
  }

  const FRESH := Bank(Account(0, []), None, map[], 0, 0)

  ghost predicate Rereads(steps: seq<Step>) {
    forall x :: x in steps && x.Lock? ==> x.reread
  }

  // Only the lock holder has pending work, and it leads on from the committed
  // balance.
  ghost predicate Inv(b: Bank) {
    && b.account.balance >= 0 && Leads(0, b.account.rows, b.account.balance)
    && (b.holder.Some? ==> b.holder.value in b.sessions)
    && forall w :: w in b.sessions ==>
         var s := b.sessions[w];
         if b.holder == Some(w) then s.copy >= 0 && Leads(b.account.balance, s.pending, s.copy)
         else s.pending == [] && s.tried == 0 && s.won == 0
  }

  lemma PerformLeads(start: int, a: Account, op: Operation)
    requires Leads(start, a.rows, a.balance) && a.balance >= 0
    ensures var (b, _) := Perform(a, op); Leads(start, b.rows, b.balance) && b.balance >= 0
  {
    var (b, r) := Perform(a, op);
    if b.rows != a.rows {
      assert b.rows[..|b.rows| - 1] == a.rows;
    }
  }

  lemma StepKeeps(b: Bank, x: Step)
    requires Inv(b) && (x.Lock? ==> x.reread)
    ensures Inv(Do(b, x))
  {
    match x
    case Load(w) =>
    case Lock(w, reread) =>
    case Work(w, op) =>
      if b.holder == Some(w) && w in b.sessions {
        PerformLeads(b.account.balance, Account(b.sessions[w].copy, b.sessions[w].pending), op);
      }
    case Commit(w) =>
      if w in b.sessions && b.sessions[w].pending != [] {
        LeadsOn(0, b.account.rows, b.account.balance, b.sessions[w].pending, b.sessions[w].copy);
      }
    case Rollback(w) =>
  }

  lemma {:induction false} RunKeeps(b: Bank, steps: seq<Step>)
    requires Inv(b) && Rereads(steps)
    ensures Inv(Run(b, steps))
  {
    if steps != [] {
      RunKeeps(b, steps[..|steps| - 1]);
      StepKeeps(Run(b, steps[..|steps| - 1]), steps[|steps| - 1]);
    }
  }

  // In every interleaving of transactions that lock and then reread, the books
  // balance.
  lemma BooksBalance(steps: seq<Step>)
    requires Rereads(steps)
    ensures Audited(Run(FRESH, steps).account)
  {
    RunKeeps(FRESH, steps);
    var a := Run(FRESH, steps).account;
    LeadsAudits(a.rows, a.balance);
  }

  // One grant, from a copy read before the lock.
  function StaleGrant(w: Worker): seq<Step> {
    [Lock(w, false), Work(w, Grant(1)), Commit(w)]
  }

  lemma StaleGrantLandsOnItsCopy(b: Bank, w: Worker)
    requires b.holder.None? && w in b.sessions && b.sessions[w] == Session(0, [], 0, 0)
    ensures Run(b, StaleGrant(w))
         == Bank(Account(1, b.account.rows + [Movement(1, 1)]), None, b.sessions - {w}, b.tried, b.won)
  {
    var s := StaleGrant(w);
    assert s[..3] == s && s[..2] == [s[0], s[1]] && s[..2][..1] == [s[0]] && [s[0]][..0] == [];
    var b1 := Do(b, s[0]);
    assert Run(b, [s[0]]) == Do(Run(b, []), s[0]) == b1;
    var b2 := Do(b1, s[1]);
    assert Run(b, s[..2]) == b2;
    assert b2.sessions[w] == Session(1, [Movement(1, 1)], 0, 0);
    assert b2.sessions - {w} == b.sessions - {w};
  }

  lemma {:induction false} RunOn(b: Bank, s: seq<Step>, t: seq<Step>)
    ensures Run(b, s + t) == Run(Run(b, s), t)
  {
    if t == [] {
      assert s + t == s;
    } else {
      RunOn(b, s, t[..|t| - 1]);
      assert (s + t)[..|s + t| - 1] == s + t[..|t| - 1];
    }
  }

  // The reread is needed: of two grants of one credit made from copies read
  // before the lock, one is lost, and the balance is not the sum of its rows.
  lemma StaleLockLosesAGrant()
    ensures var steps := [Load(0), Load(1)] + StaleGrant(0) + StaleGrant(1);
            Run(FRESH, steps).account.balance == 1 && Sum(Run(FRESH, steps).account.rows) == 2
  {
    var loads, m := [Load(0), Load(1)], Movement(1, 1);
    assert loads[..1] == [Load(0)] && [Load(0)][..0] == [];
    var b := Run(FRESH, loads);
    assert b.sessions == map[0 := Session(0, [], 0, 0), 1 := Session(0, [], 0, 0)];
    RunOn(FRESH, loads, StaleGrant(0));
    StaleGrantLandsOnItsCopy(b, 0);
    RunOn(FRESH, loads + StaleGrant(0), StaleGrant(1));
    StaleGrantLandsOnItsCopy(Run(b, StaleGrant(0)), 1);
    var all := loads + StaleGrant(0) + StaleGrant(1);
    assert Run(FRESH, all).account.rows == [m, m];
    assert [m, m][..1] == [m] && [m][..0] == [];
    assert Sum([m]) == Sum([]) + 1 && Sum([m, m]) == Sum([m]) + 1;
  }

  ghost predicate OnlyDebits(steps: seq<Step>) {
    forall x :: x in steps && x.Work? ==> x.op.Debit?
  }

  // The count of debits so far, committed and pending, against the opening balance.
  ghost predicate Counted(b: Bank, opening: int) {
    && b.account.balance == opening - b.won && b.won <= b.tried
    && (b.won < b.tried ==> b.account.balance == 0)
    && forall w :: w in b.sessions && b.holder == Some(w) ==>
         var s := b.sessions[w];
         && s.copy == b.account.balance - s.won && s.won <= s.tried && (s.pending == [] <==> s.won == 0)
         && (s.won < s.tried ==> s.copy == 0)
  }

  lemma StepCounts(b: Bank, x: Step, opening: int)
    requires Inv(b) && Counted(b, opening) && (x.Lock? ==> x.reread) && (x.Work? ==> x.op.Debit?)
    ensures Counted(Do(b, x), opening)
  {
  }

  // Debits alone, in any interleaving: exactly as many succeed as there were
  // credits, or all of them.
  lemma {:induction false} DebitsTakeWhatIsThere(b: Bank, steps: seq<Step>)
    requires Inv(b) && b.holder.None? && b.tried == 0 && b.won == 0 && Rereads(steps) && OnlyDebits(steps)
    ensures var r := Run(b, steps);
            && Counted(r, b.account.balance)
            && r.won == (if r.tried < b.account.balance then r.tried else b.account.balance)
  {
    RunKeeps(b, steps);
    if steps != [] {
      DebitsTakeWhatIsThere(b, steps[..|steps| - 1]);
      RunKeeps(b, steps[..|steps| - 1]);
      StepCounts(Run(b, steps[..|steps| - 1]), steps[|steps| - 1], b.account.balance);
    }
  }

  // The organization row and its credit transactions, as one transaction that
  // holds the lock sees them.
  class Organization {
    var creditBalance: int
    var transactions: seq<Movement>

    function View(): Account
      reads this
    {
      Account(creditBalance, transactions)
    }

    constructor ()
      ensures View() == Account(0, []) && Audited(View())
    {
      creditBalance, transactions := 0, [];
    }

    method GrantCredits(amount: int) returns (answer: Answer)
      modifies this
      ensures (View(), answer) == Perform(old(View()), Grant(amount))
    {
      if amount <= 0 {
        return ValueError;
      }
      creditBalance := creditBalance + amount;
      transactions := transactions + [Movement(amount, creditBalance)];
      return Done;
    }

    method ResetMonthlyCredits(amount: int) returns (answer: Answer)
      modifies this
      ensures (View(), answer) == Perform(old(View()), Reset(amount))
    {
      if amount < 0 {
        return ValueError;
      }
      var delta := amount - creditBalance;
      if delta == 0 {
        return Done;
      }
      creditBalance := amount;
      transactions := transactions + [Movement(delta, creditBalance)];
      return Done;
    }

    method TryDebitCredit() returns (debited: bool)
      modifies this
      ensures View() == Perform(old(View()), Debit).0 && debited == (Perform(old(View()), Debit).1 == Done)
    {
      if creditBalance < 1 {
        return false;
      }
      creditBalance := creditBalance - 1;
      transactions := transactions + [Movement(-1, creditBalance)];
      return true;
    }
  }
}
