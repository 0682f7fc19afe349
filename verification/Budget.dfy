/** Debiting a request's budgets. */
module Budget {
  import opened Common
  import opened Conservation

  datatype Debit = Debit(money: nat, tokens: nat, retries: nat, elapsed: nat)

  datatype BudgetError = MoneyExhausted | TokensExhausted | RetriesExhausted | DeadlineExceeded

  function DigestOf(c: Context, d: Debit): Digest {
    DebitDigest(d.money, d.tokens, d.retries, d.elapsed, |c.budgetDebits|)
  }

  function RetryRecords(digest: Digest, n: nat): seq<Digest> {
    seq(n, i requires 0 <= i < n => RetryDigest(digest, i))
  }

  /** What one debit leaves: smaller budgets, and a record of the debit and of each retry. */
  function Debited(c: Context, d: Debit): Result<Context, BudgetError> {
    if c.money < d.money then Err(MoneyExhausted)
    else if c.tokens < d.tokens then Err(TokensExhausted)
    else if c.retries < d.retries then Err(RetriesExhausted)
    else if c.deadline < d.elapsed then Err(DeadlineExceeded)
    else
      Ok(c.(money := c.money - d.money, tokens := c.tokens - d.tokens, retries := c.retries - d.retries,
            deadline := c.deadline - d.elapsed,
            budgetDebits := c.budgetDebits + [DigestOf(c, d)],
            retryAttempts := c.retryAttempts + RetryRecords(DigestOf(c, d), d.retries)))
  }

  method DebitContext(context: Context, d: Debit) returns (result: Result<Context, BudgetError>)
    ensures result == Debited(context, d)
  {
    var output := context;
    if context.money < d.money {
      return Err(MoneyExhausted);
    }
    output := output.(money := context.money - d.money);
    if context.tokens < d.tokens {
      return Err(TokensExhausted);
    }
    output := output.(tokens := context.tokens - d.tokens);
    if context.retries < d.retries {
      return Err(RetriesExhausted);
    }
    output := output.(retries := context.retries - d.retries);
    if context.deadline < d.elapsed {
      return Err(DeadlineExceeded);
    }
    output := output.(deadline := context.deadline - d.elapsed);
    var digest := DebitDigest(d.money, d.tokens, d.retries, d.elapsed, |output.budgetDebits|);
    output := output.(budgetDebits := output.budgetDebits + [digest]);
    ghost var start := output;
    for retry := 0 to d.retries
      invariant output == start.(retryAttempts := context.retryAttempts + RetryRecords(digest, retry))
    {
      output := output.(retryAttempts := output.retryAttempts + [RetryDigest(digest, retry)]);
      assert RetryRecords(digest, retry + 1) == RetryRecords(digest, retry) + [RetryDigest(digest, retry)];
    }
    return Ok(output);
  }

  /** A debit that succeeds always passes conservation, provided the context itself is well formed, and only then. */
  lemma DebitConserves(c: Context, d: Debit)
    requires Debited(c, d).Ok?
    ensures Conserves(c, Debited(c, d).value) <==> WellFormed(c)
  {
    hide ValidExtension, AllDistinct;
    var t := Debited(c, d).value;
    assert WellFormed(t) == WellFormed(c);
  }

  // ---- chains of debits ----

  function DebitAll(c: Context, debits: seq<Debit>): Result<Context, BudgetError> {
    if debits == [] then Ok(c)
    else
      match DebitAll(c, debits[..|debits| - 1])
      case Err(e) => Err(e)
      case Ok(before) => Debited(before, debits[|debits| - 1])
  }

  function Spent(debits: seq<Debit>): Debit {
    if debits == [] then Debit(0, 0, 0, 0)
    else
      var before, d := Spent(debits[..|debits| - 1]), debits[|debits| - 1];
      Debit(before.money + d.money, before.tokens + d.tokens, before.retries + d.retries, before.elapsed + d.elapsed)
  }

  /** What a chain of debits adds up to: nothing is lost, and every retry that was paid for is on record. */
  lemma {:induction false} DebitsAddUp(c: Context, debits: seq<Debit>)
    requires DebitAll(c, debits).Ok?
    ensures var t := DebitAll(c, debits).value;
      && t.money + Spent(debits).money == c.money
      && t.tokens + Spent(debits).tokens == c.tokens
      && t.deadline + Spent(debits).elapsed == c.deadline
      && t.retries + Spent(debits).retries == c.retries
      && t.retries + |t.retryAttempts| == c.retries + |c.retryAttempts|
      && |t.budgetDebits| == |c.budgetDebits| + |debits|
  {
    if debits != [] {
      DebitsAddUp(c, debits[..|debits| - 1]);
    }
  }

  /** Any chain of successful debits passes conservation from its first context to its last. */
  lemma {:induction false} DebitChainConserves(c: Context, debits: seq<Debit>)
    requires DebitAll(c, debits).Ok? && WellFormed(c)
    ensures WellFormed(DebitAll(c, debits).value) && Conserves(c, DebitAll(c, debits).value)
  {
    hide Conserves, WellFormed;
    if debits == [] {
      ConservesReflexive(c);
    } else {
      var before := DebitAll(c, debits[..|debits| - 1]).value;
      DebitChainConserves(c, debits[..|debits| - 1]);
      DebitConserves(before, debits[|debits| - 1]);
      ConservesTransitive(c, before, DebitAll(c, debits).value);
      TargetIsWellFormed(before, DebitAll(c, debits).value);
    }
  }

  lemma TargetIsWellFormed(s: Context, t: Context)
    requires Conserves(s, t)
    ensures WellFormed(t)
  {
  }

  /** A chain fails exactly when what it would spend in all is more than some budget holds. */
  lemma {:induction false} DebitsFailOnlyWhenExhausted(c: Context, debits: seq<Debit>)
    ensures DebitAll(c, debits).Ok? <==>
              && Spent(debits).money <= c.money && Spent(debits).tokens <= c.tokens
              && Spent(debits).retries <= c.retries && Spent(debits).elapsed <= c.deadline
  {
    if debits != [] {
      DebitsFailOnlyWhenExhausted(c, debits[..|debits| - 1]);
      if DebitAll(c, debits[..|debits| - 1]).Ok? {
        DebitsAddUp(c, debits[..|debits| - 1]);
      }
    }
  }
}
