/** The loop the billing workers share: try each item of a batch, count what was done and what threw, and
    go on with the next. */
module Batches {
  import opened BillingDb

  datatype Verdict = DONE | SKIPPED | FAILED

  datatype Tally = Tally(db: Db, done: nat, failed: nat)

  function Counted(t: Tally, after: (Db, Verdict)): Tally {
    Tally(after.0, t.done + (if after.1.DONE? then 1 else 0), t.failed + (if after.1.FAILED? then 1 else 0))
  }

  /** The items of a batch one after the other; step says what each does to the tables. */
  function AfterAll<T>(step: (Db, T) -> (Db, Verdict), db: Db, items: seq<T>): Tally {
    if items == [] then Tally(db, 0, 0)
    else
      var before := AfterAll(step, db, items[..|items| - 1]);
      Counted(before, step(before.db, items[|items| - 1]))
  }

  lemma AllInTurn<T>(step: (Db, T) -> (Db, Verdict), db: Db, items: seq<T>, i: nat)
    requires i < |items|
    ensures var before := AfterAll(step, db, items[..i]);
            AfterAll(step, db, items[..i + 1]) == Counted(before, step(before.db, items[i]))
  {
    assert items[..i + 1][..i] == items[..i];
  }
}
