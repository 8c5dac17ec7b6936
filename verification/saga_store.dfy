/** The saga tables: guarded status moves, attempt rows that are never overwritten, and alerts. */
module SagaStore {
  import opened Collections
  import opened Int64
  import opened LedgerTypes
  import opened SagaTypes

  datatype Payload = Payload(
    wallet: Id, suspense: Id, merchant: Id, feeAccount: Id, amount: int64, fee: int64, currency: string)

  datatype SagaRow = SagaRow(principal: string, key: Option<string>, payload: Payload, status: Status, retry: nat)

  datatype Attempt = Attempt(
    saga: nat, step: Step, direction: StepDirection, number: nat, status: StepStatus, tx: Option<Id>)

  /** Saga and attempt ids are positions: rows are appended and never deleted. */
  datatype Tables = Tables(sagas: seq<SagaRow>, steps: seq<Attempt>, alerts: seq<nat>)

  datatype Transition = Transition(saga: nat, from: Status, to: Status, retry: nat)

  datatype StoreError = StaleTransition | DuplicateAttempt | SagaNotFound

  // ----- what each statement does to the tables -------------------------------------------------

  predicate CanAdvance(tb: Tables, t: Transition)
  {
    t.saga < |tb.sagas| && tb.sagas[t.saga].status == t.from
  }

  function Advanced(tb: Tables, t: Transition): Tables
    requires CanAdvance(tb, t)
  {
    tb.(sagas := tb.sagas[t.saga := tb.sagas[t.saga].(status := t.to, retry := t.retry)])
  }

  predicate SameNumber(a: Attempt, b: Attempt)
  {
    a.saga == b.saga && a.step == b.step && a.direction == b.direction && a.number == b.number
  }

  predicate CanInsert(steps: seq<Attempt>, a: Attempt)
  {
    forall k | 0 <= k < |steps| :: !SameNumber(steps[k], a)
  }

  function Escalated(tb: Tables, t: Transition): Tables
    requires CanAdvance(tb, t)
  {
    Advanced(tb, t).(alerts := tb.alerts + [t.saga])
  }

  predicate CanStep(tb: Tables, a: Attempt, t: Transition)
  {
    CanInsert(tb.steps, a) && CanAdvance(tb, t)
  }

  function Stepped(tb: Tables, a: Attempt, t: Transition): Tables
    requires CanStep(tb, a, t)
  {
    Advanced(tb, t).(steps := tb.steps + [a])
  }

  /** Only an open attempt can be closed, and closing it names no transaction. */
  function Finished(steps: seq<Attempt>, k: nat, status: StepStatus): seq<Attempt>
  {
    if k < |steps| && steps[k].status == Attempted then steps[k := steps[k].(status := status, tx := None)] else steps
  }

  predicate Committed(a: Attempt, saga: nat, step: Step, direction: StepDirection)
  {
    a.saga == saga && a.step == step && a.direction == direction && a.status == StepSucceeded && a.tx.Some?
  }

  /** The transaction a step committed, read from the saga's own history. */
  function FirstCommitted(steps: seq<Attempt>, saga: nat, step: Step, direction: StepDirection): (r: Option<Id>)
    ensures r.Some? <==> exists k | 0 <= k < |steps| :: Committed(steps[k], saga, step, direction)
  {
    if steps == [] then None
    else if Committed(steps[0], saga, step, direction) then steps[0].tx
    else
      assert forall k | 1 <= k < |steps| :: steps[k] == steps[1..][k - 1];
      FirstCommitted(steps[1..], saga, step, direction)
  }

  predicate IsOpen(a: Attempt, saga: nat, step: Step)
  {
    a.saga == saga && a.step == step && a.status == Attempted
  }

  /** The newest open attempt of a step. */
  function NewestOpen(steps: seq<Attempt>, saga: nat, step: Step): (r: Option<nat>)
    ensures r.Some? ==> r.value < |steps| && IsOpen(steps[r.value], saga, step)
  {
    if steps == [] then None
    else if IsOpen(steps[|steps| - 1], saga, step) then Some(|steps| - 1)
    else NewestOpen(steps[..|steps| - 1], saga, step)
  }

  /** A new saga, unless its principal already started one under this key. */
  function NewSaga(tb: Tables, principal: string, key: Option<string>, payload: Payload): Tables
  {
    if key.Some? && exists k | 0 <= k < |tb.sagas| :: tb.sagas[k].principal == principal && tb.sagas[k].key == key then tb
    else tb.(sagas := tb.sagas + [SagaRow(principal, key, payload, SagaPending, 0)])
  }

  // ----- how the history of a step reads after each statement ----------------------------------------

  lemma {:induction false} FirstCommittedSnoc(steps: seq<Attempt>, a: Attempt, saga: nat, step: Step, direction: StepDirection)
    ensures FirstCommitted(steps + [a], saga, step, direction) ==
            if FirstCommitted(steps, saga, step, direction).Some? then FirstCommitted(steps, saga, step, direction)
            else if Committed(a, saga, step, direction) then a.tx else None
  {
    if steps == [] {
      assert steps + [a] == [a];
    } else {
      assert (steps + [a])[1..] == steps[1..] + [a];
      FirstCommittedSnoc(steps[1..], a, saga, step, direction);
    }
  }

  lemma {:induction false} FirstCommittedFinished(
    steps: seq<Attempt>, k: nat, status: StepStatus, saga: nat, step: Step, direction: StepDirection)
    ensures FirstCommitted(Finished(steps, k, status), saga, step, direction) == FirstCommitted(steps, saga, step, direction)
  {
    if steps != [] && k < |steps| && steps[k].status == Attempted {
      if k > 0 {
        assert Finished(steps, k, status)[1..] == Finished(steps[1..], k - 1, status);
        FirstCommittedFinished(steps[1..], k - 1, status, saga, step, direction);
      } else {
        assert Finished(steps, k, status)[1..] == steps[1..];
      }
    }
  }

  // ----- the store ------------------------------------------------------------------------------------

  class Store {
    var sagas: seq<SagaRow>
    var steps: seq<Attempt>
    var alerts: seq<nat>

    function Rows(): Tables
      reads this
    {
      Tables(sagas, steps, alerts)
    }

    constructor ()
      ensures Rows() == Tables([], [], [])
    {
      sagas, steps, alerts := [], [], [];
    }

    /** Inserts a saga, or returns the one this principal already started under this key. */
    method Create(principal: string, key: Option<string>, payload: Payload) returns (id: nat)
      modifies this
      ensures Rows() == old(NewSaga(Rows(), principal, key, payload))
      ensures id < |sagas| && sagas[id].principal == principal && sagas[id].key == key
      ensures |sagas| > |old(sagas)| ==> id == |old(sagas)|
    {
      if key.Some? {
        id := 0;
        while id < |sagas|
          invariant id <= |sagas|
          invariant forall k | 0 <= k < id :: !(sagas[k].principal == principal && sagas[k].key == key)
        {
          if sagas[id].principal == principal && sagas[id].key == key {
            return;
          }
          id := id + 1;
        }
      }
      id := |sagas|;
      sagas := sagas + [SagaRow(principal, key, payload, SagaPending, 0)];
    }

    /** The guarded move: it applies only to the status its writer last saw. */
    method Advance(t: Transition) returns (r: Result<(), StoreError>)
      modifies this
      ensures r.Ok? <==> old(CanAdvance(Rows(), t))
      ensures Rows() == if r.Ok? then old(Advanced(Rows(), t)) else old(Rows())
      ensures r.Err? ==> r.error == StaleTransition
    {
      if t.saga >= |sagas| || sagas[t.saga].status != t.from {
        return Err(StaleTransition);
      }
      sagas := sagas[t.saga := sagas[t.saga].(status := t.to, retry := t.retry)];
      return Ok(());
    }

    method RecordAttempt(a: Attempt) returns (r: Result<(), StoreError>)
      modifies this`steps
      ensures r.Ok? <==> old(CanInsert(steps, a))
      ensures steps == if r.Ok? then old(steps) + [a] else old(steps)
      ensures r.Err? ==> r.error == DuplicateAttempt
    {
      for k := 0 to |steps|
        invariant steps == old(steps)
        invariant forall j | 0 <= j < k :: !SameNumber(steps[j], a)
      {
        if SameNumber(steps[k], a) {
          return Err(DuplicateAttempt);
        }
      }
      steps := steps + [a];
      return Ok(());
    }

    /** Attempt row and status move together or not at all: the shape of CommitStep and of BeginStep. */
    method InsertAndAdvance(a: Attempt, t: Transition) returns (r: Result<(), StoreError>)
      modifies this
      ensures r.Ok? <==> old(CanStep(Rows(), a, t))
      ensures Rows() == if r.Ok? then old(Stepped(Rows(), a, t)) else old(Rows())
      ensures r.Err? && r.error == DuplicateAttempt ==> !old(CanInsert(steps, a))
    {
      var before := steps;
      r := RecordAttempt(a);
      if r.Err? {
        return;
      }
      r := Advance(t);
      if r.Err? {
        steps := before;
      }
    }

    /** The alert and the status it announces commit together. */
    method Escalate(t: Transition) returns (r: Result<(), StoreError>)
      modifies this
      ensures r.Ok? <==> old(CanAdvance(Rows(), t))
      ensures Rows() == if r.Ok? then old(Escalated(Rows(), t)) else old(Rows())
    {
      r := Advance(t);
      if r.Ok? {
        alerts := alerts + [t.saga];
      }
    }

    method FinishAttempt(k: nat, status: StepStatus)
      modifies this`steps
      ensures steps == old(Finished(steps, k, status))
    {
      if k < |steps| && steps[k].status == Attempted {
        steps := steps[k := steps[k].(status := status, tx := None)];
      }
    }

    method UnresolvedAttempt(saga: nat, step: Step) returns (r: Option<nat>)
      ensures r == NewestOpen(steps, saga, step)
      ensures r.Some? ==> forall k | r.value < k < |steps| :: !IsOpen(steps[k], saga, step)
      ensures r.None? ==> forall k | 0 <= k < |steps| :: !IsOpen(steps[k], saga, step)
    {
      var k := |steps|;
      assert steps[..k] == steps;
      while k > 0
        invariant 0 <= k <= |steps|
        invariant forall j | k <= j < |steps| :: !IsOpen(steps[j], saga, step)
        invariant NewestOpen(steps, saga, step) == NewestOpen(steps[..k], saga, step)
      {
        k := k - 1;
        assert steps[..k + 1][..k] == steps[..k];
        if IsOpen(steps[k], saga, step) {
          return Some(k);
        }
      }
      return None;
    }

    /** A number above every number the step has used, and no higher than it need be. */
    method NextAttemptNumber(saga: nat, step: Step, direction: StepDirection) returns (n: nat)
      ensures n == NextNumber(steps, saga, step, direction)
    {
      n := 1;
      for k := 0 to |steps|
        invariant n == NextNumber(steps[..k], saga, step, direction)
      {
        assert steps[..k + 1][..k] == steps[..k];
        if steps[k].saga == saga && steps[k].step == step && steps[k].direction == direction && steps[k].number >= n {
          n := steps[k].number + 1;
        }
      }
      assert steps[..|steps|] == steps;
    }

    /** Finds the transaction the reserve step posted, which is the one a compensation reverses. */
    method ReserveTransactionId(saga: nat) returns (r: Option<Id>)
      ensures r == FirstCommitted(steps, saga, ReserveStep, Forward)
    {
      for k := 0 to |steps|
        invariant FirstCommitted(steps, saga, ReserveStep, Forward) == FirstCommitted(steps[k..], saga, ReserveStep, Forward)
      {
        assert steps[k..][0] == steps[k] && steps[k..][1..] == steps[k + 1..];
        if Committed(steps[k], saga, ReserveStep, Forward) {
          return steps[k].tx;
        }
      }
      return None;
    }
  }

  /** The number a row uses up at a step, if it belongs to it. */
  function NumberOf(a: Attempt, saga: nat, step: Step, direction: StepDirection): Option<nat>
  {
    if a.saga == saga && a.step == step && a.direction == direction then Some(a.number) else None
  }

  /** One above the highest number the step has used, and one if it has used none. */
  function NextNumber(steps: seq<Attempt>, saga: nat, step: Step, direction: StepDirection): (n: nat)
    ensures n >= 1
    ensures n == 1 || exists k | 0 <= k < |steps| :: NumberOf(steps[k], saga, step, direction) == Some(n - 1)
    ensures forall k | 0 <= k < |steps| && NumberOf(steps[k], saga, step, direction).Some? ::
              NumberOf(steps[k], saga, step, direction).value < n
  {
    if steps == [] then 1
    else
      var k := |steps| - 1;
      var n := NextNumber(steps[..k], saga, step, direction);
      if steps[k].saga == saga && steps[k].step == step && steps[k].direction == direction && steps[k].number >= n
      then steps[k].number + 1
      else n
  }

  /** The number just read is free, so an attempt nobody overtakes is never refused as a duplicate. */
  lemma {:induction false} NextNumberFree(steps: seq<Attempt>, a: Attempt)
    requires a.number >= NextNumber(steps, a.saga, a.step, a.direction)
    ensures CanInsert(steps, a)
  {
    if steps != [] {
      var k := |steps| - 1;
      NextNumberFree(steps[..k], a);
      assert forall j | 0 <= j < k :: steps[..k][j] == steps[j];
    }
  }
}
