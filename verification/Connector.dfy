/** External quality systems: an idempotent store behind an unreliable network, and the
    retry loop in front of it. */
module Connector {
  import opened Base

  /** Reference numbers are handed out in creation order. */
  datatype Record = Record(reference: nat, operation: string)

  datatype Store = Store(byKey: map<string, Record>)

  datatype Error = Retryable | Terminal | ManualReview

  /** One HTTP attempt: answered by the store; failed, with or without having reached the
      store; or broken off by an exception the executor does not know. */
  datatype Attempt = Answered | Failed(reached: bool, error: Error) | Broken(reached: bool)

  predicate Reaches(a: Attempt) {
    a.Answered? || a.reached
  }

  /** The store creates at most one record for a key and returns the recorded one from then on. */
  function Deliver(s: Store, key: string, operation: string): Store {
    if key in s.byKey then s else Store(s.byKey[key := Record(|s.byKey| + 1, operation)])
  }

  function Call(s: Store, key: string, operation: string, a: Attempt): Store {
    if Reaches(a) then Deliver(s, key, operation) else s
  }

  datatype Outcome =
    | Succeeded(reference: nat, attempts: nat)
    | GaveUp(error: Error, attempts: nat)
    | Raised

  /** How attempt k goes; past the end of the plan the network is healthy. */
  function Planned(plan: seq<Attempt>, k: nat): Attempt {
    if 1 <= k <= |plan| then plan[k - 1] else Answered
  }

  /** Attempts k, k + 1, ... up to the bound. */
  function Execute(s: Store, key: string, operation: string, plan: seq<Attempt>, k: nat, bound: nat): (r: (Store, Outcome))
    requires 1 <= k <= bound
    decreases bound - k
  {
    var a := Planned(plan, k);
    var t := Call(s, key, operation, a);
    match a
    case Answered => (t, Succeeded(t.byKey[key].reference, k))
    case Broken(_) => (t, Raised)
    case Failed(_, error) =>
      if error != Retryable || k == bound then (t, GaveUp(error, k))
      else Execute(t, key, operation, plan, k + 1, bound)
  }

  /** References are 1..n without repetition. */
  ghost predicate StoreOk(s: Store) {
    && (forall k | k in s.byKey :: 1 <= s.byKey[k].reference <= |s.byKey|)
    && (forall j, k | j in s.byKey && k in s.byKey && s.byKey[j].reference == s.byKey[k].reference :: j == k)
  }

  /** Records are never changed or removed, and only this key may be added. */
  ghost predicate Extends(s: Store, t: Store, key: string) {
    && (forall k | k in s.byKey :: k in t.byKey && t.byKey[k] == s.byKey[k])
    && (forall k | k in t.byKey :: k in s.byKey || k == key)
  }

  lemma DeliverKeeps(s: Store, key: string, operation: string)
    requires StoreOk(s)
    ensures StoreOk(Deliver(s, key, operation)) && Extends(s, Deliver(s, key, operation), key)
    ensures key in Deliver(s, key, operation).byKey
  {
  }

  /** The external effect of a whole retry loop: at most one record, for this key only, however
      many attempts timed out after the store had accepted the request. */
  lemma {:induction false} ExecuteIsExactlyOnce(s: Store, key: string, operation: string, plan: seq<Attempt>, k: nat, bound: nat)
    requires 1 <= k <= bound && StoreOk(s)
    ensures var (t, o) := Execute(s, key, operation, plan, k, bound);
      && StoreOk(t) && Extends(s, t, key)
      && (o.Succeeded? ==> key in t.byKey && t.byKey[key].reference == o.reference)
      && (!o.Raised? ==> k <= o.attempts <= bound)
    decreases bound - k
  {
    DeliverKeeps(s, key, operation);
    var t := Call(s, key, operation, Planned(plan, k));
    if Planned(plan, k).Failed? && Planned(plan, k).error == Retryable && k < bound {
      ExecuteIsExactlyOnce(t, key, operation, plan, k + 1, bound);
    }
  }

  lemma AtMostOneNewRecord(s: Store, t: Store, key: string)
    requires Extends(s, t, key)
    ensures |s.byKey| <= |t.byKey| <= |s.byKey| + 1
  {
    var a, b := s.byKey.Keys, t.byKey.Keys;
    assert a <= b <= a + {key};
    Smaller(a, b);
    Smaller(b, a + {key});
  }

  lemma Smaller(a: set<string>, b: set<string>)
    requires a <= b
    ensures |a| <= |b|
  {
    assert b == a + (b - a);
  }

  /** The loop stops at the first attempt that is not a retryable failure, or at the bound,
      and its outcome is decided by that attempt alone. */
  lemma {:induction false} ExecuteStopsAtFirstDecision(s: Store, key: string, operation: string, plan: seq<Attempt>, k: nat, bound: nat) returns (n: nat)
    requires 1 <= k <= bound
    ensures k <= n <= bound
    ensures forall j | k <= j < n :: Planned(plan, j).Failed? && Planned(plan, j).error == Retryable
    ensures n == bound || !Planned(plan, n).Failed? || Planned(plan, n).error != Retryable
    ensures var o := Execute(s, key, operation, plan, k, bound).1;
      match Planned(plan, n)
      case Answered => o.Succeeded? && o.attempts == n
      case Broken(_) => o == Raised
      case Failed(_, error) => o == GaveUp(error, n)
    decreases bound - k
  {
    var a := Planned(plan, k);
    if a.Failed? && a.error == Retryable && k < bound {
      n := ExecuteStopsAtFirstDecision(Call(s, key, operation, a), key, operation, plan, k + 1, bound);
    } else {
      n := k;
    }
  }

  /** Without any assumption on the store: a success reports the record under the key. */
  lemma {:induction false} SuccessIsRecorded(s: Store, key: string, operation: string, plan: seq<Attempt>, k: nat, bound: nat)
    requires 1 <= k <= bound
    ensures var (t, o) := Execute(s, key, operation, plan, k, bound);
      o.Succeeded? ==> key in t.byKey && t.byKey[key].reference == o.reference
    decreases bound - k
  {
    var a := Planned(plan, k);
    if a.Failed? && a.error == Retryable && k < bound {
      SuccessIsRecorded(Call(s, key, operation, a), key, operation, plan, k + 1, bound);
    }
  }

  /** The key has a record afterwards exactly when it had one or some attempt up to the deciding one
      reached the store; a new record carries the operation and the next reference. */
  lemma {:induction false} ExecuteRecordsWhatReached(s: Store, key: string, operation: string, plan: seq<Attempt>, k: nat, bound: nat, n: nat)
    requires 1 <= k <= n <= bound
    requires forall j | k <= j < n :: Planned(plan, j).Failed? && Planned(plan, j).error == Retryable
    requires n == bound || !Planned(plan, n).Failed? || Planned(plan, n).error != Retryable
    ensures var t := Execute(s, key, operation, plan, k, bound).0;
      && (key in t.byKey <==> key in s.byKey || exists j :: k <= j <= n && Reaches(Planned(plan, j)))
      && (key in t.byKey && key !in s.byKey ==> t.byKey[key] == Record(|s.byKey| + 1, operation))
    decreases bound - k
  {
    var t := Call(s, key, operation, Planned(plan, k));
    if k < n {
      ExecuteRecordsWhatReached(t, key, operation, plan, k + 1, bound, n);
      if Reaches(Planned(plan, k)) { KnownKeyChangesNothing(t, key, operation, plan, k + 1, bound); }
    }
  }

  /** Replaying after any outcome finds the record of the first success: the reference is stable. */
  lemma ReplayReturnsSameReference(s: Store, key: string, operation: string, other: string,
                                   plan: seq<Attempt>, again: seq<Attempt>, bound: nat)
    requires 1 <= bound && StoreOk(s)
    ensures var (t, o) := Execute(s, key, operation, plan, 1, bound);
      var (u, p) := Execute(t, key, other, again, 1, bound);
      && (o.Succeeded? && p.Succeeded? ==> p.reference == o.reference)
      && (key in t.byKey ==> u == t)
  {
    ExecuteIsExactlyOnce(s, key, operation, plan, 1, bound);
    var t := Execute(s, key, operation, plan, 1, bound).0;
    ExecuteIsExactlyOnce(t, key, other, again, 1, bound);
    if key in t.byKey { KnownKeyChangesNothing(t, key, other, again, 1, bound); }
  }

  lemma {:induction false} KnownKeyChangesNothing(s: Store, key: string, operation: string, plan: seq<Attempt>, k: nat, bound: nat)
    requires 1 <= k <= bound && key in s.byKey
    ensures Execute(s, key, operation, plan, k, bound).0 == s
    decreases bound - k
  {
    var a := Planned(plan, k);
    if a.Failed? && a.error == Retryable && k < bound {
      KnownKeyChangesNothing(s, key, operation, plan, k + 1, bound);
    }
  }

  /** The index by reference holds exactly the records. */
  ghost predicate Indexes(byReference: map<nat, Record>, byKey: map<string, Record>) {
    && (forall k | k in byKey :: byKey[k].reference in byReference && byReference[byKey[k].reference] == byKey[k])
    && (forall n | n in byReference :: byReference[n].reference == n && byReference[n] in byKey.Values)
  }

  lemma IndexKeeps(byReference: map<nat, Record>, byKey: map<string, Record>, key: string, record: Record)
    requires StoreOk(Store(byKey)) && Indexes(byReference, byKey)
    requires key !in byKey && record.reference == |byKey| + 1
    ensures Indexes(byReference[record.reference := record], byKey[key := record])
  {
    var index', table' := byReference[record.reference := record], byKey[key := record];
    forall n | n in index' ensures index'[n].reference == n && index'[n] in table'.Values {
      if n == record.reference {
        assert table'[key] == record;
      } else {
        var k :| k in byKey && byKey[k] == byReference[n];
        assert table'[k] == byReference[n];
      }
    }
  }

  // ---- the systems -------------------------------------------------------------------

  /** The mock external system, with its index by reference and its call log. */
  class MockStore {
    var byKey: map<string, Record>
    var byReference: map<nat, Record>
    var calls: seq<string>

    ghost predicate Valid()
      reads this
    {
      StoreOk(Store(byKey)) && Indexes(byReference, byKey)
    }

    constructor ()
      ensures Valid() && byKey == map[] && calls == []
    {
      byKey, byReference, calls := map[], map[], [];
    }

    /** One call; `timeout` asks the store to raise after committing a new record. */
    method Accept(key: string, operation: string, timeout: bool) returns (response: Option<Record>, deduplicated: bool)
      requires Valid()
      modifies this
      ensures Valid()
      ensures Store(byKey) == Deliver(old(Store(byKey)), key, operation)
      ensures calls == old(calls) + [key]
      ensures deduplicated == (key in old(byKey))
      ensures response.None? <==> timeout && key !in old(byKey)
      ensures response.Some? ==> key in byKey && response.value == byKey[key]
    {
      calls := calls + [key];
      deduplicated := key in byKey;
      if deduplicated {
        response := Some(byKey[key]);
        return;
      }
      var record := Record(|byKey| + 1, operation);
      DeliverKeeps(Store(byKey), key, operation);
      IndexKeeps(byReference, byKey, key, record);
      byKey := byKey[key := record];
      byReference := byReference[record.reference := record];
      response := if timeout then None else Some(record);
    }
  }

  class RetryingExecutor {
    const maxAttempts: nat

    constructor (maxAttempts: nat)
      requires maxAttempts >= 1
      ensures this.maxAttempts == maxAttempts
    {
      this.maxAttempts := maxAttempts;
    }

    /** Call until an answer, an error that must not be retried, or the last attempt. */
    method Run(store: MockStore, operation: string, key: string, plan: seq<Attempt>) returns (o: Outcome)
      requires maxAttempts >= 1 && store.Valid()
      modifies store
      ensures store.Valid()
      ensures (Store(store.byKey), o) == Execute(old(Store(store.byKey)), key, operation, plan, 1, maxAttempts)
      ensures |store.calls| <= |old(store.calls)| + maxAttempts
    {
      ghost var s0 := Store(store.byKey);
      var attempt := 1;
      while true
        invariant 1 <= attempt <= maxAttempts && store.Valid()
        invariant Execute(s0, key, operation, plan, 1, maxAttempts)
               == Execute(Store(store.byKey), key, operation, plan, attempt, maxAttempts)
        invariant |store.calls| <= |old(store.calls)| + attempt - 1
        decreases maxAttempts - attempt
      {
        var a := Planned(plan, attempt);
        if Reaches(a) {
          var _, _ := store.Accept(key, operation, false);
        }
        match a
        case Answered =>
          return Succeeded(store.byKey[key].reference, attempt);
        case Broken(_) =>
          return Raised;
        case Failed(_, error) =>
          if error != Retryable || attempt == maxAttempts {
            return GaveUp(error, attempt);
          }
        attempt := attempt + 1;
      }
    }
  }
}
