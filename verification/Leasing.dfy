/** What the claims of outbox.js and webhook-worker.js share. */
module Leasing {
  import opened Wrappers

  /** Two minutes. */
  const LEASE_MS: int := 120_000

  predicate Earlier(a: (int, int), b: (int, int)) { a.0 < b.0 || (a.0 == b.0 && a.1 < b.1) }

  /** `order by ... limit 1`: a candidate than which no other comes earlier. */
  method Earliest(candidates: map<string, (int, int)>) returns (choice: Option<string>)
    ensures choice.None? <==> candidates == map[]
    ensures choice.Some? ==> choice.value in candidates
    ensures choice.Some? ==> forall id | id in candidates :: !Earlier(candidates[id], candidates[choice.value])
  {
    choice := None;
    var rest := candidates.Keys;
    while rest != {}
      invariant rest <= candidates.Keys
      invariant choice.None? ==> rest == candidates.Keys
      invariant choice.Some? ==> choice.value in candidates
      invariant choice.Some? ==> forall id | id in candidates && id !in rest :: !Earlier(candidates[id], candidates[choice.value])
      decreases rest
    {
      var id :| id in rest;
      rest := rest - {id};
      if choice.None? || Earlier(candidates[id], candidates[choice.value]) { choice := Some(id); }
    }
    if candidates != map[] {
      var id :| id in candidates;
      assert id in candidates.Keys;
    }
  }

  /** Every row but one is as it was, and none has come or gone. */
  predicate OnlyChanges<T(==)>(before: map<string, T>, after: map<string, T>, id: string) {
    after.Keys == before.Keys && id in after && forall other | other in before && other != id :: after[other] == before[other]
  }
}
