// The lease columns shared by the two work queues (enrichment_outbox and
// telegram_posts): attempts, claimed_at, failed_at and last_error, and the three
// statements that touch them. Instants are counted in microseconds, the resolution
// of a Postgres timestamptz; lease lengths arrive in whole seconds.
module Lease {
  import opened Wrappers

  type Time = int

  const SECOND: Time := 1_000_000

  datatype Stamp = Stamp(
    attempts: nat,
    claimedAt: Option<Time>,
    failedAt: Option<Time>,
    lastError: string
  )

  const FRESH := Stamp(0, None, None, "")

  predicate Claimable(s: Stamp, now: Time, leaseSeconds: nat) {
    && s.failedAt.None?
    && (s.claimedAt.None? || s.claimedAt.value < now - leaseSeconds * SECOND)
  }

  function Claim(s: Stamp, now: Time): Stamp {
    s.(claimedAt := Some(now))
  }

  function Fail(s: Stamp, now: Time, maxAttempts: int, error: string): Stamp {
    s.(attempts := s.attempts + 1,
       lastError := error,
       failedAt := if s.attempts + 1 >= maxAttempts then Some(now) else None)
  }

  // What a row's stamp must look like given the times it was claimed and how many of
  // those claims are still unreported. This is the per-row invariant of both queues.
  ghost predicate Consistent(s: Stamp, claims: seq<Time>, open: nat, now: Time, leaseSeconds: nat, maxAttempts: int) {
    && Spaced(claims, leaseSeconds)
    && (forall i :: 0 <= i < |claims| ==> claims[i] <= now)
    && s.claimedAt == (if claims == [] then None else Some(claims[|claims| - 1]))
    && s.attempts + open <= |claims|
    && (s.failedAt.Some? <==> s.attempts >= maxAttempts)
  }

  // Any two claims are more than one lease apart.
  ghost predicate Spaced(claims: seq<Time>, leaseSeconds: nat) {
    forall i, j :: 0 <= i < j < |claims| ==> claims[j] > claims[i] + leaseSeconds * SECOND
  }

  lemma ClaimKeepsConsistent(s: Stamp, claims: seq<Time>, open: nat, now: Time, leaseSeconds: nat, maxAttempts: int)
    requires Consistent(s, claims, open, now, leaseSeconds, maxAttempts)
    requires Claimable(s, now, leaseSeconds)
    ensures Consistent(Claim(s, now), claims + [now], open + 1, now, leaseSeconds, maxAttempts)
  {
    var after := claims + [now];
    forall i, j | 0 <= i < j < |after|
      ensures after[j] > after[i] + leaseSeconds * SECOND
    {
      if j == |claims| && i < |claims| - 1 {
        assert claims[|claims| - 1] > claims[i] + leaseSeconds * SECOND;
      }
    }
  }

  lemma FailKeepsConsistent(s: Stamp, claims: seq<Time>, open: nat, now: Time, leaseSeconds: nat, maxAttempts: int,
                            error: string)
    requires Consistent(s, claims, open, now, leaseSeconds, maxAttempts)
    requires open > 0
    ensures Consistent(Fail(s, now, maxAttempts, error), claims, open - 1, now, leaseSeconds, maxAttempts)
  {
  }
}
