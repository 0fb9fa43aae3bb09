/** The table of pending OAuth logins. */
module OAuthStore {
  import opened Prelude
  import opened Requests

  /** The table without the attempts that have expired by now. */
  function Pruned(attempts: map<string, Attempt>, now: int): map<string, Attempt> {
    map state | state in attempts && now <= attempts[state].expiresAt :: attempts[state]
  }

  /** put: refused when the pruned table is full. */
  function PutInto(attempts: map<string, Attempt>, max: int, state: string, attempt: Attempt, now: int): (map<string, Attempt>, bool) {
    var kept := Pruned(attempts, now);
    if max > 0 && |kept| >= max then (kept, false) else (kept[state := attempt], true)
  }

  /** take: the attempt leaves the table with the answer. */
  function TakeFrom(attempts: map<string, Attempt>, state: string, now: int): (map<string, Attempt>, Option<Attempt>) {
    var kept := Pruned(attempts, now);
    (kept - {state}, if state in kept then Some(kept[state]) else None)
  }

  lemma PrunedIsSmaller(attempts: map<string, Attempt>, now: int)
    ensures |Pruned(attempts, now)| <= |attempts|
  {
    SubsetIsSmaller(Pruned(attempts, now).Keys, attempts.Keys);
  }

  lemma {:induction false} SubsetIsSmaller<T>(a: set<T>, b: set<T>)
    requires a <= b
    ensures |a| <= |b|
  {
    if x :| x in a {
      SubsetIsSmaller(a - {x}, b - {x});
    }
  }

  /** The table never outgrows its capacity, what is stored is found again until it expires, and a login is refused
      exactly when that many unexpired ones are there. */
  lemma PutBounded(attempts: map<string, Attempt>, max: int, state: string, attempt: Attempt, now: int)
    requires max > 0 && |attempts| <= max
    ensures |PutInto(attempts, max, state, attempt, now).0| <= max
    ensures forall later: int ::
      PutInto(attempts, max, state, attempt, now).1 && later <= attempt.expiresAt ==>
        TakeFrom(PutInto(attempts, max, state, attempt, now).0, state, later).1 == Some(attempt)
    ensures PutInto(attempts, max, state, attempt, now).1 <==>
      |set other | other in attempts && now <= attempts[other].expiresAt| < max
  {
    PrunedIsSmaller(attempts, now);
    var kept := Pruned(attempts, now);
    assert kept.Keys == set other | other in attempts && now <= attempts[other].expiresAt;
    assert |kept| == |kept.Keys|;
    assert kept[state := attempt].Keys == kept.Keys + {state};
  }

  /** What is taken was stored, has not expired, and is gone afterwards. */
  lemma TakeRemoves(attempts: map<string, Attempt>, state: string, now: int)
    ensures var (rest, taken) := TakeFrom(attempts, state, now);
      && state !in rest && |rest| <= |attempts|
      && (taken.Some? <==> state in attempts && now <= attempts[state].expiresAt)
      && (taken.Some? ==> taken.value == attempts[state])
      && (forall other | other in rest :: other in attempts && rest[other] == attempts[other])
  {
    SubsetIsSmaller(TakeFrom(attempts, state, now).0.Keys, attempts.Keys);
  }

  class PanelOAuthStore {
    var attempts: map<string, Attempt>
    const max: int

    constructor (max: int)
      ensures attempts == map[] && this.max == max
    {
      attempts, this.max := map[], max;
    }

    /** pruneLocked: ranges over the table in any order and deletes what has expired. */
    method Prune(now: int)
      modifies this`attempts
      ensures attempts == Pruned(old(attempts), now)
    {
      var pending := attempts.Keys;
      while pending != {}
        invariant pending <= attempts.Keys
        invariant attempts.Keys <= old(attempts.Keys)
        invariant forall state | state in attempts :: attempts[state] == old(attempts)[state]
        invariant forall state | state in old(attempts) && state !in pending ::
                    state in attempts <==> now <= old(attempts)[state].expiresAt
        decreases |pending|
      {
        var state :| state in pending;
        if now > attempts[state].expiresAt {
          attempts := attempts - {state};
        }
        pending := pending - {state};
      }
    }

    method Put(state: string, attempt: Attempt, now: int) returns (stored: bool)
      modifies this`attempts
      ensures (attempts, stored) == PutInto(old(attempts), max, state, attempt, now)
    {
      Prune(now);
      if max > 0 && |attempts| >= max {
        return false;
      }
      attempts := attempts[state := attempt];
      return true;
    }

    method Take(state: string, now: int) returns (taken: Option<Attempt>)
      modifies this`attempts
      ensures (attempts, taken) == TakeFrom(old(attempts), state, now)
    {
      Prune(now);
      taken := None;
      if state in attempts {
        taken := Some(attempts[state]);
      }
      attempts := attempts - {state};
    }

    method Clear()
      modifies this`attempts
      ensures attempts == map[]
    {
      attempts := map[];
    }
  }
}
