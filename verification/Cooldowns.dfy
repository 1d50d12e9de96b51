/** Cooldown marks: identifiers that stay blocked until an expiry instant. Times are nanoseconds. */
module Cooldowns {
  import opened Basics

  const DAY_MS: nat := 86_400_000

  datatype ErrorType = Tpm | Rpm | Tpd | Auth | Timeout | Parse | Other {
    function CooldownSecs(): nat {
      match this
      case Tpm => 60
      case Rpm => 60
      case Tpd => 3600
      case Auth => 300
      case Timeout => 30
      case Parse => 0
      case Other => 60
    }

    /** The error concerns the account behind the key rather than the model. */
    predicate AccountScoped() { Auth? || Rpm? || Tpm? || Tpd? }
  }

  type Marks = map<nat, int>

  /** The marks after an error on `id`; an error without a cooldown marks nothing. */
  function Marked(marks: Marks, id: nat, error: ErrorType, now: int): Marks {
    if error.CooldownSecs() == 0 then marks else marks[id := now + error.CooldownSecs() * SECOND]
  }

  /** A provider's own retry delay, at most a day. */
  function MarkedFor(marks: Marks, id: nat, ms: nat, now: int): Marks { marks[id := now + Min(ms, DAY_MS) * MILLI] }

  predicate Live(marks: Marks, id: nat, now: int) { id in marks && now < marks[id] }

  /** How long an error blocks: a minute for a short quota, an hour for a day's, and nothing for a bad answer. */
  lemma MarkLasts(marks: Marks, id: nat, error: ErrorType, now: int, at: int)
    requires now <= at && !Live(marks, id, at)
    ensures Live(Marked(marks, id, error, now), id, at) <==>
            at - now < 1_000_000_000 * match error
                                       case Rpm => 60
                                       case Tpm => 60
                                       case Tpd => 60 * 60
                                       case Auth => 5 * 60
                                       case Timeout => 30
                                       case Parse => 0
                                       case Other => 60
    ensures forall k :: k != id ==> Live(Marked(marks, id, error, now), k, at) == Live(marks, k, at)
    ensures error.AccountScoped() <==> error in {Rpm, Tpm, Tpd, Auth}
  {
  }

  /** A provider's delay blocks for that long, and for a day at most. */
  lemma DelayLasts(marks: Marks, id: nat, ms: nat, now: int, at: int)
    ensures Live(MarkedFor(marks, id, ms, now), id, at) <==>
            at - now < 1_000_000 * ms && at - now < 86_400 * 1_000_000_000
    ensures forall k :: k != id ==> Live(MarkedFor(marks, id, ms, now), k, at) == Live(marks, k, at)
  {
  }

  /** `after` is `before` with nothing but expired marks removed. */
  ghost predicate Purged(before: Marks, after: Marks, now: int) {
    (forall id :: id in after ==> id in before && after[id] == before[id]) &&
    (forall id :: id in before && now < before[id] ==> id in after)
  }

  /** Milliseconds left on the marks of `ids` that have not passed `now`, each rounded up past the boundary. */
  function Remaining(marks: Marks, ids: seq<nat>, now: int): set<nat> {
    set id | id in ids && id in marks && now <= marks[id] :: (marks[id] - now) / MILLI + 1
  }

  /** The part of `Remaining` that comes from marks still live at `now`. */
  function LiveRemaining(marks: Marks, ids: seq<nat>, now: int): set<nat> {
    set id | id in ids && id in marks && now < marks[id] :: (marks[id] - now) / MILLI + 1
  }

  predicate IsLeast(ms: Option<nat>, hints: set<nat>) {
    if hints == {} then ms.None? else ms.Some? && ms.value in hints && forall h :: h in hints ==> ms.value <= h
  }

  class RateLimitState {
    var limited: Marks

    constructor ()
      ensures limited == map[]
    {
      limited := map[];
    }

    method Mark(id: nat, error: ErrorType, now: int)
      modifies this
      ensures limited == Marked(old(limited), id, error, now)
    {
      var ttl := error.CooldownSecs();
      if ttl == 0 {
        return;
      }
      limited := limited[id := now + ttl * SECOND];
    }

    method MarkForMs(id: nat, ms: nat, now: int)
      modifies this
      ensures limited == MarkedFor(old(limited), id, ms, now)
    {
      limited := limited[id := now + Min(ms, DAY_MS) * MILLI];
    }

    /** Expired marks are removed when they are looked at. */
    method IsLimited(id: nat, now: int) returns (b: bool)
      modifies this
      ensures b == Live(old(limited), id, now)
      ensures limited == if b then old(limited) else old(limited) - {id}
    {
      if id !in limited {
        return false;
      }
      if now < limited[id] {
        return true;
      }
      limited := limited - {id};
      return false;
    }

    method Clear(id: nat)
      modifies this
      ensures limited == old(limited) - {id}
    {
      limited := limited - {id};
    }

    method MinRemainingMs(ids: seq<nat>, now: int) returns (ms: Option<nat>)
      ensures IsLeast(ms, Remaining(limited, ids, now))
    {
      ms := None;
      for i := 0 to |ids|
        invariant IsLeast(ms, Remaining(limited, ids[..i], now))
      {
        var id := ids[i];
        ghost var before := Remaining(limited, ids[..i], now);
        assert ids[..i + 1] == ids[..i] + [id];
        if id in limited && now <= limited[id] {
          var left := (limited[id] - now) / MILLI + 1;
          assert Remaining(limited, ids[..i + 1], now) == before + {left};
          if ms.None? || left < ms.value {
            ms := Some(left);
          }
        } else {
          assert Remaining(limited, ids[..i + 1], now) == before;
        }
      }
      assert ids[..|ids|] == ids;
    }
  }

  /** Purging changes no answer at `now` or later. */
  lemma PurgedLive(a: Marks, b: Marks, now: int, t: int)
    requires Purged(a, b, now) && now <= t
    ensures forall id :: Live(a, id, t) <==> Live(b, id, t)
  {
  }

  /** Purging can only lose the hint of a mark that expires at this very instant. */
  lemma PurgedRemaining(a: Marks, b: Marks, ids: seq<nat>, now: int)
    requires Purged(a, b, now)
    ensures LiveRemaining(a, ids, now) <= Remaining(b, ids, now) <= Remaining(a, ids, now)
  {
    forall h | h in LiveRemaining(a, ids, now)
      ensures h in Remaining(b, ids, now)
    {
      var id :| id in ids && id in a && now < a[id] && h == (a[id] - now) / MILLI + 1;
      assert id in b && b[id] == a[id];
    }
    forall h | h in Remaining(b, ids, now)
      ensures h in Remaining(a, ids, now)
    {
      var id :| id in ids && id in b && now <= b[id] && h == (b[id] - now) / MILLI + 1;
      assert id in a && a[id] == b[id];
    }
  }

  /** Soundness: a mark that is live now is still live a millisecond before the hint runs out. */
  lemma HintIsSound(marks: Marks, now: int, id: nat, hint: nat, t: int)
    requires Live(marks, id, now)
    requires hint <= (marks[id] - now) / MILLI + 1
    requires now <= t < now + (hint - 1) * MILLI
    ensures Live(marks, id, t)
  {
  }

  /** Tightness: when the hint has run out, a mark of the list has expired. */
  lemma HintIsTight(marks: Marks, ids: seq<nat>, now: int, hint: nat) returns (id: nat)
    requires hint in Remaining(marks, ids, now)
    ensures id in ids && id in marks && now <= marks[id] < now + hint * MILLI
    ensures !Live(marks, id, now + hint * MILLI)
  {
    id :| id in ids && id in marks && now <= marks[id] && (marks[id] - now) / MILLI + 1 == hint;
  }
}
