/**
 * Local time in an IANA zone, and the instant at which a zone shows a local time
 * (`zonedToUtc` in server/src/assistant-cron.ts).
 *
 * Instants and local times are milliseconds. A zone is its offset function
 * (`offsetAt`): what `Intl` answers for one instant is not modelled further.
 */
module TimeZones {
  import opened Options

  const MINUTE := 60_000
  const HOUR := 3_600_000
  const DAY := 86_400_000

  /** The offset in force at each instant, in ms, east positive. */
  type Zone = int -> int

  /**
   * What every IANA zone satisfies: offsets are whole seconds and shorter than a
   * day, they change on whole seconds only, and at most once in any 48 hours.
   */
  ghost predicate Admissible(z: Zone) {
    && (forall t :: -DAY < z(t) < DAY && z(t) % 1000 == 0)
    && (forall s, t :: s % 1000 == 0 && s <= t < s + 1000 ==> z(t) == z(s))
    && (forall a, b, c :: a <= b <= c <= a + 2 * DAY ==> z(b) == z(a) || z(b) == z(c))
  }

  /** The wall clock of zone `z` at instant `t`, as one number. */
  function Local(z: Zone, t: int): int {
    t + z(t)
  }

  /** `t` is the first instant at which the wall clock of `z` is at or past `local`. */
  ghost predicate FirstReaching(z: Zone, local: int, t: int) {
    && Local(z, t) >= local
    && forall u :: u < t ==> Local(z, u) < local
  }

  /** Inside the 48 hours around a local time only the offsets at its two ends occur. */
  lemma OffsetInWindow(z: Zone, local: int, t: int)
    requires Admissible(z)
    requires local - DAY <= t <= local + DAY
    ensures z(t) == z(local - DAY) || z(t) == z(local + DAY)
  {
  }

  /** An earlier instant whose clock is not behind `local` lies before the transition. */
  lemma EarlierCandidate(z: Zone, local: int, r: int, u: int)
    requires Admissible(z)
    requires Local(z, r) == local && u < r && Local(z, u) >= local
    ensures var off := z(local - DAY); local - off < r && z(local - off) == off
  {
    var a := local - DAY;
    assert z(r) > -DAY && z(u) < DAY;
    assert a < u < r < a + 2 * DAY;
    assert z(u) == z(a) || z(u) == z(r);
    var t := local - z(a);
    assert a <= t <= u;
    assert z(t) == z(a) || z(t) == z(u);
  }

  /** In a gap the clock jumps from the offset before it to a larger one after it. */
  lemma GapShape(z: Zone, local: int)
    requires Admissible(z)
    requires z(local - z(local - DAY)) != z(local - DAY)
    requires z(local - z(local + DAY)) != z(local + DAY)
    ensures z(local - DAY) < z(local + DAY)
    ensures z(local - z(local + DAY)) == z(local - DAY)
    ensures z(local - z(local - DAY)) == z(local + DAY)
  {
    var before, after := z(local - DAY), z(local + DAY);
    OffsetInWindow(z, local, local - before);
    OffsetInWindow(z, local, local - after);
    assert before > after ==> local - DAY <= local - before <= local - after;
    assert z(local - before) == after && z(local - after) == before;
  }

  /** Across the gap only the offsets at its two ends occur. */
  lemma GapWindow(z: Zone, local: int)
    requires Admissible(z)
    ensures forall t :: local - z(local + DAY) <= t <= local - z(local - DAY) ==>
            z(t) == z(local - DAY) || z(t) == z(local + DAY)
  {
    forall t | local - z(local + DAY) <= t <= local - z(local - DAY)
      ensures z(t) == z(local - DAY) || z(t) == z(local + DAY)
    {
      OffsetInWindow(z, local, t);
    }
  }

  /** What the bisection ends on: the second at which the offset changes is the answer. */
  lemma GapEnd(z: Zone, local: int, hi: int)
    requires Admissible(z)
    requires hi % 1000 == 0
    requires local - z(local + DAY) < hi <= local - z(local - DAY)
    requires z(hi - 1000) == z(local - DAY) && z(hi) == z(local + DAY)
    ensures FirstReaching(z, local, hi)
  {
    var a, before := local - DAY, z(local - DAY);
    forall u | u < hi
      ensures Local(z, u) < local
    {
      if u > a {
        var s := u - u % 1000;
        assert s <= hi - 1000;
        assert z(s) == z(u);
        if s >= a {
          assert z(s) == z(a) || z(s) == z(hi - 1000);
        } else {
          assert u - s < 1000;
          assert z(a) == before;
          assert z(u) == z(a) || z(u) == z(hi - 1000);
        }
      }
    }
  }

  /** The earliest of the candidate instants `local - off` whose own offset is `off`, if any. */
  method EarliestCandidate(z: Zone, local: int, offs: seq<int>) returns (r: Option<int>)
    ensures r.Some? ==> Local(z, r.value) == local
    ensures r.Some? ==> forall off <- offs :: z(local - off) == off ==> r.value <= local - off
    ensures r.None? ==> forall off <- offs :: z(local - off) != off
  {
    var candidates: seq<int> := [];
    for i := 0 to |offs|
      invariant forall c <- candidates :: Local(z, c) == local
      invariant forall k :: 0 <= k < i && z(local - offs[k]) == offs[k] ==> local - offs[k] in candidates
    {
      var t := local - offs[i];
      if z(t) == offs[i] {
        candidates := candidates + [t];
      }
    }
    if |candidates| == 0 {
      return None;
    }
    var least := candidates[0];
    for i := 1 to |candidates|
      invariant least in candidates
      invariant forall k :: 0 <= k < i ==> least <= candidates[k]
    {
      if candidates[i] < least {
        least := candidates[i];
      }
    }
    r := Some(least);
  }

  lemma MidBetween(lo: int, hi: int)
    requires lo % 1000 == 0 && hi % 1000 == 0 && hi - lo > 1000
    ensures var mid := (lo + hi) / 2000 * 1000; lo < mid < hi && mid % 1000 == 0
  {
    var a, b := lo / 1000, hi / 1000;
    assert lo == 1000 * a && hi == 1000 * b && b >= a + 2;
    assert (lo + hi) / 2000 == (a + b) / 2;
  }

  /** The second at which the offset changes between two instants on either side of a transition. */
  method Bisect(z: Zone, from: int, to: int) returns (hi: int)
    requires from % 1000 == 0 && to % 1000 == 0 && from < to
    requires z(from) != z(to)
    requires forall t :: from <= t <= to ==> z(t) == z(from) || z(t) == z(to)
    ensures from < hi <= to && hi % 1000 == 0
    ensures z(hi - 1000) == z(from) && z(hi) == z(to)
  {
    var lo := from;
    hi := to;
    var offLo := z(lo);
    while hi - lo > 1000
      invariant lo % 1000 == 0 && hi % 1000 == 0
      invariant from <= lo < hi <= to
      invariant z(lo) == offLo && z(hi) == z(to)
    {
      var mid := (lo + hi) / 2000 * 1000;
      MidBetween(lo, hi);
      if mid <= lo || mid >= hi {
        break;
      }
      if z(mid) == offLo {
        lo := mid;
      } else {
        hi := mid;
      }
    }
    assert hi - lo == 1000;
  }

  /** A candidate that shows `local`, the earlier one if both do, is the first instant to reach it. */
  lemma CandidateFirst(z: Zone, local: int, r: int)
    requires Admissible(z) && Local(z, r) == local
    requires var off := z(local - DAY); z(local - off) == off ==> r <= local - off
    ensures FirstReaching(z, local, r)
  {
    forall u | u < r
      ensures Local(z, u) < local
    {
      if Local(z, u) >= local {
        EarlierCandidate(z, local, r, u);
      }
    }
  }

  /** A gap's two ends, on whole seconds. */
  lemma GapEndsWhole(z: Zone, local: int)
    requires Admissible(z) && local % 1000 == 0
    ensures (local - z(local + DAY)) % 1000 == 0 && (local - z(local - DAY)) % 1000 == 0
  {
    assert z(local - DAY) % 1000 == 0 && z(local + DAY) % 1000 == 0;
  }

  /** What the bisection needs of a gap's two ends, and what they are. */
  lemma GapEnds(z: Zone, local: int, lo: int, hi: int)
    requires Admissible(z)
    requires z(local - z(local - DAY)) != z(local - DAY) && z(local - z(local + DAY)) != z(local + DAY)
    requires lo == local - z(local + DAY) && hi == local - z(local - DAY)
    ensures lo < hi && z(lo) == z(local - DAY) && z(hi) == z(local + DAY) && z(lo) != z(hi)
  {
    GapShape(z, local);
  }

  /** A local time that no candidate shows lies in a gap, whose end the bisection finds. */
  method EndOfGap(z: Zone, local: int, offBefore: int, offAfter: int) returns (r: int)
    requires Admissible(z) && local % 1000 == 0
    requires offBefore == z(local - DAY) && offAfter == z(local + DAY)
    requires z(local - offBefore) != offBefore && z(local - offAfter) != offAfter
    ensures FirstReaching(z, local, r)
  {
    GapShape(z, local);
    var lo0 := local - (if offBefore > offAfter then offBefore else offAfter);
    var hi0 := local - (if offBefore < offAfter then offBefore else offAfter);
    GapEnds(z, local, lo0, hi0);
    GapEndsWhole(z, local);
    GapWindow(z, local);
    var lo := if lo0 < hi0 then lo0 else hi0;
    var hi := if lo0 < hi0 then hi0 else lo0;
    r := Bisect(z, lo, hi);
    GapEnd(z, local, r);
  }

  /**
   * The instant at which the zone shows `local`: two candidate offsets are tried,
   * and when neither shows it the end of the gap is found by bisection.
   */
  method ZonedToUtc(z: Zone, local: int) returns (r: int)
    requires Admissible(z)
    requires local % 1000 == 0
    ensures FirstReaching(z, local, r)
  {
    var offBefore := z(local - DAY);
    var offAfter := z(local + DAY);
    var offs := if offBefore == offAfter then [offBefore] else [offBefore, offAfter];
    assert offBefore in offs && offAfter in offs by {
      assert offs[0] == offBefore && offs[|offs| - 1] == offAfter;
    }
    var candidate := EarliestCandidate(z, local, offs);
    if candidate.Some? {
      r := candidate.value;
      CandidateFirst(z, local, r);
    } else {
      r := EndOfGap(z, local, offBefore, offAfter);
    }
  }

  /** A local time is reached first at one instant only. */
  lemma FirstReachingUnique(z: Zone, local: int, t: int, u: int)
    requires FirstReaching(z, local, t) && FirstReaching(z, local, u)
    ensures t == u
  {
  }

  /** A later local time is never reached earlier: what the occurrence searches rest on. */
  lemma FirstReachingMonotone(z: Zone, local: int, t: int, local': int, t': int)
    requires FirstReaching(z, local, t) && FirstReaching(z, local', t')
    requires local <= local'
    ensures t <= t'
  {
    assert Local(z, t') >= local;
  }

  /**
   * A local time the zone shows at all (once, or twice in a fall-back overlap) maps
   * to the earliest instant showing it.
   */
  lemma ShownMapsToEarliest(z: Zone, local: int, r: int, t: int)
    requires Admissible(z) && FirstReaching(z, local, r)
    requires Local(z, t) == local
    ensures Local(z, r) == local && r <= t
  {
    assert Local(z, r - 1) < local;
    assert z(r) < DAY && z(t) > -DAY;
    assert r - 1 <= r <= t <= r - 1 + 2 * DAY;
    assert z(r) == z(r - 1) || z(r) == z(t);
  }

  /** A local time the clock jumps over maps to the instant of the jump. */
  lemma GapMapsToTransition(z: Zone, local: int, r: int)
    requires FirstReaching(z, local, r)
    requires forall t :: Local(z, t) != local
    ensures z(r - 1) < z(r)
    ensures Local(z, r - 1) < local < Local(z, r)
  {
    assert Local(z, r - 1) < local;
    assert Local(z, r) != local;
  }
}
