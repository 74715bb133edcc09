/** The end of a tick: the list comprehensions that drop out-of-bounds
    bullets, spent beams and warnings and expired drops; the loop that wraps
    regular enemies that left the screen and retires passing medics; and
    the checks for a won or lost level. */
module Cleanup {
  import opened Settings
  import opened Entities
  import opened Census
  import opened Pilots
  import opened Runs

  /** The elements of `s` that satisfy `keep`, in order. */
  function Filter<T(!new)>(s: seq<T>, keep: T -> bool): (r: seq<T>)
    ensures |r| <= |s|
    ensures forall x :: x in r <==> x in s && keep(x)
    ensures |s| == 1 ==> r == if keep(s[0]) then s else []
  {
    if s == [] then []
    else (if keep(s[0]) then [s[0]] else []) + Filter(s[1..], keep)
  }

  /** Filtering keeps the order: the kept elements of a concatenation are
      those of its first part followed by those of its second. */
  lemma {:induction false} FilterAppend<T(!new)>(a: seq<T>, b: seq<T>, keep: T -> bool)
    ensures Filter(a + b, keep) == Filter(a, keep) + Filter(b, keep)
    decreases |a|
  {
    if a == [] {
      assert a + b == b;
    } else {
      assert (a + b)[0] == a[0];
      assert (a + b)[1..] == a[1..] + b;
      FilterAppend(a[1..], b, keep);
      var head := if keep(a[0]) then [a[0]] else [];
      assert head + (Filter(a[1..], keep) + Filter(b, keep)) == (head + Filter(a[1..], keep)) + Filter(b, keep);
    }
  }

  /** Strictly inside the screen. */
  predicate InBounds(b: Bullet) {
    0.0 < b.x < SCREEN_WIDTH as real && 0.0 < b.y < SCREEN_HEIGHT as real
  }

  /** Beams and warnings stay until their draw call marks them done. */
  predicate Shining(l: Laser) { !l.done }
  predicate Showing(w: Warning) { !w.done }

  /** A drop disappears once it has been on screen for the despawn time. */
  predicate Fresh(d: Drop, now: int) {
    now - d.spawnTime < DROP_DESPAWN_TIME
  }

  /** The drop filter at time `now`. */
  function Unexpired(now: int): Drop -> bool {
    (d: Drop) => Fresh(d, now)
  }

  /** More than one full width beyond either edge of the screen. */
  predicate OffScreen(e: Enemy) {
    e.x < -(e.width as real) || e.x > (SCREEN_WIDTH + e.width) as real
  }

  /** A regular enemy that left the screen re-enters from the far side, one
      width beyond the edge; nothing but its x changes. */
  function Wrap(e: Enemy): (r: Enemy)
    ensures r == e.(x := r.x)
    ensures e.x < -(e.width as real) ==> r.x == (SCREEN_WIDTH + e.width) as real
    ensures -(e.width as real) <= e.x && e.x > (SCREEN_WIDTH + e.width) as real ==> r.x == -(e.width as real)
    ensures !OffScreen(e) ==> r == e
    ensures e.width >= 0 ==> !OffScreen(r)
  {
    if e.x < -(e.width as real) then e.(x := (SCREEN_WIDTH + e.width) as real)
    else if e.x > (SCREEN_WIDTH + e.width) as real then e.(x := -(e.width as real))
    else e
  }

  /** The recycling loop over the enemies: a medic off screen is taken out
      (and counted, for the pass-by reward), a regular enemy off screen is
      wrapped, and the boss and every on-screen enemy stay as they are.
      The result is the new list and the number of medics retired. */
  function Recycle(es: seq<Enemy>): (r: (seq<Enemy>, nat))
    ensures |r.0| + r.1 == |es|
    ensures (forall i :: 0 <= i < |es| ==> es[i].width >= 0) ==>
              forall i :: 0 <= i < |r.0| ==> !OffScreen(r.0[i]) || r.0[i].kind == Boss
    decreases |es|
  {
    if es == [] then ([], 0)
    else
      var (kept, passed) := Recycle(es[..|es| - 1]);
      var e := es[|es| - 1];
      if OffScreen(e) && e.kind == Medic then (kept, passed + 1)
      else if OffScreen(e) && e.kind != Boss then (kept + [Wrap(e)], passed)
      else (kept + [e], passed)
  }

  /** A medic off screen has flown past: it is retired. */
  predicate Passing(e: Enemy) {
    OffScreen(e) && e.kind == Medic
  }

  /** Every other enemy stays on the list. */
  predicate Staying(e: Enemy) {
    !Passing(e)
  }

  /** Where an enemy that stays comes back: the boss as it is, any other
      enemy wrapped (which leaves an on-screen enemy as it is). */
  function Return(e: Enemy): Enemy {
    if e.kind == Boss then e else Wrap(e)
  }

  /** `Return` applied to each enemy, in order. */
  function Returned(es: seq<Enemy>): (r: seq<Enemy>)
    ensures |r| == |es|
  {
    seq(|es|, i requires 0 <= i < |es| => Return(es[i]))
  }

  /** One step of the recycling loop, on the last enemy. */
  lemma RecycleLast(front: seq<Enemy>, e: Enemy)
    ensures Passing(e) ==> Recycle(front + [e]) == (Recycle(front).0, Recycle(front).1 + 1)
    ensures Staying(e) ==> Recycle(front + [e]) == (Recycle(front).0 + [Return(e)], Recycle(front).1)
  {
    assert (front + [e])[..|front + [e]| - 1] == front;
  }

  /** Recycling, stated against the list comprehensions it amounts to: the
      enemies that stay, in their order, each returned to the screen; and
      the number of medics that flew past. */
  lemma {:induction false} RecycleSpec(es: seq<Enemy>)
    ensures Recycle(es).0 == Returned(Filter(es, Staying))
    ensures Recycle(es).1 == |Filter(es, Passing)|
    decreases |es|
  {
    if es != [] {
      var front := es[..|es| - 1];
      assert es == front + [es[|es| - 1]];
      RecycleSpec(front);
      RecycleStep(front, es[|es| - 1]);
    }
  }

  /** The inductive step of RecycleSpec: adding one enemy at the back. */
  lemma RecycleStep(front: seq<Enemy>, e: Enemy)
    requires Recycle(front).0 == Returned(Filter(front, Staying))
    requires Recycle(front).1 == |Filter(front, Passing)|
    ensures Recycle(front + [e]).0 == Returned(Filter(front + [e], Staying))
    ensures Recycle(front + [e]).1 == |Filter(front + [e], Passing)|
  {
    RecycleLast(front, e);
    KeptStep(front, e);
    FilterAppend(front, [e], Passing);
  }

  /** The enemies that stay, with one more enemy at the back. */
  lemma KeptStep(front: seq<Enemy>, e: Enemy)
    ensures Returned(Filter(front + [e], Staying)) ==
              Returned(Filter(front, Staying)) + (if Staying(e) then [Return(e)] else [])
  {
    FilterAppend(front, [e], Staying);
    var a := Filter(front, Staying);
    if Staying(e) {
      ReturnedLast(a, e);
    } else {
      assert a + [] == a;
    }
  }

  /** Returning a list with one more enemy at the back. */
  lemma ReturnedLast(a: seq<Enemy>, e: Enemy)
    ensures Returned(a + [e]) == Returned(a) + [Return(e)]
  {
    assert forall i :: 0 <= i < |a| ==> (a + [e])[i] == a[i];
  }

  /** Recycling keeps the count of every kind but medics, and the number of
      medics retired is exactly the drop in their count: each pass-by is
      paid once because the medic is gone. */
  lemma {:induction false} RecycleCount(es: seq<Enemy>, k: Kind)
    ensures CountOf(Recycle(es).0, k) + (if k == Medic then Recycle(es).1 else 0) == CountOf(es, k)
    decreases |es|
  {
    if es != [] {
      var front := es[..|es| - 1];
      var e := es[|es| - 1];
      assert es == front + [e];
      RecycleCount(front, k);
      var kept := Recycle(front).0;
      CountOfAppend(front, [e], k);
      if OffScreen(e) && e.kind == Medic {
      } else if OffScreen(e) && e.kind != Boss {
        CountOfAppend(kept, [Wrap(e)], k);
      } else {
        CountOfAppend(kept, [e], k);
      }
    }
  }

  /** The census after recycling, for every kind at once. */
  lemma RecycleCensus(es: seq<Enemy>)
    ensures forall k :: k != Medic ==> CountOf(Recycle(es).0, k) == CountOf(es, k)
    ensures CountOf(Recycle(es).0, Medic) + Recycle(es).1 == CountOf(es, Medic)
    ensures RegularCount(Recycle(es).0) == RegularCount(es)
  {
    forall k ensures CountOf(Recycle(es).0, k) + (if k == Medic then Recycle(es).1 else 0) == CountOf(es, k) {
      RecycleCount(es, k);
    }
  }

  /** Recycling never wraps or removes the boss: every boss on the list is
      on the recycled list unchanged, wherever it is. */
  lemma {:induction false} BossStays(es: seq<Enemy>)
    ensures forall e :: e in es && e.kind == Boss ==> e in Recycle(es).0
    decreases |es|
  {
    if es != [] {
      var front := es[..|es| - 1];
      BossStays(front);
      assert es == front + [es[|es| - 1]];
    }
  }

  /** Once recycled, a list is left alone by a second pass: nothing is
      wrapped again and no medic is paid for twice. */
  lemma {:induction false} RecycleSettled(es: seq<Enemy>)
    requires forall i :: 0 <= i < |es| ==> es[i].width >= 0
    ensures Recycle(Recycle(es).0) == (Recycle(es).0, 0)
  {
    var kept := Recycle(es).0;
    Untouched(kept);
  }

  /** A list in which only the boss may be off screen is a fixed point. */
  lemma {:induction false} Untouched(es: seq<Enemy>)
    requires forall i :: 0 <= i < |es| ==> !OffScreen(es[i]) || es[i].kind == Boss
    ensures Recycle(es) == (es, 0)
    decreases |es|
  {
    if es != [] {
      Untouched(es[..|es| - 1]);
      assert es == es[..|es| - 1] + [es[|es| - 1]];
    }
  }

  /** The outcome of a tick. Crashed stands for the exception the source
      raises when one bullet removes itself twice. */
  datatype Outcome = Running | Won | Lost | Crashed

  /** The terminal checks: the level is lost when health is gone (even if
      the boss died in the same tick), won when the boss was summoned and
      the enemy list is empty. */
  function Judge(r: Run): (o: Outcome)
    ensures o == Lost <==> r.pilot.health <= 0
    ensures o == Won <==> r.pilot.health > 0 && r.bossActive && r.enemies == []
    ensures o != Crashed
  {
    if r.pilot.health <= 0 then Lost
    else if r.bossActive && r.enemies == [] then Won
    else Running
  }

  /** The list comprehensions of the cleanup block. */
  function Pruned(r: Run, now: int): Run {
    r.(bullets := Filter(r.bullets, InBounds),
       enemyBullets := Filter(r.enemyBullets, InBounds),
       lasers := Filter(r.lasers, Shining),
       warnings := Filter(r.warnings, Showing),
       drops := Filter(r.drops, Unexpired(now)))
  }

  /** The recycling loop with its pass-by reward. */
  function Recycled(r: Run): Run {
    var (es, passed) := Recycle(r.enemies);
    r.(enemies := es, pilot := r.pilot.(coins := r.pilot.coins + MEDIC_PASS_BY_REWARD * passed))
  }

  /** The cleanup block: bullets of both sides outside the screen, spent
      beams and warnings and expired drops are dropped; enemies are
      recycled, with 15 coins for every medic that flew past. */
  function Tidy(r: Run, now: int): (r': Run)
    ensures forall b :: b in r'.bullets <==> b in r.bullets && InBounds(b)
    ensures forall b :: b in r'.enemyBullets <==> b in r.enemyBullets && InBounds(b)
    ensures forall l :: l in r'.lasers <==> l in r.lasers && !l.done
    ensures forall w :: w in r'.warnings <==> w in r.warnings && !w.done
    ensures forall d :: d in r'.drops <==> d in r.drops && Fresh(d, now)
    ensures |r'.lasers| <= |r.lasers|
    ensures r'.pilot == r.pilot.(coins := r.pilot.coins + MEDIC_PASS_BY_REWARD * Recycle(r.enemies).1)
    ensures r'.enemies == Recycle(r.enemies).0
    ensures r'.bullets == Filter(r.bullets, InBounds) && r'.enemyBullets == Filter(r.enemyBullets, InBounds)
    ensures r'.lasers == Filter(r.lasers, Shining) && r'.warnings == Filter(r.warnings, Showing)
    ensures r'.drops == Filter(r.drops, Unexpired(now))
    ensures r' == r.(bullets := r'.bullets, enemyBullets := r'.enemyBullets, lasers := r'.lasers,
                     warnings := r'.warnings, drops := r'.drops, enemies := r'.enemies, pilot := r'.pilot)
  {
    Recycled(Pruned(r, now))
  }
}
