/** Periodic punctuation: when schedules fire and how their next fire time is resynced. */
module Punctuation {
  import opened Common

  type I64 = x: int | I64_MIN <= x <= I64_MAX
  /** A schedule interval; registering one below a millisecond panics. */
  type Millis = x: int | 1 <= x <= I64_MAX witness 1

  datatype PunctuationType = StreamTime | WallClockTime

  function Min(a: int, b: int): int {
    if a <= b then a else b
  }

  function SaturatingAdd(a: I64, b: I64): I64 {
    if a + b > I64_MAX then I64_MAX else if a + b < I64_MIN then I64_MIN else a + b
  }

  /** The next fire time after a fire at `now`: one interval on, or from `now` when the schedule
      fell a whole interval behind. */
  function Resync(next: I64, interval: Millis, now: I64): I64 {
    if now >= SaturatingAdd(next, interval) then SaturatingAdd(now, interval) else SaturatingAdd(next, interval)
  }

  /** The fire times of one schedule over the passes at `nows`. */
  function FireTimes(next: I64, interval: Millis, nows: seq<I64>): seq<I64> {
    if nows == [] then []
    else
      var before := FireTimes(next, interval, nows[..|nows| - 1]);
      var now := nows[|nows| - 1];
      if now >= NextTime(next, interval, nows[..|nows| - 1]) then before + [now] else before
  }

  /** Its next fire time after those passes. */
  function NextTime(next: I64, interval: Millis, nows: seq<I64>): I64 {
    if nows == [] then next
    else
      var before := NextTime(next, interval, nows[..|nows| - 1]);
      var now := nows[|nows| - 1];
      if now >= before then Resync(before, interval, now) else before
  }

  /** A fired schedule is next due within one interval after `now`; the next time lies above
      `now` unless the clock is at its end. */
  lemma ResyncWindow(next: I64, interval: Millis, now: I64)
    requires next <= now
    ensures now < I64_MAX <==> now < Resync(next, interval, now)
    ensures Resync(next, interval, now) <= now + interval
    ensures Resync(next, interval, now) >= Min(I64_MAX, next + interval)
    ensures Resync(next, interval, now) == Min(I64_MAX, interval + if now - next >= interval then now else next)
  {
  }

  /** Multiples of the interval, without the solver's product. */
  function Times(k: nat, interval: int): int {
    if k == 0 then 0 else Times(k - 1, interval) + interval
  }

  lemma {:induction false} TimesIsProduct(k: nat, interval: int)
    ensures Times(k, interval) == k * interval
  {
    if k > 0 {
      TimesIsProduct(k - 1, interval);
      assert k * interval == (k - 1) * interval + interval;
    }
  }

  /** What the fires so far say about the next fire time. */
  lemma {:induction false} NextTimeBounds(next: I64, interval: Millis, nows: seq<I64>)
    ensures var f, n := FireTimes(next, interval, nows), NextTime(next, interval, nows);
            && (|f| == 0 ==> n == next)
            && (|f| > 0 ==> n <= f[|f| - 1] + interval)
            && (n == I64_MAX || (&& n >= next + Times(|f|, interval)
                                 && (|f| > 0 ==> n > f[|f| - 1])
                                 && (|f| > 1 ==> n > f[|f| - 2] + interval)))
    decreases |nows|
  {
    if nows != [] {
      var init, now := nows[..|nows| - 1], nows[|nows| - 1];
      NextTimeBounds(next, interval, init);
      var before := NextTime(next, interval, init);
      if now >= before {
        ResyncWindow(before, interval, now);
      }
    }
  }

  /** The rate bound over every run of passes, with clocks that may also run backwards.  Counting
      from zero, fire `k` is no earlier than `next + k * interval`; each fire is later than the
      one before it; and three fires in a row span more than one interval.  Only fires at the
      very end of the clock, where times saturate, are excepted. */
  lemma {:induction false} RateBound(next: I64, interval: Millis, nows: seq<I64>, k: nat)
    requires k < |FireTimes(next, interval, nows)|
    ensures var f := FireTimes(next, interval, nows);
            f[k] == I64_MAX || (&& f[k] >= next + k * interval
                                && (k >= 1 ==> f[k - 1] < f[k])
                                && (k >= 2 ==> f[k] - f[k - 2] > interval))
    decreases |nows|
  {
    var init := nows[..|nows| - 1];
    var before := FireTimes(next, interval, init);
    if k < |before| {
      RateBound(next, interval, init, k);
    } else {
      NextTimeBounds(next, interval, init);
      TimesIsProduct(k, interval);
    }
  }

  /** One live schedule.  `id` stands for its identity, the cancellation flag it shares. */
  datatype Schedule = Schedule(id: nat, node: nat, interval: Millis, ty: PunctuationType, nextTime: I64,
    cancelled: bool)

  datatype Registration = Registration(node: nat, interval: Millis, ty: PunctuationType)

  /** What firing a punctuator and draining its forwards does: the new world, the schedules it
      registered and cancelled, and whether the drain succeeded. */
  datatype Reaction<W> = Reaction(world: W, registered: seq<Registration>, cancels: set<nat>, ok: bool)

  /** The life of a schedule: its first fire time, the passes of its type that found it live,
      and its fires. */
  datatype Life = Life(interval: Millis, ty: PunctuationType, first: I64, nows: seq<I64>, fired: seq<I64>)

  ghost predicate Kept(life: Life) {
    life.fired == FireTimes(life.first, life.interval, life.nows)
  }

  ghost predicate Sound(s: Schedule, life: Life) {
    && s.interval == life.interval && s.ty == life.ty
    && s.nextTime == NextTime(life.first, life.interval, life.nows)
  }

  /** Every schedule has a life of its own, and while no pass has failed it is the one that its
      next time and the life's fires tell. */
  ghost predicate Consistent(schedules: seq<Schedule>, lives: map<nat, Life>, healthy: bool) {
    && Distinct(schedules)
    && (forall i :: 0 <= i < |schedules| ==> schedules[i].id in lives)
    && (healthy ==> forall i :: 0 <= i < |schedules| ==> Sound(schedules[i], lives[schedules[i].id]))
    && (healthy ==> forall id :: id in lives ==> Kept(lives[id]))
  }

  lemma LifeConsistent(schedules: seq<Schedule>, lives: map<nat, Life>, healthy: bool, i: nat, life: Life,
      healthy': bool)
    requires Consistent(schedules, lives, healthy) && i < |schedules|
    requires healthy' ==> healthy && Sound(schedules[i], life) && Kept(life)
    ensures Consistent(schedules, lives[schedules[i].id := life], healthy')
  {
    if healthy' {
      forall j | 0 <= j < |schedules|
        ensures Sound(schedules[j], lives[schedules[i].id := life][schedules[j].id])
      {
        assert j != i ==> schedules[j].id != schedules[i].id;
      }
    }
  }

  lemma UpdateConsistent(schedules: seq<Schedule>, lives: map<nat, Life>, healthy: bool, i: nat, s: Schedule,
      life: Life, healthy': bool)
    requires Consistent(schedules, lives, healthy) && i < |schedules| && s.id == schedules[i].id
    requires healthy' ==> healthy && Sound(s, life) && Kept(life)
    ensures Consistent(schedules[i := s], lives[s.id := life], healthy')
  {
    var after, lives' := schedules[i := s], lives[s.id := life];
    if healthy' {
      forall j | 0 <= j < |after|
        ensures Sound(after[j], lives'[after[j].id])
      {
        assert j != i ==> schedules[j].id != schedules[i].id;
      }
    }
  }

  function Live(schedules: seq<Schedule>): (r: seq<Schedule>)
    ensures forall s :: s in r <==> s in schedules && !s.cancelled
  {
    if schedules == [] then []
    else
      var rest, last := Live(schedules[..|schedules| - 1]), schedules[|schedules| - 1];
      assert schedules == schedules[..|schedules| - 1] + [last];
      if last.cancelled then rest else rest + [last]
  }

  ghost predicate Distinct(schedules: seq<Schedule>) {
    forall i, j :: 0 <= i < j < |schedules| ==> schedules[i].id != schedules[j].id
  }

  lemma {:induction false} LiveDistinct(schedules: seq<Schedule>)
    requires Distinct(schedules)
    ensures Distinct(Live(schedules))
  {
    if schedules != [] {
      LiveDistinct(schedules[..|schedules| - 1]);
    }
  }

  lemma LiveConsistent(schedules: seq<Schedule>, lives: map<nat, Life>, healthy: bool)
    requires Consistent(schedules, lives, healthy)
    ensures Consistent(Live(schedules), lives, healthy)
  {
    LiveDistinct(schedules);
    var live := Live(schedules);
    forall i | 0 <= i < |live|
      ensures live[i].id in lives && (healthy ==> Sound(live[i], lives[live[i].id]))
    {
      assert live[i] in schedules;
    }
  }

  // ---- what a fire leaves behind ----

  /** A new schedule is first due one interval after its clock, or at the clock's end. */
  function New(r: Registration, streamTime: I64, wallClock: I64, id: nat): Schedule {
    var base := if r.ty.StreamTime? then streamTime else wallClock;
    Schedule(id, r.node, r.interval, r.ty, Min(I64_MAX, base + r.interval), false)
  }

  function AllNew(rs: seq<Registration>, streamTime: I64, wallClock: I64, nextId: nat): (r: seq<Schedule>)
    ensures |r| == |rs|
    ensures forall k :: 0 <= k < |rs| ==> r[k] == New(rs[k], streamTime, wallClock, nextId + k)
  {
    if rs == [] then []
    else
      var init, last := rs[..|rs| - 1], rs[|rs| - 1];
      AllNew(init, streamTime, wallClock, nextId) + [New(last, streamTime, wallClock, nextId + |init|)]
  }

  function Struck(s: Schedule, ids: set<nat>): Schedule {
    s.(cancelled := s.cancelled || s.id in ids)
  }

  ghost predicate AllStruck(before: seq<Schedule>, ids: set<nat>, after: seq<Schedule>) {
    |after| == |before| && forall i :: 0 <= i < |before| ==> after[i] == Struck(before[i], ids)
  }

  /** The schedules after a fire: the old ones in place and the registered ones behind them, in order,
      of which exactly those are cancelled now that were before or that the fire cancelled. */
  ghost predicate Reacted<W>(before: seq<Schedule>, r: Reaction<W>, streamTime: I64, wallClock: I64, nextId: nat,
      after: seq<Schedule>)
  {
    AllStruck(before + AllNew(r.registered, streamTime, wallClock, nextId), r.cancels, after)
  }

  /** The world after the schedules `ids` fired one after the other. */
  ghost function WorldAfter<W>(react: (W, nat, I64) -> Reaction<W>, w: W, ids: seq<nat>, now: I64): W {
    if ids == [] then w
    else react(WorldAfter(react, w, ids[..|ids| - 1], now), ids[|ids| - 1], now).world
  }

  ghost predicate Succeeds<W>(react: (W, nat, I64) -> Reaction<W>, w: W, ids: seq<nat>, now: I64, k: nat)
    requires k < |ids|
  {
    react(WorldAfter(react, w, ids[..k], now), ids[k], now).ok
  }

  /** The fires of a pass, each in the world that the one before it left.  All succeed but the last of
      a failed pass. */
  ghost predicate FiredInTurn<W>(react: (W, nat, I64) -> Reaction<W>, w: W, ids: seq<nat>, now: I64, w': W, ok: bool) {
    && w' == WorldAfter(react, w, ids, now)
    && (forall k :: 0 <= k < |ids| - 1 ==> Succeeds(react, w, ids, now, k))
    && (if ids == [] then ok else ok == Succeeds(react, w, ids, now, |ids| - 1))
  }

  lemma FiredOnce<W>(react: (W, nat, I64) -> Reaction<W>, w: W, ids: seq<nat>, now: I64, w': W, id: nat)
    requires FiredInTurn(react, w, ids, now, w', true)
    ensures FiredInTurn(react, w, ids + [id], now, react(w', id, now).world, react(w', id, now).ok)
  {
    var after := ids + [id];
    assert after[..|ids|] == ids;
    forall k | 0 <= k < |ids|
      ensures Succeeds(react, w, after, now, k)
    {
      assert after[..k] == ids[..k];
      assert Succeeds(react, w, ids, now, k);
    }
  }

  /** A schedule that is due on its turn fires, in the world of the moment, and no other does. */
  ghost predicate TurnRan<W>(react: (W, nat, I64) -> Reaction<W>, s: Schedule, w: W, life: Life, w': W, life': Life,
      ty: PunctuationType, now: I64, ok: bool)
  {
    var r := react(w, s.id, now);
    if s.ty == ty && !s.cancelled && now >= s.nextTime
    then ok == r.ok && w' == r.world && life'.fired == life.fired + [now]
    else ok && w' == w && life'.fired == life.fired
  }

  /** Every schedule has its life in both states. */
  ghost predicate Lived(schedules: seq<Schedule>, lives: map<nat, Life>, lives': map<nat, Life>) {
    forall j :: 0 <= j < |schedules| ==> schedules[j].id in lives && schedules[j].id in lives'
  }

  /** The schedules that fired between two states of their lives, in order. */
  ghost function FiredOf(schedules: seq<Schedule>, lives: map<nat, Life>, lives': map<nat, Life>): seq<nat>
    requires Lived(schedules, lives, lives')
  {
    if schedules == [] then []
    else
      var id := schedules[|schedules| - 1].id;
      FiredOf(schedules[..|schedules| - 1], lives, lives') + if lives'[id].fired != lives[id].fired then [id] else []
  }

  lemma {:induction false} FiredOfSame(schedules: seq<Schedule>, lives: map<nat, Life>, lives': map<nat, Life>,
      lives'': map<nat, Life>)
    requires Lived(schedules, lives, lives') && Lived(schedules, lives, lives'')
    requires forall j :: 0 <= j < |schedules| ==> lives''[schedules[j].id] == lives'[schedules[j].id]
    ensures FiredOf(schedules, lives, lives'') == FiredOf(schedules, lives, lives')
    decreases |schedules|
  {
    if schedules != [] {
      FiredOfSame(schedules[..|schedules| - 1], lives, lives', lives'');
    }
  }

  lemma {:induction false} FiredOfRest(schedules: seq<Schedule>, lives: map<nat, Life>, lives': map<nat, Life>, n: nat)
    requires n <= |schedules|
    requires Lived(schedules, lives, lives')
    requires forall j :: n <= j < |schedules| ==> lives'[schedules[j].id] == lives[schedules[j].id]
    ensures FiredOf(schedules, lives, lives') == FiredOf(schedules[..n], lives, lives')
    decreases |schedules|
  {
    if n < |schedules| {
      FiredOfRest(schedules[..|schedules| - 1], lives, lives', n);
      assert schedules[..|schedules| - 1][..n] == schedules[..n];
    } else {
      assert schedules[..n] == schedules;
    }
  }

  lemma FiredNext(i: nat, start: seq<Schedule>, lives0: map<nat, Life>, lives: map<nat, Life>, lives': map<nat, Life>)
    requires i < |start| && Lived(start, lives0, lives) && Lived(start, lives0, lives')
    requires forall j :: 0 <= j < i ==> lives'[start[j].id] == lives[start[j].id]
    ensures FiredOf(start[..i + 1], lives0, lives') == FiredOf(start[..i], lives0, lives)
      + if lives'[start[i].id].fired != lives0[start[i].id].fired then [start[i].id] else []
  {
    assert start[..i + 1][..i] == start[..i];
    FiredOfSame(start[..i], lives0, lives, lives');
  }

  /** A pass that fired in turn before the `i`-th turn did so after it. */
  lemma StaysInTurn<W>(react: (W, nat, I64) -> Reaction<W>, w0: W, i: nat, start: seq<Schedule>,
      lives0: map<nat, Life>, s: Schedule, w: W, lives: map<nat, Life>, w': W, lives': map<nat, Life>,
      ty: PunctuationType, now: I64, ok: bool)
    requires i < |start| && Lived(start, lives0, lives) && Lived(start, lives0, lives') && s.id == start[i].id
    requires forall j :: 0 <= j < |start| && j != i ==> lives'[start[j].id] == lives[start[j].id]
    requires forall j :: i <= j < |start| ==> lives[start[j].id] == lives0[start[j].id]
    requires FiredInTurn(react, w0, FiredOf(start[..i], lives0, lives), now, w, true)
    requires TurnRan(react, s, w, lives[s.id], w', lives'[s.id], ty, now, ok)
    ensures FiredInTurn(react, w0, FiredOf(start[..i + 1], lives0, lives'), now, w', ok)
    ensures FiredOf(start, lives0, lives') == FiredOf(start[..i + 1], lives0, lives')
  {
    var ids := FiredOf(start[..i], lives0, lives);
    FiredNext(i, start, lives0, lives, lives');
    FiredOfRest(start, lives0, lives', i + 1);
    FiredOnce(react, w0, ids, now, w, s.id);
    assert ids + [] == ids;
  }

  /** A clock's view of the schedules of one graph. */
  class Scheduler<W> {
    /** Fire the punctuator of schedule `id` at a timestamp, then drain what it forwarded. */
    const react: (W, nat, I64) -> Reaction<W>
    var world: W
    var schedules: seq<Schedule>
    var streamTime: I64
    var wallClock: I64
    var nextId: nat
    ghost var lives: map<nat, Life>
    /** No pass has failed so far. */
    ghost var healthy: bool

    ghost predicate Valid()
      reads this
    {
      && Consistent(schedules, lives, healthy)
      && (forall id :: id in lives ==> id < nextId)
    }

    constructor (react: (W, nat, I64) -> Reaction<W>, world: W)
      ensures Valid() && healthy && schedules == [] && lives == map[]
      ensures this.react == react && this.world == world && streamTime == I64_MIN && wallClock == 0
    {
      this.react := react;
      this.world := world;
      schedules, lives, nextId, healthy := [], map[], 0, true;
      streamTime, wallClock := I64_MIN, 0;
    }

    function Base(ty: PunctuationType): I64
      reads this
    {
      match ty
      case StreamTime => streamTime
      case WallClockTime => wallClock
    }

    /** `schedule`: the first fire time is one interval after the clock of the moment. */
    method Register(r: Registration) returns (id: nat)
      requires Valid()
      modifies this`schedules, this`nextId, this`lives
      ensures Valid()
      ensures id == old(nextId) && nextId == id + 1
      ensures schedules == old(schedules) + [Schedule(id, r.node, r.interval, r.ty,
        SaturatingAdd(Base(r.ty), r.interval), false)]
      ensures lives == old(lives)[id := Life(r.interval, r.ty, SaturatingAdd(Base(r.ty), r.interval), [], [])]
    {
      id := nextId;
      var next := SaturatingAdd(Base(r.ty), r.interval);
      schedules := schedules + [Schedule(id, r.node, r.interval, r.ty, next, false)];
      lives := lives[id := Life(r.interval, r.ty, next, [], [])];
      nextId := nextId + 1;
    }

    /** The registrations of one fire, in order. */
    method RegisterAll(rs: seq<Registration>)
      requires Valid()
      modifies this`schedules, this`nextId, this`lives
      ensures Valid() && nextId == old(nextId) + |rs|
      ensures schedules == old(schedules) + AllNew(rs, streamTime, wallClock, old(nextId))
      ensures old(lives).Keys <= lives.Keys && forall id :: id in old(lives) ==> lives[id] == old(lives)[id]
    {
      var k := 0;
      while k < |rs|
        invariant 0 <= k <= |rs|
        invariant Valid() && nextId == old(nextId) + k
        invariant schedules == old(schedules) + AllNew(rs[..k], streamTime, wallClock, old(nextId))
        invariant old(lives).Keys <= lives.Keys && forall id :: id in old(lives) ==> lives[id] == old(lives)[id]
      {
        var added := Register(rs[k]);
        assert rs[..k + 1][..k] == rs[..k];
        Regroup(old(schedules), AllNew(rs[..k], streamTime, wallClock, old(nextId)),
                [New(rs[k], streamTime, wallClock, added)]);
        k := k + 1;
      }
      assert rs[..|rs|] == rs;
    }

    /** Cancel the schedules whose handle is in `ids`. */
    method Cancel(ids: set<nat>)
      requires Valid()
      modifies this`schedules
      ensures Valid()
      ensures AllStruck(old(schedules), ids, schedules)
    {
      schedules := seq(|schedules|, i requires 0 <= i < |schedules| reads this => Struck(schedules[i], ids));
    }

    /** What a reaction does to the world and the schedules. */
    method Absorb(r: Reaction<W>)
      requires Valid()
      modifies this`world, this`schedules, this`nextId, this`lives
      ensures Valid() && world == r.world && nextId == old(nextId) + |r.registered|
      ensures Reacted(old(schedules), r, streamTime, wallClock, old(nextId), schedules)
      ensures Grown(old(schedules), old(lives), schedules, lives)
    {
      world := r.world;
      RegisterAll(r.registered);
      Cancel(r.cancels);
    }

    /** `fire_schedule`: the punctuator and everything its drain runs may register and cancel.
        The fire is entered in the schedule's life, ahead of the resync that accounts for it. */
    method Fire(i: nat, ts: I64) returns (ok: bool)
      requires Valid() && i < |schedules|
      modifies this`world, this`schedules, this`nextId, this`lives, this`healthy
      ensures ok == react(old(world), old(schedules)[i].id, ts).ok && !healthy && Valid()
      ensures var id := old(schedules)[i].id;
              && id in old(lives) && id in lives
              && Grown(old(schedules), old(lives), schedules, lives[id := old(lives)[id]])
              && Consistent(schedules, lives[id := old(lives)[id]], old(healthy))
              && lives[id] == old(lives)[id].(fired := old(lives)[id].fired + [ts])
      ensures var r := react(old(world), old(schedules)[i].id, ts);
              && world == r.world && nextId == old(nextId) + |r.registered|
              && Reacted(old(schedules), r, streamTime, wallClock, old(nextId), schedules)
    {
      var id := schedules[i].id;
      var r := react(world, id, ts);
      Absorb(r);
      ghost var life, before := lives[id], lives;
      LifeConsistent(schedules, lives, healthy, i, life.(fired := life.fired + [ts]), false);
      healthy, lives := false, lives[id := life.(fired := life.fired + [ts])];
      assert lives[id := life] == before;
      ok := r.ok;
    }

    /** One entry's turn in a firing pass. */
    method Turn(i: nat, ty: PunctuationType, now: I64) returns (ok: bool)
      requires Valid() && i < |schedules| && schedules[i].id in lives
      modifies this`world, this`schedules, this`nextId, this`lives, this`healthy
      ensures Valid() && (ok ==> healthy == old(healthy))
      ensures Turned(react, i, old(schedules), old(lives), old(world), schedules, lives, world, ty, now, ok)
    {
      if schedules[i].ty != ty || schedules[i].cancelled {
        return true;
      }
      var next, id := schedules[i].nextTime, schedules[i].id;
      ghost var life := lives[id];
      if now < next {
        ghost var life' := Observed(life, now, false);
        if healthy {
          ObservedKept(life, now, next);
        }
        LifeConsistent(schedules, lives, healthy, i, life', healthy);
        lives := lives[id := life'];
        return true;
      }
      ok := FireDue(i, now);
    }

    /** Fire a due schedule, then resync its next time; a failed fire skips the resync. */
    method FireDue(i: nat, now: I64) returns (ok: bool)
      requires Valid() && i < |schedules| && schedules[i].id in lives && now >= schedules[i].nextTime
      modifies this`world, this`schedules, this`nextId, this`lives, this`healthy
      ensures Valid() && i < |schedules| && schedules[i].id == old(schedules)[i].id && schedules[i].id in lives
      ensures OthersGrown(i, old(schedules), old(lives), schedules, lives)
      ensures ok ==> healthy == old(healthy)
      ensures var s := old(schedules)[i];
              && schedules[i] == s.(nextTime := if ok then Resync(s.nextTime, s.interval, now) else s.nextTime,
                                    cancelled := schedules[i].cancelled)
              && lives[s.id] == if ok then Observed(old(lives)[s.id], now, true)
                                else old(lives)[s.id].(fired := old(lives)[s.id].fired + [now])
      ensures var r := react(old(world), old(schedules)[i].id, now); ok == r.ok && world == r.world
    {
      var next, interval, id := schedules[i].nextTime, schedules[i].interval, schedules[i].id;
      ghost var life := lives[id];
      ghost var wasHealthy := healthy;
      ok := Fire(i, now);
      if !ok {
        return;
      }
      var resynced := schedules[i].(nextTime := if now >= SaturatingAdd(next, interval)
                                                then SaturatingAdd(now, interval)
                                                else SaturatingAdd(next, interval));
      ghost var life' := lives[id].(nows := life.nows + [now]);
      if wasHealthy {
        ObservedKept(life, now, next);
      }
      UpdateConsistent(schedules, lives[id := life], wasHealthy, i, resynced, life', wasHealthy);
      assert lives[id := life][id := life'] == lives[id := life'];
      schedules, lives, healthy := schedules[i := resynced], lives[id := life'], wasHealthy;
    }

    /** Every schedule in its turn.  Those registered meanwhile wait for the next pass. */
    method TakeTurns(ty: PunctuationType, now: I64) returns (ok: bool)
      requires Valid()
      modifies this`world, this`schedules, this`nextId, this`lives, this`healthy
      ensures Valid() && (ok ==> healthy == old(healthy))
      ensures Completed(react, old(world), old(schedules), old(lives), schedules, lives, world, ty, now, ok)
    {
      var n := |schedules|;
      var i := 0;
      while i < n
        invariant 0 <= i <= n == |old(schedules)|
        invariant Valid() && healthy == old(healthy)
        invariant Underway(react, old(world), i, old(schedules), old(lives), schedules, lives, world, ty, now)
      {
        ghost var before, livesBefore, worldBefore := schedules, lives, world;
        ok := Turn(i, ty, now);
        Advance(react, old(world), i, old(schedules), old(lives), before, livesBefore, worldBefore, schedules, lives,
                world, ty, now, ok);
        if !ok {
          return;
        }
        i := i + 1;
      }
      AllTurnsTaken(react, old(world), old(schedules), old(lives), schedules, lives, world, ty, now);
      ok := true;
    }

    /** `punctuate`: drop the cancelled schedules, then fire each due one of type `ty` at most
        once, at `now`. */
    method Punctuate(ty: PunctuationType, now: I64) returns (ok: bool)
      requires Valid()
      modifies this`world, this`schedules, this`nextId, this`lives, this`healthy
      ensures Valid() && (ok ==> healthy == old(healthy))
      ensures Completed(react, old(world), Live(old(schedules)), old(lives), schedules, lives, world, ty, now, ok)
    {
      LiveConsistent(schedules, lives, healthy);
      schedules := Live(schedules);
      ok := TakeTurns(ty, now);
    }

    /** `punctuate_stream_time`: stream time never falls. */
    method PunctuateStreamTime(t: I64) returns (ok: bool)
      requires Valid()
      modifies this
      ensures Valid() && streamTime >= old(streamTime) && streamTime >= t && streamTime in {old(streamTime), t}
      ensures ok ==> healthy == old(healthy)
      ensures Completed(react, old(world), Live(old(schedules)), old(lives), schedules, lives, world, StreamTime,
        streamTime, ok)
    {
      if t > streamTime {
        streamTime := t;
      }
      ok := Punctuate(StreamTime, streamTime);
    }

    /** `punctuate_wall_clock`: the clock is set as given, backwards too. */
    method PunctuateWallClock(now: I64) returns (ok: bool)
      requires Valid()
      modifies this
      ensures Valid() && wallClock == now
      ensures ok ==> healthy == old(healthy)
      ensures Completed(react, old(world), Live(old(schedules)), old(lives), schedules, lives, world, WallClockTime,
        now, ok)
    {
      wallClock := now;
      ok := Punctuate(WallClockTime, now);
    }

    /** In every run of successful passes, every schedule ever registered kept the rate bound. */
    lemma EveryScheduleKeepsRate(id: nat, k: nat)
      requires Valid() && healthy && id in lives && k < |lives[id].fired|
      ensures var life := lives[id];
              life.fired[k] == I64_MAX || (&& life.fired[k] >= life.first + k * life.interval
                                           && (k >= 1 ==> life.fired[k - 1] < life.fired[k])
                                           && (k >= 2 ==> life.fired[k] - life.fired[k - 2] > life.interval))
    {
      assert Kept(lives[id]);
      RateBound(lives[id].first, lives[id].interval, lives[id].nows, k);
    }
  }

  ghost function Observed(life: Life, now: I64, due: bool): Life {
    life.(nows := life.nows + [now], fired := if due then life.fired + [now] else life.fired)
  }

  lemma ObservedKept(life: Life, now: I64, next: I64)
    requires Kept(life) && next == NextTime(life.first, life.interval, life.nows)
    ensures var life' := Observed(life, now, now >= next);
            && Kept(life')
            && NextTime(life'.first, life'.interval, life'.nows)
              == if now >= next then Resync(next, life.interval, now) else next
  {
    assert (life.nows + [now])[..|life.nows|] == life.nows;
  }

  /** What a successful pass at `now` makes of a schedule that was live at its start: it fired
      once if due and was resynced, or not at all; only a schedule of the other type, or one
      that was cancelled before its turn, was passed over. */
  ghost predicate Passed(s: Schedule, life: Life, s': Schedule, life': Life, ty: PunctuationType, now: I64) {
    var due := now >= s.nextTime;
    && s' == s.(nextTime := s'.nextTime, cancelled := s'.cancelled)
    && (|| ((s.ty != ty || s'.cancelled) && life' == life && s'.nextTime == s.nextTime)
        || (&& s.ty == ty && life' == Observed(life, now, due)
            && s'.nextTime == if due then Resync(s.nextTime, s.interval, now) else s.nextTime))
  }

  /** A schedule whose fire failed: it fired, yet its next time is still the old one, so it is
      due again at once. */
  ghost predicate Unsynced(s: Schedule, life: Life, s': Schedule, life': Life, ty: PunctuationType, now: I64) {
    && s.ty == ty && now >= s'.nextTime == s.nextTime
    && life' == life.(fired := life.fired + [now])
  }

  /** After a successful pass every schedule of the type that was live throughout is next due
      above `now`, and one that fired at most an interval above it. */
  lemma PassedIsAhead(s: Schedule, life: Life, s': Schedule, life': Life, ty: PunctuationType, now: I64)
    requires Passed(s, life, s', life', ty, now) && s.ty == ty && !s'.cancelled
    ensures now < I64_MAX ==> s'.nextTime > now
    ensures now >= s.nextTime ==> s'.nextTime <= now + s.interval && life'.fired == life.fired + [now]
    ensures now < s.nextTime ==> s'.nextTime == s.nextTime && life'.fired == life.fired
  {
    if now >= s.nextTime {
      ResyncWindow(s.nextTime, s.interval, now);
    }
  }

  /** As `Grown`, except for the entry at `i`, whose turn it was. */
  ghost predicate OthersGrown(i: nat, before: seq<Schedule>, lives: map<nat, Life>, after: seq<Schedule>,
      lives': map<nat, Life>)
  {
    && |before| <= |after|
    && (forall j :: 0 <= j < |before| && j != i ==>
          after[j] == before[j].(cancelled := after[j].cancelled) && (before[j].cancelled ==> after[j].cancelled))
    && lives.Keys <= lives'.Keys
    && forall id :: id in lives && (i < |before| ==> id != before[i].id) ==> lives'[id] == lives[id]
  }

  /** A pass before its `i`-th turn: the entries ahead are as at the start, or cancelled since. */
  ghost predicate Progress(i: nat, start: seq<Schedule>, lives0: map<nat, Life>, schedules: seq<Schedule>,
      lives: map<nat, Life>, ty: PunctuationType, now: I64)
  {
    && |start| <= |schedules| && lives0.Keys <= lives.Keys
    && (forall j :: 0 <= j < |start| ==> start[j].id in lives0 && schedules[j].id == start[j].id)
    && (forall j :: 0 <= j < i && j < |start| ==>
      Passed(start[j], lives0[start[j].id], schedules[j], lives[start[j].id], ty, now))
    && (forall j :: i <= j < |start| ==>
          schedules[j] == start[j].(cancelled := schedules[j].cancelled) && lives[start[j].id] == lives0[start[j].id])
  }

  lemma Progresses(i: nat, start: seq<Schedule>, lives0: map<nat, Life>, before: seq<Schedule>, lives: map<nat, Life>,
      after: seq<Schedule>, lives': map<nat, Life>, ty: PunctuationType, now: I64)
    requires i < |start| && Distinct(before) && Progress(i, start, lives0, before, lives, ty, now)
    requires OthersGrown(i, before, lives, after, lives') && after[i].id == before[i].id
    ensures Passed(before[i], lives[before[i].id], after[i], lives'[after[i].id], ty, now) ==>
              Progress(i + 1, start, lives0, after, lives', ty, now)
    ensures |start| <= |after| && lives0.Keys <= lives'.Keys
    ensures forall j :: 0 <= j < |start| ==> start[j].id in lives0 && after[j].id == start[j].id
    ensures forall j :: 0 <= j < |start| && j != i ==> lives'[start[j].id] == lives[start[j].id]
  {
    forall j | 0 <= j < |start| && j != i
      ensures after[j].id == start[j].id && lives'[start[j].id] == lives[start[j].id]
    {
      assert before[j].id != before[i].id;
    }
  }

  /** A pass before its `i`-th turn, with what it has fired. */
  ghost predicate Underway<W>(react: (W, nat, I64) -> Reaction<W>, w0: W, i: nat, start: seq<Schedule>,
      lives0: map<nat, Life>, schedules: seq<Schedule>, lives: map<nat, Life>, w: W, ty: PunctuationType, now: I64)
  {
    && i <= |start| && Lived(start, lives0, lives) && Progress(i, start, lives0, schedules, lives, ty, now)
    && FiredInTurn(react, w0, FiredOf(start[..i], lives0, lives), now, w, true)
  }

  /** What a pass over the schedules `start` amounts to.  They stay in place, and those that fired did
      so in order, each in the world that the fires before it left.  A pass that succeeds passed every
      one of them; one that fails leaves a schedule that fired and is due still. */
  ghost predicate Completed<W>(react: (W, nat, I64) -> Reaction<W>, w0: W, start: seq<Schedule>,
      lives0: map<nat, Life>, schedules: seq<Schedule>, lives: map<nat, Life>, w: W, ty: PunctuationType, now: I64,
      ok: bool)
  {
    && |start| <= |schedules| && lives0.Keys <= lives.Keys && Lived(start, lives0, lives)
    && (forall j :: 0 <= j < |start| ==> schedules[j].id == start[j].id)
    && FiredInTurn(react, w0, FiredOf(start, lives0, lives), now, w, ok)
    && (ok ==> forall j {:trigger schedules[j]} :: 0 <= j < |start| ==>
          Passed(start[j], lives0[start[j].id], schedules[j], lives[start[j].id], ty, now))
    && (!ok ==> exists j :: && 0 <= j < |start|
                            && Unsynced(start[j], lives0[start[j].id], schedules[j], lives[start[j].id], ty, now))
  }

  /** The turn of entry `i`: it was passed, or its fire failed, and the other entries only grew. */
  ghost predicate Turned<W>(react: (W, nat, I64) -> Reaction<W>, i: nat, before: seq<Schedule>, lives: map<nat, Life>,
      w: W, after: seq<Schedule>, lives': map<nat, Life>, w': W, ty: PunctuationType, now: I64, ok: bool)
  {
    && i < |before| && i < |after| && after[i].id == before[i].id && after[i].id in lives && after[i].id in lives'
    && OthersGrown(i, before, lives, after, lives')
    && TurnRan(react, before[i], w, lives[before[i].id], w', lives'[after[i].id], ty, now, ok)
    && (ok ==> Passed(before[i], lives[before[i].id], after[i], lives'[after[i].id], ty, now))
    && (!ok ==> Unsynced(before[i], lives[before[i].id], after[i], lives'[after[i].id], ty, now))
  }

  /** One turn takes a pass a step on, or ends it. */
  lemma {:induction false} Advance<W>(react: (W, nat, I64) -> Reaction<W>, w0: W, i: nat, start: seq<Schedule>,
      lives0: map<nat, Life>, before: seq<Schedule>, lives: map<nat, Life>, w: W, after: seq<Schedule>,
      lives': map<nat, Life>, w': W, ty: PunctuationType, now: I64, ok: bool)
    requires i < |start| && Distinct(before) && Underway(react, w0, i, start, lives0, before, lives, w, ty, now)
    requires Turned(react, i, before, lives, w, after, lives', w', ty, now, ok)
    ensures ok ==> Underway(react, w0, i + 1, start, lives0, after, lives', w', ty, now)
    ensures !ok ==> Completed(react, w0, start, lives0, after, lives', w', ty, now, ok)
  {
    Progresses(i, start, lives0, before, lives, after, lives', ty, now);
    StaysInTurn(react, w0, i, start, lives0, before[i], w, lives, w', lives', ty, now, ok);
    assert !ok ==> Unsynced(start[i], lives0[start[i].id], after[i], lives'[start[i].id], ty, now);
  }

  lemma AllTurnsTaken<W>(react: (W, nat, I64) -> Reaction<W>, w0: W, start: seq<Schedule>, lives0: map<nat, Life>,
      schedules: seq<Schedule>, lives: map<nat, Life>, w: W, ty: PunctuationType, now: I64)
    requires Underway(react, w0, |start|, start, lives0, schedules, lives, w, ty, now)
    ensures Completed(react, w0, start, lives0, schedules, lives, w, ty, now, true)
  {
    assert start[..|start|] == start;
  }

  /** Schedules were added at the end and cancelled in place; nothing else about the old ones
      changed. */
  ghost predicate Grown(before: seq<Schedule>, lives: map<nat, Life>, after: seq<Schedule>, lives': map<nat, Life>) {
    && |before| <= |after|
    && (forall i :: 0 <= i < |before| ==>
          after[i] == before[i].(cancelled := after[i].cancelled) && (before[i].cancelled ==> after[i].cancelled))
    && lives.Keys <= lives'.Keys
    && forall id :: id in lives ==> lives'[id] == lives[id]
  }
}
