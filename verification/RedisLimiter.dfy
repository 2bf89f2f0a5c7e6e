/** The shared rate limiter (app/ratelimit/limiter.py:81-110) as an interleaving of its awaits: any
    number of workers stamp a window from one clock, INCR its counter, and EXPIRE it when they were first.
    `punctual` is the assumption that every INCR lands before its stamped window is over. */
module RedisLimiter {
  import opened Common

  /** The setting, the window length in whole seconds, and whether INCRs land in time. */
  datatype Config = Config(limit: nat, window: nat, punctual: bool)

  /** A Redis key: `ratelimit:{key}:{window_start}`. */
  datatype Slot = Slot(key: string, start: int)

  datatype Counter = Counter(count: nat, expiry: Option<real>)

  datatype Worker = Stamped(slot: Slot) | Counted(slot: Slot, count: nat)

  /** History: one INCR, when it landed and what it was answered. */
  datatype Served = Served(slot: Slot, at: real, allowed: bool)

  datatype State = State(clock: real, counters: map<Slot, Counter>, workers: map<nat, Worker>, served: seq<Served>)

  datatype Event =
    | Tick(to: real)
    | Stamp(worker: nat, key: string)
    | Incr(worker: nat)
    | Expire(worker: nat)
    | Leave(worker: nat)    // returns its answer, or dies

  ghost const ORIGIN := State(0.0, map[], map[], [])

  /** now - now % window for the whole second `clock` is in. */
  function WindowStart(clock: real, window: nat): int
    requires window >= 1
  {
    clock.Floor - clock.Floor % window
  }

  /** Redis still holds the key. */
  predicate Live(c: Option<Counter>, clock: real) {
    c.Some? && (c.value.expiry.Some? ==> clock < c.value.expiry.value)
  }

  function Bumped(c: Option<Counter>, clock: real): Counter {
    if Live(c, clock) then c.value.(count := c.value.count + 1) else Counter(1, None)
  }

  function Held(s: State, slot: Slot): Option<Counter> {
    if slot in s.counters then Some(s.counters[slot]) else None
  }

  predicate Enabled(cfg: Config, s: State, e: Event) {
    cfg.window >= 1 &&
    match e
    case Tick(to) => to >= s.clock
    case Stamp(w, _) => w !in s.workers
    case Incr(w) => w in s.workers && s.workers[w].Stamped?
                    && (cfg.punctual ==> s.clock < (s.workers[w].slot.start + cfg.window) as real)
    case Expire(w) => w in s.workers && s.workers[w].Counted? && s.workers[w].count == 1
    case Leave(w) => w in s.workers
  }

  function Apply(cfg: Config, s: State, e: Event): State
    requires Enabled(cfg, s, e)
  {
    match e
    case Tick(to) => s.(clock := to)
    case Stamp(w, key) => s.(workers := s.workers[w := Stamped(Slot(key, WindowStart(s.clock, cfg.window)))])
    case Incr(w) =>
      var slot := s.workers[w].slot;
      var c := Bumped(Held(s, slot), s.clock);
      s.(counters := s.counters[slot := c],
         workers := s.workers[w := Counted(slot, c.count)],
         served := s.served + [Served(slot, s.clock, c.count <= cfg.limit)])
    case Expire(w) =>
      var slot := s.workers[w].slot;
      if Live(Held(s, slot), s.clock)
      then s.(counters := s.counters[slot := s.counters[slot].(expiry := Some(s.clock + cfg.window as real))])
      else s
    case Leave(w) => s.(workers := s.workers - {w})
  }

  function Exec(cfg: Config, s: State, es: seq<Event>): Option<State>
    decreases |es|
  {
    if es == [] then Some(s)
    else
      match Exec(cfg, s, es[..|es| - 1])
      case None => None
      case Some(t) => if Enabled(cfg, t, es[|es| - 1]) then Some(Apply(cfg, t, es[|es| - 1])) else None
  }

  function Hits(served: seq<Served>, slot: Slot): nat {
    if served == [] then 0
    else Hits(served[..|served| - 1], slot) + (if served[|served| - 1].slot == slot then 1 else 0)
  }

  function Accepted(served: seq<Served>, slot: Slot): nat {
    if served == [] then 0
    else Accepted(served[..|served| - 1], slot)
         + (if served[|served| - 1].slot == slot && served[|served| - 1].allowed then 1 else 0)
  }

  /** Accepted requests of a key whose INCR landed in [from, to). */
  function AcceptedIn(served: seq<Served>, key: string, from: real, to: real): nat {
    if served == [] then 0
    else
      var x := served[|served| - 1];
      AcceptedIn(served[..|served| - 1], key, from, to)
      + (if x.slot.key == key && x.allowed && from <= x.at < to then 1 else 0)
  }

  function Min(a: nat, b: nat): nat {
    if a <= b then a else b
  }

  predicate Inside(cfg: Config, x: Served) {
    cfg.window >= 1 && x.slot.start == WindowStart(x.at, cfg.window)
  }

  /** A counter holds every hit its window has had: it cannot have been expired under a live window. */
  ghost predicate SlotSound(cfg: Config, s: State, slot: Slot) {
    && (match Held(s, slot)
        case None => Hits(s.served, slot) == 0
        case Some(c) => c.count == Hits(s.served, slot)
                        && (c.expiry.Some? ==> c.expiry.value >= (slot.start + cfg.window) as real))
    && Accepted(s.served, slot) == Min(cfg.limit, Hits(s.served, slot))
  }

  ghost predicate Inv(cfg: Config, s: State) {
    && cfg.window >= 1 && cfg.punctual
    && (forall slot :: SlotSound(cfg, s, slot))
    && (forall w :: w in s.workers ==> s.workers[w].slot.start as real <= s.clock)
    && (forall w :: w in s.workers ==> s.workers[w].slot.start % cfg.window == 0)
    && (forall i :: 0 <= i < |s.served| ==> Inside(cfg, s.served[i]))
  }

  // ---------------------------------------------------------------- aligned windows

  lemma Scale(a: int, b: int, d: nat)
    ensures a <= b ==> a * d <= b * d
  {
  }

  /** Division with remainder, its four results named. */
  lemma NextQuotient(n: int, m: int, d: nat, p: int, q: int, x: int, y: int, pd: int, qd: int)
    requires d >= 1 && n <= m <= n + d && pd == p * d && qd == q * d
    requires n == pd + x && 0 <= x < d && m == qd + y && 0 <= y < d
    ensures q == p || q == p + 1
  {
    if q < p {
      Scale(q + 1, p, d);
      OneMoreMultiple(q, d);
    } else if q > p + 1 {
      Scale(p + 2, q, d);
      OneMoreMultiple(p, d);
      OneMoreMultiple(p + 1, d);
    }
  }

  lemma OneMoreMultiple(q: int, d: nat)
    ensures (q + 1) * d == q * d + d
  {
  }

  lemma Divided(n: int, d: nat)
    requires d >= 1
    ensures n == (n / d) * d + n % d && 0 <= n % d < d
  {
  }

  lemma QuotientSteps(n: int, m: int, d: nat)
    requires d >= 1 && n <= m <= n + d
    ensures m / d == n / d || m / d == n / d + 1
  {
    Divided(n, d);
    Divided(m, d);
    NextQuotient(n, m, d, n / d, m / d, n % d, m % d, (n / d) * d, (m / d) * d);
  }

  lemma WindowHolds(clock: real, window: nat)
    requires window >= 1
    ensures WindowStart(clock, window) as real <= clock < (WindowStart(clock, window) + window) as real
    ensures WindowStart(clock, window) % window == 0
  {
    var n := clock.Floor;
    Divided(n, window);
    MultipleHasNoRemainder(n / window, window);
    assert WindowStart(clock, window) == (n / window) * window;
  }

  lemma MultipleHasNoRemainder(q: int, d: nat)
    requires d >= 1
    ensures (q * d) % d == 0
  {
    var n := q * d;
    Divided(n, d);
    SameMultiple(q, n / d, d, n % d);
  }

  lemma SameMultiple(q: int, p: int, d: nat, x: int)
    requires d >= 1 && q * d == p * d + x && 0 <= x < d
    ensures p == q && x == 0
  {
    OneMoreMultiple(p, d);
    OneMoreMultiple(q, d);
    Scale(p + 1, q, d);
    Scale(q + 1, p, d);
  }

  /** A stretch as long as a window touches at most two aligned windows. */
  lemma TwoWindows(from: real, at: real, window: nat)
    requires window >= 1 && from <= at < from + window as real
    ensures var start := WindowStart(from, window);
      WindowStart(at, window) == start || WindowStart(at, window) == start + window
  {
    var n, m := from.Floor, at.Floor;
    QuotientSteps(n, m, window);
    Divided(n, window);
    Divided(m, window);
    OneMoreMultiple(n / window, window);
  }

  /** A multiple of the window that the clock has reached but not outlived is the clock's own window. */
  lemma OnlyWindow(start: int, clock: real, window: nat)
    requires window >= 1 && start % window == 0 && start as real <= clock < (start + window) as real
    ensures start == WindowStart(clock, window)
  {
    var n := clock.Floor;
    Divided(start, window);
    Divided(n, window);
    SameWindow(start, n, window, start / window, n / window, n % window);
  }

  lemma SameWindow(start: int, n: int, d: nat, q: int, p: int, x: int)
    requires d >= 1 && start == q * d && n == p * d + x && 0 <= x < d && start <= n < start + d
    ensures q == p && start == n - x
  {
    OneMoreMultiple(p, d);
    OneMoreMultiple(q, d);
    Scale(p + 1, q, d);
    Scale(q + 1, p, d);
  }

  // ---------------------------------------------------------------- the invariant

  lemma ServedGrows(served: seq<Served>, x: Served, slot: Slot)
    ensures Hits(served + [x], slot) == Hits(served, slot) + (if x.slot == slot then 1 else 0)
    ensures Accepted(served + [x], slot) == Accepted(served, slot) + (if x.slot == slot && x.allowed then 1 else 0)
  {
    assert (served + [x])[..|served|] == served;
  }

  lemma IncrStaysSound(cfg: Config, s: State, w: nat, slot: Slot)
    requires Inv(cfg, s) && Enabled(cfg, s, Incr(w))
    ensures SlotSound(cfg, Apply(cfg, s, Incr(w)), slot)
  {
    var mine := s.workers[w].slot;
    var c := Bumped(Held(s, mine), s.clock);
    assert SlotSound(cfg, s, mine) && SlotSound(cfg, s, slot);
    ServedGrows(s.served, Served(mine, s.clock, c.count <= cfg.limit), slot);
  }

  lemma StepKeepsInv(cfg: Config, s: State, e: Event)
    requires Inv(cfg, s) && Enabled(cfg, s, e)
    ensures Inv(cfg, Apply(cfg, s, e))
  {
    var t := Apply(cfg, s, e);
    WindowHolds(s.clock, cfg.window);
    if e.Incr? {
      var slot := s.workers[e.worker].slot;
      OnlyWindow(slot.start, s.clock, cfg.window);
    }
    forall slot ensures SlotSound(cfg, t, slot) {
      assert SlotSound(cfg, s, slot);
      if e.Incr? { IncrStaysSound(cfg, s, e.worker, slot); }
    }
  }

  lemma {:induction false} Invariant(cfg: Config, es: seq<Event>, s: State)
    requires cfg.window >= 1 && cfg.punctual && Exec(cfg, ORIGIN, es) == Some(s)
    ensures Inv(cfg, s)
    decreases |es|
  {
    if es != [] {
      var t := Exec(cfg, ORIGIN, es[..|es| - 1]).value;
      Invariant(cfg, es[..|es| - 1], t);
      StepKeepsInv(cfg, t, es[|es| - 1]);
    }
  }

  // ---------------------------------------------------------------- the bounds

  /** While its window lasts, a counter in use is alive and holds every hit of the window. */
  lemma LiveWindowIsNeverReset(cfg: Config, es: seq<Event>, s: State, slot: Slot)
    requires cfg.window >= 1 && cfg.punctual && Exec(cfg, ORIGIN, es) == Some(s)
    requires s.clock < (slot.start + cfg.window) as real && Hits(s.served, slot) > 0
    ensures Live(Held(s, slot), s.clock) && s.counters[slot].count == Hits(s.served, slot)
  {
    Invariant(cfg, es, s);
    assert SlotSound(cfg, s, slot);
  }

  /** Each aligned window accepts its first `limit` requests and no more, over all workers. */
  lemma AlignedBound(cfg: Config, es: seq<Event>, s: State, slot: Slot)
    requires cfg.window >= 1 && cfg.punctual && Exec(cfg, ORIGIN, es) == Some(s)
    ensures Accepted(s.served, slot) == Min(cfg.limit, Hits(s.served, slot))
  {
    Invariant(cfg, es, s);
    assert SlotSound(cfg, s, slot);
  }

  lemma {:induction false} IntervalInTwoWindows(cfg: Config, served: seq<Served>, key: string, from: real)
    requires cfg.window >= 1 && forall i :: 0 <= i < |served| ==> Inside(cfg, served[i])
    ensures var w := WindowStart(from, cfg.window);
      AcceptedIn(served, key, from, from + cfg.window as real)
        <= Accepted(served, Slot(key, w)) + Accepted(served, Slot(key, w + cfg.window))
    decreases |served|
  {
    if served != [] {
      var n := |served| - 1;
      IntervalInTwoWindows(cfg, served[..n], key, from);
      assert Inside(cfg, served[n]);
      if from <= served[n].at < from + cfg.window as real {
        TwoWindows(from, served[n].at, cfg.window);
      }
    }
  }

  /** Any half-open interval of window length sees at most 2 * limit accepted requests of a key. */
  lemma SlidingBound(cfg: Config, es: seq<Event>, s: State, key: string, from: real)
    requires cfg.window >= 1 && cfg.punctual && Exec(cfg, ORIGIN, es) == Some(s)
    ensures AcceptedIn(s.served, key, from, from + cfg.window as real) <= 2 * cfg.limit
  {
    Invariant(cfg, es, s);
    IntervalInTwoWindows(cfg, s.served, key, from);
    AlignedBound(cfg, es, s, Slot(key, WindowStart(from, cfg.window)));
    AlignedBound(cfg, es, s, Slot(key, WindowStart(from, cfg.window) + cfg.window));
  }

  // ---------------------------------------------------------------- the bound is attained

  lemma {:induction false} ExecSplits(cfg: Config, s: State, es: seq<Event>, fs: seq<Event>)
    ensures Exec(cfg, s, es + fs) == match Exec(cfg, s, es) case None => None case Some(t) => Exec(cfg, t, fs)
    decreases |fs|
  {
    if fs == [] {
      assert es + fs == es;
    } else {
      var n := |fs| - 1;
      assert (es + fs)[..|es + fs| - 1] == es + fs[..n];
      assert (es + fs)[|es + fs| - 1] == fs[n];
      ExecSplits(cfg, s, es, fs[..n]);
    }
  }

  lemma Then(cfg: Config, s: State, es: seq<Event>, t: State, e: Event)
    requires Exec(cfg, s, es) == Some(t) && Enabled(cfg, t, e)
    ensures Exec(cfg, s, es + [e]) == Some(Apply(cfg, t, e))
  {
    assert (es + [e])[..|es|] == es;
  }

  /** A complete call by an otherwise idle platform, EXPIRE included when it was first. */
  lemma OneCall(cfg: Config, s: State, key: string) returns (es: seq<Event>, t: State)
    requires cfg.window >= 1 && s.workers == map[]
    ensures Exec(cfg, s, es) == Some(t) && t.workers == map[] && t.clock == s.clock
    ensures var slot := Slot(key, WindowStart(s.clock, cfg.window)); var c := Called(cfg, Held(s, slot), s.clock);
      && t.served == s.served + [Served(slot, s.clock, c.count <= cfg.limit)]
      && t.counters == s.counters[slot := c]
  {
    var slot := Slot(key, WindowStart(s.clock, cfg.window));
    var fs, u := StampAndIncr(cfg, s, key);
    var gs;
    gs, t := ExpireAndLeave(cfg, u, slot, u.counters[slot].count);
    es := fs + gs;
    ExecSplits(cfg, s, fs, gs);
  }

  lemma StampAndIncr(cfg: Config, s: State, key: string) returns (es: seq<Event>, t: State)
    requires cfg.window >= 1 && s.workers == map[]
    ensures Exec(cfg, s, es) == Some(t) && t.clock == s.clock
    ensures var slot := Slot(key, WindowStart(s.clock, cfg.window)); var c := Bumped(Held(s, slot), s.clock);
      && t.workers == map[0 := Counted(slot, c.count)]
      && t.served == s.served + [Served(slot, s.clock, c.count <= cfg.limit)]
      && t.counters == s.counters[slot := c] && Live(Some(c), s.clock)
  {
    WindowHolds(s.clock, cfg.window);
    var stamped := Apply(cfg, s, Stamp(0, key));
    Then(cfg, s, [], s, Stamp(0, key));
    t := IncrEffect(cfg, stamped, Slot(key, WindowStart(s.clock, cfg.window)));
    Then(cfg, s, [] + [Stamp(0, key)], stamped, Incr(0));
    es := [] + [Stamp(0, key)] + [Incr(0)];
  }

  lemma IncrEffect(cfg: Config, s: State, slot: Slot) returns (t: State)
    requires cfg.window >= 1 && s.workers == map[0 := Stamped(slot)] && s.clock < (slot.start + cfg.window) as real
    ensures Enabled(cfg, s, Incr(0)) && t == Apply(cfg, s, Incr(0)) && t.clock == s.clock
    ensures var c := Bumped(Held(s, slot), s.clock);
      && t.workers == map[0 := Counted(slot, c.count)]
      && t.served == s.served + [Served(slot, s.clock, c.count <= cfg.limit)]
      && t.counters == s.counters[slot := c] && Live(Some(c), s.clock)
  {
    t := Apply(cfg, s, Incr(0));
  }

  lemma ExpireAndLeave(cfg: Config, s: State, slot: Slot, count: nat) returns (es: seq<Event>, t: State)
    requires cfg.window >= 1 && s.workers == map[0 := Counted(slot, count)] && Live(Held(s, slot), s.clock)
    ensures Exec(cfg, s, es) == Some(t) && t.workers == map[] && t.clock == s.clock && t.served == s.served
    ensures var c := s.counters[slot];
      t.counters == s.counters[slot := if count == 1 then c.(expiry := Some(s.clock + cfg.window as real)) else c]
  {
    es, t := [], s;
    if count == 1 {
      Then(cfg, s, [], s, Expire(0));
      es, t := [] + [Expire(0)], Apply(cfg, s, Expire(0));
    }
    Then(cfg, s, es, t, Leave(0));
    es, t := es + [Leave(0)], Apply(cfg, t, Leave(0));
  }

  /** What one complete call makes of a counter. */
  function Called(cfg: Config, c: Option<Counter>, clock: real): Counter {
    var bumped := Bumped(c, clock);
    if bumped.count == 1 then bumped.(expiry := Some(clock + cfg.window as real)) else bumped
  }

  /** The counter that m calls at one moment leave behind. */
  predicate Fresh(cfg: Config, c: Option<Counter>, clock: real, m: nat) {
    if m == 0 then c.None? else c == Some(Counter(m, Some(clock + cfg.window as real)))
  }

  lemma AcceptedCall(cfg: Config, s: State, key: string, m: nat, from: real, to: real)
    returns (es: seq<Event>, t: State)
    requires cfg.window >= 1 && s.workers == map[] && m < cfg.limit && from <= s.clock < to
    requires Fresh(cfg, Held(s, Slot(key, WindowStart(s.clock, cfg.window))), s.clock, m)
    ensures Exec(cfg, s, es) == Some(t) && t.workers == map[] && t.clock == s.clock
    ensures AcceptedIn(t.served, key, from, to) == AcceptedIn(s.served, key, from, to) + 1
    ensures var slot := Slot(key, WindowStart(s.clock, cfg.window));
      && Accepted(t.served, slot) == Accepted(s.served, slot) + 1
      && Fresh(cfg, Held(t, slot), s.clock, m + 1)
      && forall other :: other != slot ==> Held(t, other) == Held(s, other)
  {
    es, t := OneCall(cfg, s, key);
    var slot := Slot(key, WindowStart(s.clock, cfg.window));
    assert t.served == s.served + [Served(slot, s.clock, true)];
    ServedGrows(s.served, Served(slot, s.clock, true), slot);
    assert t.served[..|s.served|] == s.served;
  }

  lemma {:induction false} ManyCalls(cfg: Config, s: State, key: string, m: nat, from: real, to: real)
    returns (es: seq<Event>, t: State)
    requires cfg.window >= 1 && s.workers == map[] && m <= cfg.limit && from <= s.clock < to
    requires Held(s, Slot(key, WindowStart(s.clock, cfg.window))).None?
    ensures Exec(cfg, s, es) == Some(t) && t.workers == map[] && t.clock == s.clock
    ensures AcceptedIn(t.served, key, from, to) == AcceptedIn(s.served, key, from, to) + m
    ensures var slot := Slot(key, WindowStart(s.clock, cfg.window));
      && Accepted(t.served, slot) == Accepted(s.served, slot) + m
      && Fresh(cfg, Held(t, slot), s.clock, m)
      && forall other :: other != slot ==> Held(t, other) == Held(s, other)
    decreases m
  {
    if m == 0 {
      es, t := [], s;
    } else {
      var fs, u := ManyCalls(cfg, s, key, m - 1, from, to);
      var gs;
      gs, t := AcceptedCall(cfg, u, key, m - 1, from, to);
      es := fs + gs;
      ExecSplits(cfg, s, fs, gs);
    }
  }

  /** Wait until `at`, then use up the budget of the window that is current then. */
  lemma BurstAt(cfg: Config, s: State, key: string, at: real, from: real, to: real)
    returns (es: seq<Event>, t: State)
    requires cfg.window >= 1 && s.workers == map[] && s.clock <= at && from <= at < to
    requires Held(s, Slot(key, WindowStart(at, cfg.window))).None?
    ensures Exec(cfg, s, es) == Some(t) && t.workers == map[] && t.clock == at
    ensures AcceptedIn(t.served, key, from, to) == AcceptedIn(s.served, key, from, to) + cfg.limit
    ensures forall other :: other != Slot(key, WindowStart(at, cfg.window)) ==> Held(t, other) == Held(s, other)
  {
    var u := Apply(cfg, s, Tick(at));
    Then(cfg, s, [], s, Tick(at));
    var fs;
    fs, t := ManyCalls(cfg, u, key, cfg.limit, from, to);
    es := [] + [Tick(at)] + fs;
    ExecSplits(cfg, s, [] + [Tick(at)], fs);
  }

  /** A full budget just before a boundary and another just after it, all INCRs in time. */
  lemma SlidingBoundIsAttained(cfg: Config, key: string) returns (es: seq<Event>, s: State, from: real)
    requires cfg.window >= 1
    ensures Exec(cfg, ORIGIN, es) == Some(s)
    ensures AcceptedIn(s.served, key, from, from + cfg.window as real) == 2 * cfg.limit
  {
    var end := cfg.window as real;
    from := end - 0.5;
    WindowsDiffer(cfg.window);
    var fs, t := BurstAt(cfg, ORIGIN, key, from, from, from + end);
    var gs;
    gs, s := BurstAt(cfg, t, key, end, from, from + end);
    es := fs + gs;
    ExecSplits(cfg, ORIGIN, fs, gs);
  }

  lemma WindowsDiffer(window: nat)
    requires window >= 1
    ensures WindowStart(window as real - 0.5, window) != WindowStart(window as real, window)
  {
    WindowHolds(window as real - 0.5, window);
    WindowHolds(window as real, window);
    MultipleHasNoRemainder(1, window);
    assert 1 * window == window;
    OnlyWindow(window, window as real, window);
  }

  // ---------------------------------------------------------------- what punctuality is for

  /** From a state whose counter is exact, an INCR (punctual or not) leaves it exact if and only if the
      window has had no hit yet or Redis still holds the key; otherwise the count starts over. */
  lemma IncrStaysExactWhileLive(cfg: Config, s: State, w: nat)
    requires Enabled(cfg, s, Incr(w))
    requires var slot := s.workers[w].slot;
      Hits(s.served, slot) == match Held(s, slot) case None => 0 case Some(c) => c.count
    ensures var slot := s.workers[w].slot; var t := Apply(cfg, s, Incr(w));
      && (t.counters[slot].count == Hits(t.served, slot) <==> Hits(s.served, slot) == 0 || Live(Held(s, slot), s.clock))
      && (Hits(s.served, slot) > 0 && !Live(Held(s, slot), s.clock) ==> t.counters[slot].count == 1)
  {
    var slot := s.workers[w].slot;
    ServedGrows(s.served, Served(slot, s.clock, Bumped(Held(s, slot), s.clock).count <= cfg.limit), slot);
  }

  /** Every INCR of the history, punctual or not, found its window unhit or Redis still holding its key. */
  ghost predicate Unbroken(cfg: Config, es: seq<Event>)
    decreases |es|
  {
    es == [] ||
    (var n := |es| - 1;
     && Unbroken(cfg, es[..n])
     && (Exec(cfg, ORIGIN, es).Some? && es[n].Incr? ==> Continues(Exec(cfg, ORIGIN, es[..n]).value, es[n].worker)))
  }

  predicate Continues(s: State, w: nat) {
    w in s.workers && var slot := s.workers[w].slot; Hits(s.served, slot) == 0 || Live(Held(s, slot), s.clock)
  }

  predicate CountsEachHit(s: State, slot: Slot) {
    Hits(s.served, slot) == match Held(s, slot) case None => 0 case Some(c) => c.count
  }

  /** The counter is right and so is the number of requests accepted on its word. */
  predicate Exact(cfg: Config, s: State, slot: Slot) {
    CountsEachHit(s, slot) && Accepted(s.served, slot) == Min(cfg.limit, Hits(s.served, slot))
  }

  lemma StepStaysExact(cfg: Config, s: State, e: Event, slot: Slot)
    requires Enabled(cfg, s, e) && Exact(cfg, s, slot)
    requires e.Incr? ==> Continues(s, e.worker) && CountsEachHit(s, s.workers[e.worker].slot)
    ensures Exact(cfg, Apply(cfg, s, e), slot)
  {
    if e.Incr? {
      IncrStaysExact(cfg, s, e.worker, slot);
    }
  }

  lemma IncrStaysExact(cfg: Config, s: State, w: nat, slot: Slot)
    requires Enabled(cfg, s, Incr(w)) && Exact(cfg, s, slot)
    requires Continues(s, w) && CountsEachHit(s, s.workers[w].slot)
    ensures Exact(cfg, Apply(cfg, s, Incr(w)), slot)
  {
    var mine := s.workers[w].slot;
    var c := Bumped(Held(s, mine), s.clock);
    IncrOutcome(cfg, s, w, slot);
    OneServed(cfg, s, Apply(cfg, s, Incr(w)), Served(mine, s.clock, c.count <= cfg.limit), c, slot);
  }

  lemma OneServed(cfg: Config, s: State, t: State, x: Served, c: Counter, slot: Slot)
    requires Exact(cfg, s, slot) && t.served == s.served + [x]
    requires Held(t, slot) == if slot == x.slot then Some(c) else Held(s, slot)
    requires c.count == Hits(s.served, x.slot) + 1 && x.allowed == (c.count <= cfg.limit)
    ensures Exact(cfg, t, slot)
  {
    ServedGrows(s.served, x, slot);
    OneMoreHit(cfg.limit, Hits(s.served, slot), Accepted(s.served, slot));
  }

  lemma OneMoreHit(limit: nat, hits: nat, accepted: nat)
    requires accepted == Min(limit, hits)
    ensures accepted + (if hits + 1 <= limit then 1 else 0) == Min(limit, hits + 1)
  {
  }

  /** The counter and the history an INCR leaves. */
  lemma IncrOutcome(cfg: Config, s: State, w: nat, slot: Slot)
    requires Enabled(cfg, s, Incr(w)) && Continues(s, w) && CountsEachHit(s, s.workers[w].slot)
    ensures var mine := s.workers[w].slot; var c := Bumped(Held(s, mine), s.clock); var t := Apply(cfg, s, Incr(w));
      && c.count == Hits(s.served, mine) + 1
      && t.served == s.served + [Served(mine, s.clock, c.count <= cfg.limit)]
      && Held(t, slot) == if slot == mine then Some(c) else Held(s, slot)
  {
  }

  /** Over an unbroken history each window accepts exactly its first `limit` hits, with no assumption on
      when INCRs land; punctual histories are unbroken. */
  lemma {:induction false} UnbrokenKeepsTheLimit(cfg: Config, es: seq<Event>, s: State)
    requires Exec(cfg, ORIGIN, es) == Some(s) && Unbroken(cfg, es)
    ensures forall slot :: Exact(cfg, s, slot)
    decreases |es|
  {
    if es != [] {
      var t := Exec(cfg, ORIGIN, es[..|es| - 1]).value;
      UnbrokenKeepsTheLimit(cfg, es[..|es| - 1], t);
      var e := es[|es| - 1];
      forall slot ensures Exact(cfg, s, slot) {
        assert Exact(cfg, t, slot);
        assert e.Incr? ==> Exact(cfg, t, t.workers[e.worker].slot);
        StepStaysExact(cfg, t, e, slot);
      }
    }
  }

  lemma {:induction false} PunctualIsUnbroken(cfg: Config, es: seq<Event>)
    requires cfg.window >= 1 && cfg.punctual && Exec(cfg, ORIGIN, es).Some?
    ensures Unbroken(cfg, es)
    decreases |es|
  {
    if es != [] {
      var n := |es| - 1;
      var t := Exec(cfg, ORIGIN, es[..n]).value;
      PunctualIsUnbroken(cfg, es[..n]);
      if es[n].Incr? && Hits(t.served, t.workers[es[n].worker].slot) > 0 {
        LiveWindowIsNeverReset(cfg, es[..n], t, t.workers[es[n].worker].slot);
      }
    }
  }

  /** In every state along the history every counter holds its window's hits. */
  ghost predicate AlwaysCounts(cfg: Config, es: seq<Event>)
    decreases |es|
  {
    && (Exec(cfg, ORIGIN, es).Some? ==> forall slot :: CountsEachHit(Exec(cfg, ORIGIN, es).value, slot))
    && (es != [] ==> AlwaysCounts(cfg, es[..|es| - 1]))
  }

  lemma {:induction false} UnbrokenIsRight(cfg: Config, es: seq<Event>)
    requires Exec(cfg, ORIGIN, es).Some? && Unbroken(cfg, es)
    ensures AlwaysCounts(cfg, es)
    decreases |es|
  {
    var s := Exec(cfg, ORIGIN, es).value;
    UnbrokenKeepsTheLimit(cfg, es, s);
    assert forall slot :: Exact(cfg, s, slot) ==> CountsEachHit(s, slot);
    if es != [] {
      UnbrokenIsRight(cfg, es[..|es| - 1]);
    }
  }

  /** The step that breaks a history shows in the count. */
  lemma BreakShows(cfg: Config, t: State, w: nat)
    requires Enabled(cfg, t, Incr(w)) && CountsEachHit(t, t.workers[w].slot) && !Continues(t, w)
    ensures !CountsEachHit(Apply(cfg, t, Incr(w)), t.workers[w].slot)
  {
    IncrStaysExactWhileLive(cfg, t, w);
  }

  lemma {:induction false} BrokenHistoryShows(cfg: Config, es: seq<Event>)
    requires Exec(cfg, ORIGIN, es).Some? && AlwaysCounts(cfg, es)
    ensures Unbroken(cfg, es)
    decreases |es|
  {
    if es != [] {
      var n := |es| - 1;
      var t := Exec(cfg, ORIGIN, es[..n]).value;
      BrokenHistoryShows(cfg, es[..n]);
      if es[n].Incr? && !Continues(t, es[n].worker) {
        BreakShows(cfg, t, es[n].worker);
        assert false;
      }
    }
  }

  /** Every counter is right throughout a history if and only if the history is unbroken. */
  lemma UnbrokenExactly(cfg: Config, es: seq<Event>)
    requires Exec(cfg, ORIGIN, es).Some?
    ensures AlwaysCounts(cfg, es) <==> Unbroken(cfg, es)
  {
    if Unbroken(cfg, es) {
      UnbrokenIsRight(cfg, es);
    } else if AlwaysCounts(cfg, es) {
      BrokenHistoryShows(cfg, es);
      assert false;
    }
  }

  // ---------------------------------------------------------------- when a window exceeds the limit

  /** Every INCR of this one window found it unhit or its key still held. */
  ghost predicate UnbrokenFor(cfg: Config, es: seq<Event>, slot: Slot)
    decreases |es|
  {
    es == [] ||
    (var n := |es| - 1;
     && UnbrokenFor(cfg, es[..n], slot)
     && (Exec(cfg, ORIGIN, es).Some? && es[n].Incr? ==>
           var t := Exec(cfg, ORIGIN, es[..n]).value;
           es[n].worker in t.workers && t.workers[es[n].worker].slot == slot ==> Continues(t, es[n].worker)))
  }

  lemma {:induction false} UnbrokenIsEachWindow(cfg: Config, es: seq<Event>, slot: Slot)
    requires Exec(cfg, ORIGIN, es).Some? && Unbroken(cfg, es)
    ensures UnbrokenFor(cfg, es, slot)
    decreases |es|
  {
    if es != [] {
      UnbrokenIsEachWindow(cfg, es[..|es| - 1], slot);
    }
  }

  lemma {:induction false} SomeWindowIsBroken(cfg: Config, es: seq<Event>) returns (slot: Slot)
    requires Exec(cfg, ORIGIN, es).Some? && !Unbroken(cfg, es)
    ensures !UnbrokenFor(cfg, es, slot)
    decreases |es|
  {
    var n := |es| - 1;
    if Unbroken(cfg, es[..n]) {
      slot := Exec(cfg, ORIGIN, es[..n]).value.workers[es[n].worker].slot;
    } else {
      slot := SomeWindowIsBroken(cfg, es[..n]);
    }
  }

  function CountOf(c: Option<Counter>): nat {
    match c case None => 0 case Some(k) => k.count
  }

  /** How a window's counter, hits and acceptances relate: exactly while it is unbroken; once broken, the
      restarted counter lets at least one too many in as soon as there are enough hits. */
  predicate Tally(limit: nat, count: nat, hits: nat, accepted: nat, unbroken: bool) {
    && accepted <= hits
    && (if unbroken then count == hits && accepted == Min(limit, hits)
        else count >= 1 && accepted >= 1 + Min(limit, count) && (accepted == hits || accepted > limit))
  }

  lemma TallyStep(limit: nat, c: Option<Counter>, clock: real, hits: nat, accepted: nat, unbroken: bool)
    requires limit >= 1 && Tally(limit, CountOf(c), hits, accepted, unbroken)
    ensures var n := Bumped(c, clock).count;
      Tally(limit, n, hits + 1, accepted + (if n <= limit then 1 else 0), unbroken && (hits == 0 || Live(c, clock)))
  {
  }

  lemma HeldAfter(cfg: Config, s: State, e: Event, slot: Slot)
    requires Enabled(cfg, s, e)
    requires e.Incr? ==> s.workers[e.worker].slot != slot
    ensures CountOf(Held(Apply(cfg, s, e), slot)) == CountOf(Held(s, slot))
  {
  }

  lemma IncrTallies(cfg: Config, s: State, w: nat, unbroken: bool)
    requires cfg.limit >= 1 && Enabled(cfg, s, Incr(w))
    requires var slot := s.workers[w].slot;
      Tally(cfg.limit, CountOf(Held(s, slot)), Hits(s.served, slot), Accepted(s.served, slot), unbroken)
    ensures var slot := s.workers[w].slot; var t := Apply(cfg, s, Incr(w));
      Tally(cfg.limit, CountOf(Held(t, slot)), Hits(t.served, slot), Accepted(t.served, slot),
            unbroken && Continues(s, w))
  {
    var slot := s.workers[w].slot;
    var c := Bumped(Held(s, slot), s.clock);
    TallyStep(cfg.limit, Held(s, slot), s.clock, Hits(s.served, slot), Accepted(s.served, slot), unbroken);
    ServedGrows(s.served, Served(slot, s.clock, c.count <= cfg.limit), slot);
    assert Held(Apply(cfg, s, Incr(w)), slot) == Some(c);
  }

  lemma OtherTallies(cfg: Config, s: State, e: Event, slot: Slot)
    requires Enabled(cfg, s, e) && (e.Incr? ==> s.workers[e.worker].slot != slot)
    ensures var t := Apply(cfg, s, e);
      && Hits(t.served, slot) == Hits(s.served, slot) && Accepted(t.served, slot) == Accepted(s.served, slot)
      && CountOf(Held(t, slot)) == CountOf(Held(s, slot))
  {
    HeldAfter(cfg, s, e, slot);
    if e.Incr? {
      var mine := s.workers[e.worker].slot;
      ServedGrows(s.served, Served(mine, s.clock, Bumped(Held(s, mine), s.clock).count <= cfg.limit), slot);
    }
  }

  lemma {:induction false} HistoryTallies(cfg: Config, es: seq<Event>, s: State, slot: Slot)
    requires cfg.limit >= 1 && Exec(cfg, ORIGIN, es) == Some(s)
    ensures Tally(cfg.limit, CountOf(Held(s, slot)), Hits(s.served, slot), Accepted(s.served, slot),
                  UnbrokenFor(cfg, es, slot))
    decreases |es|
  {
    if es != [] {
      var n := |es| - 1;
      var t, e := Exec(cfg, ORIGIN, es[..n]).value, es[n];
      HistoryTallies(cfg, es[..n], t, slot);
      if e.Incr? && t.workers[e.worker].slot == slot {
        IncrTallies(cfg, t, e.worker, UnbrokenFor(cfg, es[..n], slot));
      } else {
        OtherTallies(cfg, t, e, slot);
      }
    }
  }

  /** For every limit, interleaving and timing: a window has accepted at most the limit if and only if it has had no
      more hits than that, or each of its INCRs found it unhit or its key still held. */
  lemma LimitHoldsExactly(cfg: Config, es: seq<Event>, s: State, slot: Slot)
    requires cfg.limit >= 1 && Exec(cfg, ORIGIN, es) == Some(s)
    ensures Accepted(s.served, slot) <= cfg.limit <==> Hits(s.served, slot) <= cfg.limit || UnbrokenFor(cfg, es, slot)
  {
    HistoryTallies(cfg, es, s, slot);
  }

  ghost predicate AcceptsAtMost(served: seq<Served>, limit: nat) {
    forall slot :: Accepted(served, slot) <= limit
  }

  /** With a limit of one, every window keeps it exactly when the whole history is unbroken. */
  lemma LimitOfOneExactly(cfg: Config, es: seq<Event>, s: State)
    requires cfg.limit == 1 && Exec(cfg, ORIGIN, es) == Some(s)
    ensures AcceptsAtMost(s.served, 1) <==> Unbroken(cfg, es)
  {
    if Unbroken(cfg, es) {
      forall slot ensures Accepted(s.served, slot) <= 1 {
        UnbrokenIsEachWindow(cfg, es, slot);
        LimitHoldsExactly(cfg, es, s, slot);
      }
    } else {
      var slot := SomeWindowIsBroken(cfg, es);
      HistoryTallies(cfg, es, s, slot);
      assert Accepted(s.served, slot) > 1;
    }
  }

  /** For every limit and window: the budget is used up, the key expires, and a worker that had stamped the
      same window in time increments only then. The window accepts one request too many. */
  lemma LateIncrExceedsTheLimit(limit: nat, window: nat, key: string) returns (es: seq<Event>, s: State)
    requires limit >= 1 && window >= 1
    ensures Exec(Config(limit, window, false), ORIGIN, es) == Some(s)
    ensures Accepted(s.served, Slot(key, 0)) == limit + 1
  {
    var cfg, slot := Config(limit, window, false), Slot(key, 0);
    WindowHolds(0.0, window);
    OnlyWindow(0, 0.0, window);
    var fs, t := ManyCalls(cfg, ORIGIN, key, limit, 0.0, 1.0);
    var gs;
    gs, s := LateCall(cfg, t, key);
    es := fs + gs;
    ExecSplits(cfg, ORIGIN, fs, gs);
  }

  lemma LateCall(cfg: Config, t: State, key: string) returns (es: seq<Event>, s: State)
    requires cfg.window >= 1 && cfg.limit >= 1 && !cfg.punctual && t.workers == map[] && t.clock == 0.0
    requires WindowStart(0.0, cfg.window) == 0 && Fresh(cfg, Held(t, Slot(key, 0)), 0.0, cfg.limit)
    ensures Exec(cfg, t, es) == Some(s)
    ensures Accepted(s.served, Slot(key, 0)) == Accepted(t.served, Slot(key, 0)) + 1
  {
    var slot, end := Slot(key, 0), cfg.window as real;
    var a := Apply(cfg, t, Stamp(0, key));
    Then(cfg, t, [], t, Stamp(0, key));
    var b := Apply(cfg, a, Tick(end));
    Then(cfg, t, [] + [Stamp(0, key)], a, Tick(end));
    s := Apply(cfg, b, Incr(0));
    Then(cfg, t, [] + [Stamp(0, key)] + [Tick(end)], b, Incr(0));
    es := [] + [Stamp(0, key)] + [Tick(end)] + [Incr(0)];
    assert s.served == t.served + [Served(slot, end, true)];
    ServedGrows(t.served, Served(slot, end, true), slot);
  }

  // ---------------------------------------------------------------- the method that runs it

  predicate Foreign(e: Event, w: nat) {
    e.Tick? || e.worker != w
  }

  ghost function WorkerOf(s: State, w: nat): Option<Worker> {
    if w in s.workers then Some(s.workers[w]) else None
  }

  lemma {:induction false} OthersLeaveTheWorker(cfg: Config, s: State, es: seq<Event>, t: State, w: nat)
    requires Exec(cfg, s, es) == Some(t) && forall i :: 0 <= i < |es| ==> Foreign(es[i], w)
    ensures WorkerOf(t, w) == WorkerOf(s, w) && s.served <= t.served
    decreases |es|
  {
    if es != [] {
      OthersLeaveTheWorker(cfg, s, es[..|es| - 1], Exec(cfg, s, es[..|es| - 1]).value, w);
    }
  }

  /** An INCR is answered with the hits its window has had so far, itself included. */
  lemma AnswerIsTheHitCount(cfg: Config, es: seq<Event>, s: State, w: nat)
    requires cfg.window >= 1 && cfg.punctual && Exec(cfg, ORIGIN, es) == Some(s) && Enabled(cfg, s, Incr(w))
    ensures var slot := s.workers[w].slot; var t := Apply(cfg, s, Incr(w));
      t.workers[w] == Counted(slot, Hits(t.served, slot))
  {
    Invariant(cfg, es, s);
    var slot := s.workers[w].slot;
    OnlyWindow(slot.start, s.clock, cfg.window);
    assert SlotSound(cfg, s, slot);
    ServedGrows(s.served, Served(slot, s.clock, Bumped(Held(s, slot), s.clock).count <= cfg.limit), slot);
  }

  class RedisRateLimiter {
    const cfg: Config
    var clock: real
    var counters: map<Slot, Counter>   // what the Redis server holds
    ghost var log: seq<Event>
    ghost var state: State             // where that history leads

    ghost predicate Valid()
      reads this
    {
      cfg.window >= 1 && Exec(cfg, ORIGIN, log) == Some(state) && clock == state.clock && counters == state.counters
    }

    constructor (cfg: Config)
      requires cfg.window >= 1
      ensures Valid() && this.cfg == cfg && log == [] && state == ORIGIN
    {
      this.cfg, clock, counters, log, state := cfg, 0.0, map[], [], ORIGIN;
    }

    ghost method Note(e: Event)
      requires Exec(cfg, ORIGIN, log) == Some(state) && Enabled(cfg, state, e)
      modifies this`log, this`state
      ensures log == old(log) + [e] && state == Apply(cfg, old(state), e)
      ensures Exec(cfg, ORIGIN, log) == Some(state)
    {
      assert (log + [e])[..|log|] == log;
      log, state := log + [e], Apply(cfg, state, e);
    }

    /** Whatever time passes and other workers do while worker w waits for Redis; punctuality is assumed here. */
    method Elsewhere(w: nat)
      requires Valid()
      requires cfg.punctual && w in state.workers && state.workers[w].Stamped? ==> Enabled(cfg, state, Incr(w))
      modifies this
      ensures Valid() && old(log) <= log
      ensures forall i :: |old(log)| <= i < |log| ==> Foreign(log[i], w)
      ensures cfg.punctual && w in state.workers && state.workers[w].Stamped? ==> Enabled(cfg, state, Incr(w))
    {
    }

    method Await(w: nat)
      requires Valid()
      requires cfg.punctual && w in state.workers && state.workers[w].Stamped? ==> Enabled(cfg, state, Incr(w))
      modifies this
      ensures Valid() && old(log) <= log
      ensures WorkerOf(state, w) == WorkerOf(old(state), w) && old(state).served <= state.served
      ensures cfg.punctual && w in state.workers && state.workers[w].Stamped? ==> Enabled(cfg, state, Incr(w))
    {
      ghost var before, prefix := state, log;
      Elsewhere(w);
      ghost var more := log[|prefix|..];
      assert log == prefix + more;
      ExecSplits(cfg, ORIGIN, prefix, more);
      OthersLeaveTheWorker(cfg, before, more, state, w);
    }

    /** INCR */
    method IncrKey(w: nat, slot: Slot) returns (count: nat)
      requires Valid() && Enabled(cfg, state, Incr(w)) && slot == state.workers[w].slot
      modifies this
      ensures Valid() && old(log) <= log && WorkerOf(state, w) == Some(Counted(slot, count))
      ensures state.served == old(state).served + [Served(slot, clock, count <= cfg.limit)]
      ensures cfg.punctual ==> count == Hits(state.served, slot)
    {
      if cfg.punctual {
        AnswerIsTheHitCount(cfg, log, state, w);
      }
      var c := Bumped(if slot in counters then Some(counters[slot]) else None, clock);
      counters := counters[slot := c];
      Note(Incr(w));
      count := c.count;
    }

    /** EXPIRE */
    method ExpireKey(w: nat, slot: Slot)
      requires Valid() && Enabled(cfg, state, Expire(w)) && slot == state.workers[w].slot
      modifies this
      ensures Valid() && old(log) <= log
      ensures state.served == old(state).served && WorkerOf(state, w) == WorkerOf(old(state), w)
    {
      if slot in counters && Live(Some(counters[slot]), clock) {
        counters := counters[slot := counters[slot].(expiry := Some(clock + cfg.window as real))];
      }
      Note(Expire(w));
    }

    /** Stamp a window, and have one INCR counted in it. */
    method CountHit(w: nat, key: string) returns (slot: Slot, count: nat, ghost at: nat)
      requires Valid() && w !in state.workers
      modifies this
      ensures Valid() && old(log) <= log && WorkerOf(state, w) == Some(Counted(slot, count)) && slot.key == key
      ensures |old(state).served| <= at < |state.served|
      ensures state.served[at].slot == slot && state.served[at].allowed == (count <= cfg.limit)
      ensures slot.start % cfg.window == 0 && slot.start as real <= old(clock) < (slot.start + cfg.window) as real
      ensures cfg.punctual ==> count == Hits(state.served[..at + 1], slot)
    {
      slot := Slot(key, WindowStart(clock, cfg.window));
      WindowHolds(clock, cfg.window);
      Note(Stamp(w, key));
      Await(w);
      count := IncrKey(w, slot);
      at := |state.served| - 1;
      ghost var soFar := state.served;
      Await(w);
      assert state.served[..at + 1] == soFar;
    }

    /** EXPIRE, if this call was the first of its window. */
    method ExpireIfFirst(w: nat, slot: Slot, count: nat)
      requires Valid() && WorkerOf(state, w) == Some(Counted(slot, count))
      modifies this
      ensures Valid() && old(log) <= log
      ensures old(state).served <= state.served && WorkerOf(state, w) == Some(Counted(slot, count))
    {
      if count == 1 {
        ExpireKey(w, slot);
        Await(w);
      }
    }

    /** `check`, as one of many concurrent workers: one INCR at position `at` of the history, in the window
        the call began in, decides it, and with punctual INCRs the answer is the exact budget left in its window. */
    method Check(w: nat, key: string) returns (allowed: bool, remaining: int, ghost at: nat)
      requires Valid() && w !in state.workers
      modifies this
      ensures Valid() && old(log) <= log && w !in state.workers
      ensures |old(state).served| <= at < |state.served|
      ensures state.served[at].slot.key == key && state.served[at].allowed == allowed
      ensures var start := state.served[at].slot.start;
        start % cfg.window == 0 && start as real <= old(clock) < (start + cfg.window) as real
      ensures cfg.punctual ==>
        var hits := Hits(state.served[..at + 1], state.served[at].slot);
        (allowed <==> hits <= cfg.limit) && remaining == if allowed then cfg.limit - hits else 0
    {
      var slot, count;
      slot, count, at := CountHit(w, key);
      ghost var soFar := state.served;
      ExpireIfFirst(w, slot, count);
      Note(Leave(w));
      assert state.served[..at + 1] == soFar[..at + 1];
      if count > cfg.limit {
        allowed, remaining := false, 0;
      } else {
        allowed, remaining := true, cfg.limit - count;
      }
    }
  }
}
