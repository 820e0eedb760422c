/** The fixed-window limiter: one shared counter per bucket and window, with an expiry. */
module RateLimiter {

  /** The window id is part of the key. */
  datatype Key = Key(bucket: string, window: int)

  /** What can go wrong at the counter. */
  datatype Fault = NoFault | IncrFails | ExpireFails

  datatype Request = Request(bucket: string, now: real, fault: Fault)

  type Width = w: int | w > 0 witness 1

  datatype Counters = Counters(counts: map<Key, nat>, expiry: map<Key, real>)

  const NO_COUNTERS := Counters(map[], map[])

  function Window(now: real, width: Width): int { now.Floor / width }

  function KeyOf(r: Request, width: Width): Key { Key(r.bucket, Window(r.now, width)) }

  lemma WindowBounds(now: real, width: Width)
    ensures (Window(now, width) * width) as real <= now < ((Window(now, width) + 1) * width) as real
  {
    var q := Window(now, width);
    assert q * width <= now.Floor < q * width + width;
    assert (q + 1) * width == q * width + width;
  }

  /** A key past its expiry reads as absent. */
  predicate Expired(s: Counters, k: Key, now: real) { k in s.expiry && s.expiry[k] <= now }

  function Live(s: Counters, now: real): Counters {
    Counters(map k | k in s.counts && !Expired(s, k, now) :: s.counts[k],
             map k | k in s.expiry && !Expired(s, k, now) :: s.expiry[k])
  }

  /** Count a request, and give its ordinal. */
  function Counted(s: Counters, r: Request, width: Width): (Counters, nat) {
    var live, k := Live(s, r.now), KeyOf(r, width);
    var n := if k in live.counts then live.counts[k] + 1 else 1;
    (Counters(live.counts[k := n],
              if n == 1 && !r.fault.ExpireFails? then live.expiry[k := r.now + width as real] else live.expiry), n)
  }

  function After(s: Counters, r: Request, width: Width): Counters {
    if r.fault.IncrFails? then Live(s, r.now) else Counted(s, r, width).0
  }

  /** Over the limit is refused; a failing counter lets the request through. */
  predicate Allows(s: Counters, r: Request, limit: nat, width: Width) {
    r.fault.IncrFails? || (var n := Counted(s, r, width).1; (r.fault.ExpireFails? && n == 1) || n <= limit)
  }

  class Limiter {
    var counts: map<Key, nat>
    var expiry: map<Key, real>

    ghost function View(): Counters reads this { Counters(counts, expiry) }

    constructor ()
      ensures View() == NO_COUNTERS
    {
      counts, expiry := map[], map[];
    }

    method Expire(now: real)
      modifies this
      ensures View() == Live(old(View()), now)
    {
      var dead := set k | k in expiry && expiry[k] <= now;
      assert forall k :: k in dead <==> Expired(View(), k, now);
      counts, expiry := counts - dead, expiry - dead;
      assert counts == Live(old(View()), now).counts;
    }

    method Check(r: Request, limit: nat, width: Width) returns (allowed: bool)
      modifies this
      ensures View() == After(old(View()), r, width)
      ensures allowed == Allows(old(View()), r, limit, width)
    {
      var key := Key(r.bucket, r.now.Floor / width);
      Expire(r.now);
      if r.fault.IncrFails? { return true; }
      var n := (if key in counts then counts[key] else 0) + 1;
      counts := counts[key := n];
      if n == 1 {
        if r.fault.ExpireFails? { return true; }
        expiry := expiry[key := r.now + width as real];
      }
      return n <= limit;
    }
  }

  // ------------------------------------------------------------------ runs

  ghost predicate InOrder(rs: seq<Request>) {
    forall i, j :: 0 <= i < j < |rs| ==> rs[i].now <= rs[j].now
  }

  /** The counters after a run of requests. */
  function Ran(rs: seq<Request>, width: Width): Counters {
    if rs == [] then NO_COUNTERS else After(Ran(rs[..|rs| - 1], width), rs[|rs| - 1], width)
  }

  function Ask(rs: seq<Request>, k: Key, width: Width): nat {
    if rs == [] then 0
    else Ask(rs[..|rs| - 1], k, width) + if KeyOf(rs[|rs| - 1], width) == k then 1 else 0
  }

  function AskCounted(rs: seq<Request>, k: Key, width: Width): nat {
    if rs == [] then 0
    else
      AskCounted(rs[..|rs| - 1], k, width)
      + if KeyOf(rs[|rs| - 1], width) == k && !rs[|rs| - 1].fault.IncrFails? then 1 else 0
  }

  function Faults(rs: seq<Request>, k: Key, width: Width): nat {
    if rs == [] then 0
    else
      Faults(rs[..|rs| - 1], k, width)
      + if KeyOf(rs[|rs| - 1], width) == k && !rs[|rs| - 1].fault.NoFault? then 1 else 0
  }

  predicate LastAllowed(rs: seq<Request>, limit: nat, width: Width)
    requires rs != []
  {
    Allows(Ran(rs[..|rs| - 1], width), rs[|rs| - 1], limit, width)
  }

  /** Requests of one window that were let through. */
  function Allowed(rs: seq<Request>, k: Key, limit: nat, width: Width): nat {
    if rs == [] then 0
    else
      Allowed(rs[..|rs| - 1], k, limit, width)
      + if KeyOf(rs[|rs| - 1], width) == k && LastAllowed(rs, limit, width) then 1 else 0
  }

  /** ... of one bucket between two times, ends included. */
  function AllowedBetween(rs: seq<Request>, bucket: string, from: real, to: real, limit: nat, width: Width): nat {
    if rs == [] then 0
    else
      var r := rs[|rs| - 1];
      AllowedBetween(rs[..|rs| - 1], bucket, from, to, limit, width)
      + if r.bucket == bucket && from <= r.now <= to && LastAllowed(rs, limit, width) then 1 else 0
  }

  // ------------------------------------------------------------------ the counter never resets in its window

  /** From a time on, every counter of a window not yet over holds that window's count, and will not
      expire before the window ends. */
  ghost predicate Exact(s: Counters, rs: seq<Request>, width: Width, now: real) {
    && (forall k :: k in s.expiry ==> k in s.counts)
    && (forall k: Key :: k.window >= Window(now, width) ==> (k in s.counts <==> AskCounted(rs, k, width) > 0))
    && (forall k: Key :: k.window >= Window(now, width) && k in s.counts ==> s.counts[k] == AskCounted(rs, k, width))
    && (forall k: Key :: k in s.expiry ==> s.expiry[k] >= ((k.window + 1) * width) as real)
  }

  lemma Ordered(a: real, b: real, width: Width)
    requires a <= b
    ensures Window(a, width) <= Window(b, width)
  {
    WindowBounds(a, width);
    WindowBounds(b, width);
    LessByProduct(Window(a, width), Window(b, width) + 1, width);
  }

  lemma ProductMonotone(a: int, b: int, width: Width)
    requires a >= b
    ensures a * width >= b * width
  {
  }

  lemma LessByProduct(a: int, b: int, width: Width)
    requires a * width < b * width
    ensures a < b
  {
    if a >= b { ProductMonotone(a, b, width); }
  }

  lemma NotYetOver(k: Key, now: real, width: Width)
    requires k.window >= Window(now, width)
    ensures now < ((k.window + 1) * width) as real
  {
    WindowBounds(now, width);
    assert (k.window - Window(now, width)) * width >= 0;
  }

  lemma LiveIsExact(s: Counters, rs: seq<Request>, width: Width, then_: real, now: real)
    requires Exact(s, rs, width, then_) && then_ <= now
    ensures Exact(Live(s, now), rs, width, now)
    ensures forall k: Key :: k.window >= Window(now, width) ==> (k in Live(s, now).counts <==> k in s.counts)
  {
    Ordered(then_, now, width);
    forall k: Key | k.window >= Window(now, width)
      ensures !Expired(s, k, now)
    {
      NotYetOver(k, now, width);
    }
  }

  lemma CountedIsExact(s: Counters, rs: seq<Request>, width: Width, r: Request)
    requires Exact(Live(s, r.now), rs, width, r.now)
    ensures Exact(After(s, r, width), rs + [r], width, r.now)
    ensures !r.fault.IncrFails? ==> Counted(s, r, width).1 == AskCounted(rs, KeyOf(r, width), width) + 1
  {
    var k0, live, next := KeyOf(r, width), Live(s, r.now), After(s, r, width);
    assert (rs + [r])[..|rs|] == rs;
    WindowBounds(r.now, width);
    assert ((k0.window + 1) * width) as real <= r.now + width as real by {
      assert (k0.window + 1) * width == k0.window * width + width;
    }
    hide Live, Window;
    assert forall k: Key :: AskCounted(rs + [r], k, width) ==
                            AskCounted(rs, k, width) + if k0 == k && !r.fault.IncrFails? then 1 else 0;
    hide AskCounted;
  }

  /** With nondecreasing times no counter is lost inside its window, whatever fails. */
  lemma {:induction false} RanIsExact(rs: seq<Request>, width: Width, now: real)
    requires InOrder(rs) && forall r :: r in rs ==> r.now <= now
    ensures Exact(Live(Ran(rs, width), now), rs, width, now)
  {
    if rs != [] {
      var init, r := rs[..|rs| - 1], rs[|rs| - 1];
      assert rs == init + [r];
      RanIsExact(init, width, r.now);
      CountedIsExact(Ran(init, width), init, width, r);
      LiveIsExact(Ran(rs, width), rs, width, r.now, now);
    }
  }

  // ------------------------------------------------------------------ how many get through

  function Min(a: nat, b: nat): nat { if a <= b then a else b }

  lemma LastVerdict(rs: seq<Request>, limit: nat, width: Width)
    requires rs != [] && InOrder(rs)
    ensures var init, r := rs[..|rs| - 1], rs[|rs| - 1];
            var n := AskCounted(init, KeyOf(r, width), width) + 1;
            LastAllowed(rs, limit, width) <==> r.fault.IncrFails? || (r.fault.ExpireFails? && n == 1) || n <= limit
  {
    var init, r := rs[..|rs| - 1], rs[|rs| - 1];
    assert rs == init + [r];
    RanIsExact(init, width, r.now);
    CountedIsExact(Ran(init, width), init, width, r);
  }

  /** A window lets through its limit and at most one request more per fault. */
  lemma {:induction false} WindowBound(rs: seq<Request>, k: Key, limit: nat, width: Width)
    requires InOrder(rs)
    ensures Min(AskCounted(rs, k, width), limit) <= Allowed(rs, k, limit, width) <=
            Min(AskCounted(rs, k, width), limit) + Faults(rs, k, width)
  {
    if rs != [] {
      WindowBound(rs[..|rs| - 1], k, limit, width);
      LastVerdict(rs, limit, width);
      hide Window, LastAllowed;
    }
  }

  lemma {:induction false} NoFaultsCounts(rs: seq<Request>, k: Key, width: Width)
    requires forall r :: r in rs ==> r.fault.NoFault?
    ensures Faults(rs, k, width) == 0 && AskCounted(rs, k, width) == Ask(rs, k, width)
  {
    if rs != [] {
      assert rs == rs[..|rs| - 1] + [rs[|rs| - 1]];
      NoFaultsCounts(rs[..|rs| - 1], k, width);
    }
  }

  /** Without counter errors an aligned window lets through exactly the smaller of its requests and
      the limit. */
  lemma WindowExact(rs: seq<Request>, k: Key, limit: nat, width: Width)
    requires InOrder(rs) && forall r :: r in rs ==> r.fault.NoFault?
    ensures Allowed(rs, k, limit, width) == Min(Ask(rs, k, width), limit)
  {
    WindowBound(rs, k, limit, width);
    NoFaultsCounts(rs, k, width);
  }

  /** A closed interval of one window's length meets at most two windows. */
  lemma TwoWindows(from: real, t: real, width: Width)
    requires from <= t <= from + width as real
    ensures Window(from, width) <= Window(t, width) <= Window(from, width) + 1
  {
    Ordered(from, t, width);
    WindowBounds(from, width);
    WindowBounds(t, width);
    var p, q := Window(from, width), Window(t, width);
    hide Window;
    assert (p + 1) * width + width == (p + 2) * width;
    LessByProduct(q, p + 2, width);
  }

  lemma {:induction false} BetweenSplits(rs: seq<Request>, bucket: string, from: real, limit: nat, width: Width)
    ensures var p := Window(from, width);
            AllowedBetween(rs, bucket, from, from + width as real, limit, width) <=
            Allowed(rs, Key(bucket, p), limit, width) + Allowed(rs, Key(bucket, p + 1), limit, width)
  {
    if rs != [] {
      BetweenSplits(rs[..|rs| - 1], bucket, from, limit, width);
      var r := rs[|rs| - 1];
      if from <= r.now <= from + width as real {
        TwoWindows(from, r.now, width);
      }
      hide Window, LastAllowed;
    }
  }

  /** The burst bound: any interval of one window's length lets through at most twice the limit,
      and one request more per fault in the two windows it meets. */
  lemma BurstBound(rs: seq<Request>, bucket: string, from: real, limit: nat, width: Width)
    requires InOrder(rs)
    ensures var p := Window(from, width);
            AllowedBetween(rs, bucket, from, from + width as real, limit, width) <=
            2 * limit + Faults(rs, Key(bucket, p), width) + Faults(rs, Key(bucket, p + 1), width)
  {
    BetweenSplits(rs, bucket, from, limit, width);
    WindowBound(rs, Key(bucket, Window(from, width)), limit, width);
    WindowBound(rs, Key(bucket, Window(from, width) + 1), limit, width);
  }

  /** Twice the limit does get through across a boundary. */
  lemma BurstReached()
    ensures var rs := [Request("ip", 59.0, NoFault), Request("ip", 60.0, NoFault)];
            InOrder(rs) && AllowedBetween(rs, "ip", 30.0, 90.0, 1, 60) == 2
  {
    var a, b := Request("ip", 59.0, NoFault), Request("ip", 60.0, NoFault);
    var rs := [a, b];
    assert rs[..1] == [a] && rs[..0] == [] && [a][..0] == [];
    assert a.now.Floor == 59 && b.now.Floor == 60;
    assert KeyOf(a, 60) != KeyOf(b, 60);
    LastVerdict(rs, 1, 60);
    LastVerdict([a], 1, 60);
    assert AskCounted([a], KeyOf(b, 60), 60) == 0;
    assert AskCounted([], KeyOf(a, 60), 60) == 0;
    assert AllowedBetween([a], "ip", 30.0, 90.0, 1, 60) == 1;
  }
}
