/** Timestamp nonces: one process hands out strictly increasing automatic nonces and takes explicit ones. */
module Nonce {
  import opened Options

  const WINDOW_MS := 3_600_000

  datatype Allocator = Allocator(highWater: Option<int>, reserved: set<int>)

  const NEW := Allocator(None, {})

  /** Each call reads the clock's current estimate, which may move in any direction. */
  datatype Call =
    | Next(estimated: int)
    | Reserve(explicit: int, estimated: int)
    | Release(explicit: int)

  datatype Reply = Issued(nonce: int) | Negative | OutsideWindow | AlreadyReserved | Done

  function AtOrAbove(reserved: set<int>, n: int): set<int> {
    set m | m in reserved && m >= n
  }

  lemma FewerAbove(reserved: set<int>, n: int)
    requires n in reserved
    ensures |AtOrAbove(reserved, n + 1)| < |AtOrAbove(reserved, n)|
  {
    assert AtOrAbove(reserved, n) == AtOrAbove(reserved, n + 1) + {n};
  }

  /** The least nonce from n on that is not reserved. */
  function FirstFree(reserved: set<int>, n: int): (r: int)
    ensures n <= r && r !in reserved
    ensures forall m | n <= m < r :: m in reserved
    decreases |AtOrAbove(reserved, n)|
  {
    if n !in reserved then n else FewerAbove(reserved, n); FirstFree(reserved, n + 1)
  }

  function Start(a: Allocator, estimated: int): int {
    match a.highWater
    case None => estimated
    case Some(high) => if estimated > high then estimated else high + 1
  }

  function Raised(a: Allocator, n: int): Option<int> {
    if a.highWater.None? || n > a.highWater.value then Some(n) else a.highWater
  }

  function Do(a: Allocator, c: Call): (Allocator, Reply) {
    match c
    case Next(estimated) =>
      var n := FirstFree(a.reserved, Start(a, estimated));
      (Allocator(Some(n), a.reserved + {n}), Issued(n))
    case Reserve(n, estimated) =>
      if n < 0 then (a, Negative)
      else if n - estimated > WINDOW_MS || estimated - n > WINDOW_MS then (a, OutsideWindow)
      else if n in a.reserved then (a, AlreadyReserved)
      else (Allocator(Raised(a, n), a.reserved + {n}), Issued(n))
    case Release(n) => if n < 0 then (a, Negative) else (a.(reserved := a.reserved - {n}), Done)
  }

  function Replies(a: Allocator, cs: seq<Call>): (rs: seq<Reply>)
    ensures |rs| == |cs|
    decreases |cs|
  {
    if cs == [] then [] else [Do(a, cs[0]).1] + Replies(Do(a, cs[0]).0, cs[1..])
  }

  predicate AtMost(n: int, high: Option<int>) { high.Some? && n <= high.value }

  /** Every reserved nonce is at most the high-water mark. */
  ghost predicate Sound(a: Allocator) {
    forall n | n in a.reserved :: AtMost(n, a.highWater)
  }

  lemma CallKeepsSound(a: Allocator, c: Call)
    requires Sound(a)
    ensures var b := Do(a, c).0;
            Sound(b) && (a.highWater.Some? ==> AtMost(a.highWater.value, b.highWater))
  {}

  function After(a: Allocator, cs: seq<Call>): Allocator
    decreases |cs|
  {
    if cs == [] then a else After(Do(a, cs[0]).0, cs[1..])
  }

  lemma {:induction false} CallsKeepSound(a: Allocator, cs: seq<Call>)
    requires Sound(a)
    ensures Sound(After(a, cs))
    decreases |cs|
  {
    if cs != [] {
      CallKeepsSound(a, cs[0]);
      CallsKeepSound(Do(a, cs[0]).0, cs[1..]);
    }
  }

  /** The skip loop never turns: after any calls the next automatic nonce is the clock's estimate, or one above the mark
      if that is more, and becomes the mark. */
  lemma NothingToSkip(cs: seq<Call>, a: Allocator, estimated: int)
    requires a == After(NEW, cs)
    ensures var n := if a.highWater.Some? && a.highWater.value >= estimated then a.highWater.value + 1 else estimated;
            Do(a, Next(estimated)) == (Allocator(Some(n), a.reserved + {n}), Issued(n))
    ensures forall n | n in a.reserved :: AtMost(n, a.highWater)
  {
    CallsKeepSound(NEW, cs);
  }

  /** An explicit nonce is refused when negative, further from the clock than an hour either way, or held; otherwise it
      is held from then on, and raises the mark if it is above it. Releasing one that is not negative lets go of it and
      leaves the mark. */
  lemma ExplicitNonces(a: Allocator, n: int, estimated: int)
    ensures var (b, reply) := Do(a, Reserve(n, estimated));
            var near := estimated - 3_600_000 <= n <= estimated + 3_600_000;
            && (reply == Negative <==> n < 0)
            && (reply == OutsideWindow <==> n >= 0 && !near)
            && (reply == AlreadyReserved <==> n >= 0 && near && n in a.reserved)
            && (reply == Issued(n) <==> n >= 0 && near && n !in a.reserved)
            && (reply != Issued(n) ==> b == a)
            && (reply == Issued(n) ==> b.reserved == a.reserved + {n}
                                       && b.highWater == (if AtMost(n, a.highWater) then a.highWater else Some(n)))
    ensures n >= 0 ==> Do(a, Release(n)) == (a.(reserved := a.reserved - {n}), Done)
    ensures n < 0 ==> Do(a, Release(n)) == (a, Negative)
  {}

  lemma {:induction false} LaterNextIsAbove(a: Allocator, cs: seq<Call>, j: nat, n: int)
    requires Sound(a) && AtMost(n, a.highWater) && j < |cs| && cs[j].Next?
    ensures Replies(a, cs)[j].Issued? && Replies(a, cs)[j].nonce > n
    decreases |cs|
  {
    CallKeepsSound(a, cs[0]);
    if j == 0 {
      assert Start(a, cs[0].estimated) !in a.reserved;
    } else {
      LaterNextIsAbove(Do(a, cs[0]).0, cs[1..], j - 1, n);
    }
  }

  /** In any run from any sound state: an automatic nonce exceeds every nonce issued before it, automatic or explicit,
      still held or long released, however the clock moved. */
  lemma {:induction false} AutomaticNoncesIncrease(a: Allocator, cs: seq<Call>, i: nat, j: nat)
    requires Sound(a) && i < j < |cs| && cs[j].Next? && Replies(a, cs)[i].Issued?
    ensures Replies(a, cs)[j].Issued? && Replies(a, cs)[i].nonce < Replies(a, cs)[j].nonce
    decreases |cs|
  {
    CallKeepsSound(a, cs[0]);
    var b := Do(a, cs[0]).0;
    if i == 0 {
      LaterNextIsAbove(b, cs[1..], j - 1, Replies(a, cs)[0].nonce);
    } else {
      AutomaticNoncesIncrease(b, cs[1..], i - 1, j - 1);
    }
  }

  /** A held nonce is not issued again until somebody releases it. */
  lemma {:induction false} HeldUntilReleased(a: Allocator, cs: seq<Call>, j: nat, n: int) returns (k: nat)
    requires Sound(a) && n in a.reserved && j < |cs| && Replies(a, cs)[j] == Issued(n)
    ensures k < j && cs[k] == Release(n)
    decreases |cs|
  {
    CallKeepsSound(a, cs[0]);
    var b := Do(a, cs[0]).0;
    if cs[0] == Release(n) && j > 0 {
      k := 0;
    } else {
      assert j > 0;
      k := HeldUntilReleased(b, cs[1..], j - 1, n);
      k := k + 1;
    }
  }

  /** No nonce has two holders: between two issues of one nonce it was released, and the second asked for it. */
  lemma {:induction false} NoTwoHolders(a: Allocator, cs: seq<Call>, i: nat, j: nat, n: int) returns (k: nat)
    requires Sound(a) && i < j < |cs| && Replies(a, cs)[i] == Issued(n) && Replies(a, cs)[j] == Issued(n)
    ensures i < k < j && cs[k] == Release(n) && cs[j].Reserve?
    decreases |cs|
  {
    if cs[j].Next? { AutomaticNoncesIncrease(a, cs, i, j); }
    OnlyIssuers(a, cs, j);
    CallKeepsSound(a, cs[0]);
    var b := Do(a, cs[0]).0;
    if i == 0 {
      k := HeldUntilReleased(b, cs[1..], j - 1, n);
    } else {
      k := NoTwoHolders(b, cs[1..], i - 1, j - 1, n);
    }
    k := k + 1;
  }

  lemma {:induction false} OnlyIssuers(a: Allocator, cs: seq<Call>, j: nat)
    requires j < |cs| && Replies(a, cs)[j].Issued?
    ensures !cs[j].Release?
    decreases |cs|
  {
    if j > 0 { OnlyIssuers(Do(a, cs[0]).0, cs[1..], j - 1); }
  }

  class TimestampNonceAllocator {
    var highWaterMark: Option<int>
    var reserved: set<int>

    function State(): Allocator
      reads this
    {
      Allocator(highWaterMark, reserved)
    }

    constructor ()
      ensures State() == NEW
    {
      highWaterMark, reserved := None, {};
    }

    method Next(estimated: int) returns (nonce: int)
      modifies this
      ensures State() == Do(old(State()), Call.Next(estimated)).0
      ensures Do(old(State()), Call.Next(estimated)).1 == Issued(nonce)
    {
      ghost var before := State();
      nonce := estimated;
      if highWaterMark.Some? && highWaterMark.value + 1 > nonce { nonce := highWaterMark.value + 1; }
      ghost var start := nonce;
      while nonce in reserved
        invariant State() == before && FirstFree(reserved, start) == FirstFree(reserved, nonce)
        decreases |AtOrAbove(reserved, nonce)|
      {
        FewerAbove(reserved, nonce);
        nonce := nonce + 1;
      }
      reserved := reserved + {nonce};
      highWaterMark := Some(nonce);
    }

    method Reserve(explicit: int, estimated: int) returns (reply: Reply)
      modifies this
      ensures State() == Do(old(State()), Call.Reserve(explicit, estimated)).0
      ensures reply == Do(old(State()), Call.Reserve(explicit, estimated)).1
    {
      if explicit < 0 { return Negative; }
      var distance := explicit - estimated;
      if distance < 0 { distance := -distance; }
      if distance > WINDOW_MS { return OutsideWindow; }
      if explicit in reserved { return AlreadyReserved; }
      reserved := reserved + {explicit};
      if highWaterMark.None? || explicit > highWaterMark.value { highWaterMark := Some(explicit); }
      return Issued(explicit);
    }

    method Release(explicit: int) returns (reply: Reply)
      modifies this
      ensures State() == Do(old(State()), Call.Release(explicit)).0
      ensures reply == Do(old(State()), Call.Release(explicit)).1
    {
      if explicit < 0 { return Negative; }
      reserved := reserved - {explicit};
      return Done;
    }
  }
}
