/** generateMessageId: the 64-bit packing of clock, process id and call counter. */
module MessageId {

  const TWO_32: nat := 0x1_0000_0000
  const TWO_63: nat := 0x8000_0000_0000_0000
  const TWO_64: nat := 0x1_0000_0000_0000_0000
  const CLOCK_LIMIT: nat := 0x800_0000_0000  // 2^43 milliseconds, reached in the year 2248

  // ---- machine operations, bit by bit ----

  function BitOr(x: nat, y: nat): nat {
    if x == 0 then y
    else if y == 0 then x
    else 2 * BitOr(x / 2, y / 2) + (if x % 2 == 1 || y % 2 == 1 then 1 else 0)
  }

  function BitAnd(x: nat, y: nat): nat {
    if x == 0 || y == 0 then 0
    else 2 * BitAnd(x / 2, y / 2) + (if x % 2 == 1 && y % 2 == 1 then 1 else 0)
  }

  function Pow2(k: nat): (p: nat)
    ensures p > 0
  {
    if k == 0 then 1 else 2 * Pow2(k - 1)
  }

  function ShiftLeft(x: nat, k: nat): nat {
    x * Pow2(k)
  }

  /** Two's complement reading of the low 64 bits. */
  function ToInt64(x: nat): int {
    var low := x % TWO_64;
    if low < TWO_63 then low else low - TWO_64
  }

  function Pack(now: nat, pid: nat, counter: nat): int {
    ToInt64(BitOr(BitOr(ShiftLeft(now, 20), ShiftLeft(BitAnd(pid, 0x3ff), 10)), BitAnd(counter, 0x3ff)))
  }

  // ---- what the operations compute ----

  lemma {:induction false} OrOfDisjointBits(x: nat, k: nat, y: nat)
    requires y < Pow2(k)
    ensures BitOr(x * Pow2(k), y) == x * Pow2(k) + y
    decreases k
  {
    if k > 0 && y > 0 && x > 0 {
      var p := Pow2(k - 1);
      assert x * Pow2(k) == 2 * (x * p);
      assert x * p > 0;
      OrOfDisjointBits(x, k - 1, y / 2);
    }
  }

  lemma {:induction false} MaskIsRemainder(x: nat, k: nat)
    ensures BitAnd(x, Pow2(k) - 1) == x % Pow2(k)
    decreases k
  {
    if k == 0 {
      assert x % 1 == 0;
    } else {
      var p := Pow2(k - 1);
      MaskIsRemainder(x / 2, k - 1);
      assert (2 * p - 1) / 2 == p - 1 && (2 * p - 1) % 2 == 1;
      HalfRemainder(x, p);
      if x > 0 {
        assert BitAnd(x, 2 * p - 1) == 2 * BitAnd(x / 2, p - 1) + x % 2;
      }
    }
  }

  lemma HalfRemainder(x: nat, p: nat)
    requires p > 0
    ensures x % (2 * p) == 2 * ((x / 2) % p) + x % 2
  {
    var q, r := (x / 2) / p, (x / 2) % p;
    assert x / 2 == p * q + r;
    assert x == (2 * p) * q + (2 * r + x % 2);
    RemainderIs(x, 2 * p, q, 2 * r + x % 2);
  }

  lemma ProductAtLeast(d: int, k: int)
    requires d > 0
    ensures k >= 1 ==> d * k >= d
    ensures k <= -1 ==> d * k <= -d
  {
  }

  lemma RemainderIs(x: nat, d: nat, q: nat, r: nat)
    requires d > 0 && r < d && x == d * q + r
    ensures x % d == r
  {
    var q', r' := x / d, x % d;
    assert x == d * q' + r' && 0 <= r' < d;
    QuotientUnique(d, q, r, q', r');
  }

  lemma QuotientUnique(d: nat, q: int, r: nat, q': int, r': nat)
    requires d > 0 && r < d && r' < d && d * q + r == d * q' + r'
    ensures r == r'
  {
    ProductAtLeast(d, q - q');
    assert d * (q - q') == d * q - d * q';
  }

  lemma PowersOfTwo()
    ensures Pow2(10) == 0x400 && Pow2(20) == 0x10_0000
  {
    assert Pow2(5) == 32;
    assert Pow2(10) == 1024;
    assert Pow2(15) == 32768;
  }

  predicate ClockOk(now: nat) {
    0 < now < CLOCK_LIMIT
  }

  /** Three digits, the two low ones in base 1024. */
  function Positional(now: nat, p: nat, s: nat): nat {
    now * 0x10_0000 + p * 0x400 + s
  }

  lemma OrIsPositional(now: nat, p: nat, s: nat)
    requires p < 0x400 && s < 0x400
    ensures BitOr(BitOr(ShiftLeft(now, 20), ShiftLeft(p, 10)), s) == Positional(now, p, s)
  {
    PowersOfTwo();
    OrOfDisjointBits(now, 20, p * 0x400);
    OrOfDisjointBits(now * 0x400 + p, 10, s);
    var high := now * 0x400 + p;
    assert now * 0x10_0000 + p * 0x400 == high * 0x400;
  }

  /** The shift-and-or is the positional number now : pid : counter, and no bit is lost or negative. */
  lemma PackIsPositional(now: nat, pid: nat, counter: nat)
    requires ClockOk(now)
    ensures Pack(now, pid, counter) == now * 0x10_0000 + (pid % 0x400) * 0x400 + counter % 0x400
    ensures 0 < Pack(now, pid, counter) < TWO_63
  {
    var p, s := pid % 0x400, counter % 0x400;
    assert BitAnd(pid, 0x3ff) == p && BitAnd(counter, 0x3ff) == s by {
      PowersOfTwo();
      MaskIsRemainder(pid, 10);
      MaskIsRemainder(counter, 10);
    }
    OrIsPositional(now, p, s);
    InRange(now, p, s);
    assert Pack(now, pid, counter) == ToInt64(Positional(now, p, s));
  }

  lemma InRange(now: nat, p: nat, s: nat)
    requires ClockOk(now) && p < 0x400 && s < 0x400
    ensures 0 < Positional(now, p, s) < TWO_63
    ensures ToInt64(Positional(now, p, s)) == Positional(now, p, s)
  {
  }

  lemma Digits(now: nat, p: nat, s: nat)
    requires p < 0x400 && s < 0x400
    ensures var id := Positional(now, p, s);
            id / 0x10_0000 == now && (id / 0x400) % 0x400 == p && id % 0x400 == s
  {
    assert Positional(now, p, s) / 0x400 == now * 0x400 + p;
  }

  /** Unpacking: the three fields can be read back from the id. */
  lemma PackUnpacks(now: nat, pid: nat, counter: nat)
    requires ClockOk(now)
    ensures var id := Pack(now, pid, counter);
            id / 0x10_0000 == now && (id / 0x400) % 0x400 == pid % 0x400 && id % 0x400 == counter % 0x400
  {
    PackIsPositional(now, pid, counter);
    Digits(now, pid % 0x400, counter % 0x400);
  }

  // ---- ids over many calls ----

  /** The index-th call of generateMessageId in process pid, at clock value now. */
  datatype Call = Call(pid: nat, index: nat, now: nat)

  /** The static counter is a 32-bit unsigned int that starts at zero and wraps around. */
  function Counter(index: nat): nat {
    index % TWO_32
  }

  function IdOf(c: Call): int {
    Pack(c.now, c.pid, Counter(c.index))
  }

  /** Two calls whose ids cannot differ: same millisecond, pids and call numbers equal modulo 1024. */
  predicate Collide(a: Call, b: Call) {
    a.now == b.now && a.pid % 0x400 == b.pid % 0x400 && a.index % 0x400 == b.index % 0x400
  }

  lemma WrapIsHarmless(index: nat)
    ensures Counter(index) % 0x400 == index % 0x400
  {
    var q := index / TWO_32;
    assert index == Counter(index) + 0x400 * (0x40_0000 * q);
  }

  lemma EqualIdsExactlyOnCollision(a: Call, b: Call)
    requires ClockOk(a.now) && ClockOk(b.now)
    ensures IdOf(a) == IdOf(b) <==> Collide(a, b)
  {
    WrapIsHarmless(a.index);
    WrapIsHarmless(b.index);
    PackIsPositional(a.now, a.pid, Counter(a.index));
    PackIsPositional(b.now, b.pid, Counter(b.index));
    PackUnpacks(a.now, a.pid, Counter(a.index));
    PackUnpacks(b.now, b.pid, Counter(b.index));
  }

  ghost predicate IdsDistinct(calls: seq<Call>) {
    forall i, j :: 0 <= i < j < |calls| ==> IdOf(calls[i]) != IdOf(calls[j])
  }

  ghost predicate NoCollision(calls: seq<Call>) {
    forall i, j :: 0 <= i < j < |calls| ==> !Collide(calls[i], calls[j])
  }

  lemma IdsDistinctExactly(calls: seq<Call>)
    requires forall i :: 0 <= i < |calls| ==> ClockOk(calls[i].now)
    ensures IdsDistinct(calls) <==> NoCollision(calls)
  {
    forall i, j | 0 <= i < j < |calls|
      ensures IdOf(calls[i]) == IdOf(calls[j]) <==> Collide(calls[i], calls[j])
    {
      EqualIdsExactlyOnCollision(calls[i], calls[j]);
    }
  }

  /** Ids follow the clock: ordering by id orders by creation millisecond. */
  lemma LaterMillisecondLargerId(a: Call, b: Call)
    requires ClockOk(a.now) && ClockOk(b.now)
    ensures a.now < b.now ==> IdOf(a) < IdOf(b)
    ensures IdOf(a) < IdOf(b) ==> a.now <= b.now
  {
    PackIsPositional(a.now, a.pid, Counter(a.index));
    PackIsPositional(b.now, b.pid, Counter(b.index));
  }

  lemma NextCounter(index: nat)
    ensures Counter(index + 1) == (Counter(index) + 1) % TWO_32
  {
  }

  /** The per-process state of the generator. */
  class Generator {
    var counter: nat
    ghost var calls: nat

    ghost predicate Valid()
      reads this
    {
      counter == Counter(calls)
    }

    constructor ()
      ensures Valid() && calls == 0
    {
      counter, calls := 0, 0;
    }

    method Generate(pid: nat, now: nat) returns (id: int)
      requires Valid()
      modifies this
      ensures Valid() && calls == old(calls) + 1
      ensures id == IdOf(Call(pid, old(calls), now))
    {
      NextCounter(calls);
      var fetched := counter;
      counter := (counter + 1) % TWO_32;
      calls := calls + 1;
      id := Pack(now, pid, fetched);
    }
  }
}
