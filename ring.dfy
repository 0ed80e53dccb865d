/** The bounded conversation memory of utils/ciruclar-buffer.js: a ring of
    `length` slots with `head`/`tail`/`count`/`full` bookkeeping that overwrites
    its oldest entry once full. It is modelled as written, quirks included: `clear`
    drops only the backing array, `read` never clears `full`, and nothing stops a
    read of an empty ring (the count then goes negative).

    The backing store is a JavaScript array that `push` grows and that `clear`
    replaces by `[]`; writing past its end leaves holes, and a hole reads as
    `undefined`. It is a `seq<Option<T>>` here, `None` being a hole.

    The server builds its ring from the environment string MESSAGE_MEMORY, and a
    string never equals a number under `===`; this model takes the capacity as a
    number of at least one, the value the code is evidently written for. */
module Ring {

  import opened Js

  // ---------------------------------------------------------------------------
  // JavaScript arrays

  /** `a[i]`: a slot past the end, or a hole, reads as `undefined`. */
  function Get<T>(a: seq<Option<T>>, i: nat): Option<T>
  {
    if i < |a| then a[i] else None
  }

  /** `a[i] = x`: writing past the end extends the array with holes. */
  function Put<T>(a: seq<Option<T>>, i: nat, x: T): (r: seq<Option<T>>)
    ensures |r| == if i < |a| then |a| else i + 1
    ensures Get(r, i) == Some(x)
    ensures forall j: nat :: j != i ==> Get(r, j) == Get(a, j)
  {
    if i < |a| then a[i := Some(x)] else a + seq(i - |a|, _ => None) + [Some(x)]
  }

  // ---------------------------------------------------------------------------
  // The state of a ring and what each operation does to it

  datatype Ring<T> = Ring(length: nat, head: nat, tail: nat, buffer: seq<Option<T>>,
                          full: bool, count: int)

  /** What every reachable state satisfies. */
  predicate Invariant<T>(r: Ring<T>)
  {
    r.length >= 1 && r.tail < r.length && r.count <= r.length
  }

  /** `new CircularBuffer(length)`. */
  function Fresh<T>(length: nat): Ring<T>
  {
    Ring(length, 0, 0, [], false, 0)
  }

  /** `push(element)`: once `count` reaches `length` the ring is marked full; from
      then on `head` moves instead of `count`, and the slot at `tail` is
      overwritten. */
  function PushState<T>(r: Ring<T>, e: T): Ring<T>
    requires r.length >= 1
  {
    var full := r.full || r.count == r.length;
    var buffer := if full then r.buffer else r.buffer + [Some(e)];
    Ring(r.length,
         if full then r.head + 1 else r.head,
         (r.tail + 1) % r.length,
         Put(buffer, r.tail, e),
         full,
         if full then r.count else r.count + 1)
  }

  /** Pushing the elements of `xs` in order. */
  function PushAll<T>(r: Ring<T>, xs: seq<T>): (r': Ring<T>)
    requires r.length >= 1
    ensures r'.length == r.length
  {
    if xs == [] then r else PushState(PushAll(r, xs[..|xs| - 1]), xs[|xs| - 1])
  }

  /** The number of entries `toArray` yields: its loop runs while `i < count`. */
  function Size<T>(r: Ring<T>): nat
  {
    if r.count > 0 then r.count else 0
  }

  /** `toArray()`: `count` slots read from `head` on, modulo `length`. */
  function Entries<T>(r: Ring<T>): seq<Option<T>>
    requires r.length >= 1
  {
    seq(Size(r), i requires 0 <= i < Size(r) => Get(r.buffer, (r.head + i) % r.length))
  }

  /** `read()`: the slot at `head`, then `head` advances and `count` drops, with
      no check that anything was there. */
  function ReadState<T>(r: Ring<T>): (Ring<T>, Option<T>)
    requires r.length >= 1
  {
    (r.(head := (r.head + 1) % r.length, count := r.count - 1),
     Get(r.buffer, r.head % r.length))
  }

  /** `clear()`: a new, empty backing array; the counters stay. */
  function ClearState<T>(r: Ring<T>): Ring<T>
  {
    r.(buffer := [])
  }

  /** Every value wrapped as a present slot. */
  function Present<T>(xs: seq<T>): (s: seq<Option<T>>)
    ensures |s| == |xs|
    ensures forall i :: 0 <= i < |xs| ==> s[i] == Some(xs[i])
  {
    seq(|xs|, i requires 0 <= i < |xs| => Some(xs[i]))
  }

  function Min(a: int, b: int): int { if a < b then a else b }

  // ---------------------------------------------------------------------------
  // Arithmetic modulo the capacity

  lemma ModOfSmall(a: nat, n: nat)
    requires a < n
    ensures a % n == a
  {
  }

  lemma {:induction false} MulAtLeast(d: int, n: nat)
    requires d >= 1
    ensures d * n >= n
  {
    if d > 1 {
      MulAtLeast(d - 1, n);
      assert d * n == (d - 1) * n + n;
    }
  }

  /** Euclidean division is unique: a quotient and a remainder in range are the
      ones `/` and `%` give. */
  lemma ModUnique(x: int, n: nat, q: int, r: int)
    requires n >= 1 && 0 <= r < n && x == q * n + r
    ensures x % n == r && x / n == q
  {
    var q0, r0 := x / n, x % n;
    assert x == q0 * n + r0;
    assert (q - q0) * n == q * n - q0 * n;
    if q > q0 {
      MulAtLeast(q - q0, n);
    } else if q < q0 {
      MulAtLeast(q0 - q, n);
    }
  }

  lemma ModAddMultiple(q: nat, x: nat, n: nat)
    requires n >= 1
    ensures (q * n + x) % n == x % n
  {
    var qx := x / n;
    assert x == qx * n + x % n;
    assert q * n + x == (q + qx) * n + x % n;
    ModUnique(q * n + x, n, q + qx, x % n);
  }

  lemma ModShift(a: nat, b: nat, n: nat)
    requires n >= 1
    ensures (a % n + b) % n == (a + b) % n
  {
    var qa := a / n;
    assert a == qa * n + a % n;
    assert a + b == qa * n + (a % n + b);
    ModAddMultiple(qa, a % n + b, n);
  }

  lemma ModLess(m: nat, n: nat)
    requires 1 <= n <= m
    ensures (m - n) % n == m % n
  {
    var q := m / n;
    assert m == q * n + m % n;
    assert m - n == (q - 1) * n + m % n;
    ModUnique(m - n, n, q - 1, m % n);
  }

  lemma ModDistinct(i: nat, j: nat, n: nat)
    requires n >= 1 && i < j < i + n
    ensures i % n != j % n
  {
    var qi, qj := i / n, j / n;
    assert i == qi * n + i % n;
    assert j == qj * n + j % n;
    if i % n == j % n {
      assert (qj - qi) * n == qj * n - qi * n;
      if qj - qi >= 1 {
        MulAtLeast(qj - qi, n);
      } else {
        MulAtLeast(qi - qj + 1, n);
      }
    }
  }

  // ---------------------------------------------------------------------------
  // Pushes into a fresh ring

  /** The bookkeeping of a ring built from a fresh one by the pushes `xs` alone:
      it holds the last min(|xs|, length) of them, the oldest at `head`. */
  ghost predicate Tracks<T>(r: Ring<T>, xs: seq<T>)
  {
    var n, m := r.length, |xs|;
    Counters(r, m) &&
    forall j :: m - Min(m, n) <= j < m ==> Get(r.buffer, j % n) == Some(xs[j])
  }

  /** The scalar part of `Tracks`: the counters after `m` pushes. */
  ghost predicate Counters<T>(r: Ring<T>, m: nat)
  {
    var n := r.length;
    var k := Min(m, n);
    n >= 1 && r.count == k && r.full == (m > n) && r.tail == m % n &&
    r.head == m - k && |r.buffer| == k
  }

  lemma PushTracks<T>(r: Ring<T>, xs: seq<T>, e: T)
    requires Tracks(r, xs)
    ensures Tracks(PushState(r, e), xs + [e])
  {
    var n, m := r.length, |xs|;
    var r', ys := PushState(r, e), xs + [e];
    ModShift(m, 1, n);
    if m < n {
      ModOfSmall(m, n);
      forall j | 0 <= j < m + 1
        ensures Get(r'.buffer, j % n) == Some(ys[j])
      {
        ModOfSmall(j, n);
        if j < m {
          assert Get(r.buffer, j % n) == Some(xs[j]);
        }
      }
    } else {
      forall j | m + 1 - n <= j < m + 1
        ensures Get(r'.buffer, j % n) == Some(ys[j])
      {
        if j < m {
          ModDistinct(j, m, n);
          assert Get(r.buffer, j % n) == Some(xs[j]);
        }
      }
    }
  }

  lemma {:induction false} FreshPushesTracked<T>(n: nat, xs: seq<T>)
    requires n >= 1
    ensures Tracks(PushAll(Fresh(n), xs), xs)
  {
    if xs != [] {
      var init := xs[..|xs| - 1];
      FreshPushesTracked(n, init);
      PushTracks(PushAll(Fresh(n), init), init, xs[|xs| - 1]);
      assert init + [xs[|xs| - 1]] == xs;
    }
  }

  lemma TrackedEntries<T>(r: Ring<T>, xs: seq<T>)
    requires Tracks(r, xs)
    ensures Entries(r) == Present(xs[|xs| - Min(|xs|, r.length)..])
  {
    var n, m := r.length, |xs|;
    var k := Min(m, n);
    forall i | 0 <= i < k
      ensures Entries(r)[i] == Some(xs[m - k + i])
    {
      assert Get(r.buffer, (m - k + i) % n) == Some(xs[m - k + i]);
    }
  }

  /** With capacity n, after the pushes `xs` into a fresh ring `toArray` yields
      the last min(|xs|, n) of them, oldest first. */
  lemma LastPushed<T>(n: nat, xs: seq<T>)
    requires n >= 1
    ensures Entries(PushAll(Fresh(n), xs)) == Present(xs[|xs| - Min(|xs|, n)..])
  {
    FreshPushesTracked(n, xs);
    TrackedEntries(PushAll(Fresh(n), xs), xs);
  }

  /** Under pushes alone `count` is min(pushes, length), the ring is full exactly
      when more than `length` were pushed, `tail` stays below `length`, and once
      full `head` and `tail` agree modulo `length`. */
  lemma PushesBookkeeping<T>(n: nat, xs: seq<T>)
    requires n >= 1
    ensures var r := PushAll(Fresh(n), xs);
      && r.count == Min(|xs|, n)
      && (r.full <==> |xs| > n)
      && r.tail == |xs| % n < n
      && (r.full ==> r.head % n == r.tail)
  {
    FreshPushesTracked(n, xs);
    CountersBookkeeping(PushAll(Fresh(n), xs), |xs|);
  }

  lemma CountersBookkeeping<T>(r: Ring<T>, m: nat)
    requires Counters(r, m)
    ensures r.tail < r.length
    ensures r.full ==> r.head % r.length == r.tail
  {
    if r.full {
      ModLess(m, r.length);
    }
  }

  /** The example of a capacity-3 memory receiving A, B, C, D. */
  lemma ExampleLastThree()
    ensures Entries(PushAll(Fresh(3), "ABCD")) == [Some('B'), Some('C'), Some('D')]
  {
    LastPushed(3, "ABCD");
    assert "ABCD"[1..] == "BCD";
  }

  /** With capacity 1, a ring built by pushes holds exactly the last one. */
  lemma CapacityOneFromFresh<T>(xs: seq<T>, e: T)
    ensures Entries(PushAll(Fresh(1), xs + [e])) == [Some(e)]
  {
    LastPushed(1, xs + [e]);
    assert (xs + [e])[|xs|..] == [e];
  }

  // ---------------------------------------------------------------------------
  // One step at a time, from any reachable state

  /** Each operation keeps the invariant. */
  lemma InvariantKept<T>(r: Ring<T>, e: T)
    requires Invariant(r)
    ensures Invariant(PushState(r, e))
    ensures Invariant(ReadState(r).0)
    ensures Invariant(ClearState(r))
  {
  }

  /** A push raises `count` by one until it reaches `length` and the ring is not
      yet full; otherwise `count` stays. It never exceeds `length`. */
  lemma PushCount<T>(r: Ring<T>, e: T)
    requires Invariant(r)
    ensures PushState(r, e).count ==
            if !r.full && r.count < r.length then r.count + 1 else r.count
    ensures PushState(r, e).count <= r.length
    ensures PushState(r, e).tail < r.length
  {
  }

  /** Once set, `full` is never reset. */
  lemma FullIsSticky<T>(r: Ring<T>, e: T)
    requires r.length >= 1 && r.full
    ensures PushState(r, e).full && ReadState(r).0.full && ClearState(r).full
  {
  }

  /** A read from a full ring leaves it full with `length - 1` entries... */
  lemma ReadFromFull<T>(r: Ring<T>)
    requires Invariant(r) && r.full && r.count == r.length
    ensures ReadState(r).0.full && ReadState(r).0.count == r.length - 1
  {
  }

  /** ...and from then on pushes keep `count` at `length - 1`. */
  lemma {:induction false} PushesAfterRead<T>(r: Ring<T>, xs: seq<T>)
    requires r.length >= 1 && r.full && r.count == r.length - 1
    ensures PushAll(r, xs).full && PushAll(r, xs).count == r.length - 1
  {
    if xs != [] {
      PushesAfterRead(r, xs[..|xs| - 1]);
    }
  }

  /** `toArray` yields exactly `count` entries (none when `count` is not positive). */
  lemma EntriesCount<T>(r: Ring<T>)
    requires r.length >= 1
    ensures |Entries(r)| == if r.count > 0 then r.count else 0
  {
  }

  /** `clear` replaces only the backing array, so `toArray` afterwards still
      yields `count` entries, every one of them `undefined`. */
  lemma ClearKeepsCounters<T>(r: Ring<T>)
    requires r.length >= 1
    ensures var c := ClearState(r);
      && c.length == r.length && c.head == r.head && c.tail == r.tail
      && c.full == r.full && c.count == r.count && c.buffer == []
      && |Entries(c)| == Size(r)
      && forall i :: 0 <= i < |Entries(c)| ==> Entries(c)[i] == None
  {
    var c := ClearState(r);
    forall i | 0 <= i < |Entries(c)|
      ensures Entries(c)[i] == None
    {
      assert Entries(c)[i] == Get(c.buffer, (c.head + i) % c.length);
    }
  }

  /** A read from a non-empty ring returns the oldest entry and drops it from the
      front of `toArray`. */
  lemma ReadFront<T>(r: Ring<T>)
    requires Invariant(r) && r.count > 0
    ensures ReadState(r).1 == Entries(r)[0]
    ensures Entries(ReadState(r).0) == Entries(r)[1..]
    ensures ReadState(r).0.head == (r.head + 1) % r.length
    ensures ReadState(r).0.count == r.count - 1
  {
    var r' := ReadState(r).0;
    assert Entries(r)[0] == Get(r.buffer, (r.head + 0) % r.length);
    forall i | 0 <= i < r.count - 1
      ensures Entries(r')[i] == Entries(r)[i + 1]
    {
      ReadShiftsSlot(r, i);
    }
  }

  lemma ReadShiftsSlot<T>(r: Ring<T>, i: nat)
    requires Invariant(r) && i + 1 < r.count
    ensures Entries(ReadState(r).0)[i] == Entries(r)[i + 1]
  {
    var r' := ReadState(r).0;
    EntryAt(r', i);
    EntryAt(r, i + 1);
    ModShift(r.head + 1, i, r.length);
  }

  lemma EntryAt<T>(r: Ring<T>, i: nat)
    requires r.length >= 1 && i < Size(r)
    ensures Entries(r)[i] == Get(r.buffer, (r.head + i) % r.length)
  {
  }

  /** A read from an empty ring is not refused: `count` goes negative and
      `toArray` is empty. */
  lemma ReadEmpty<T>(r: Ring<T>)
    requires r.length >= 1 && r.count <= 0
    ensures ReadState(r).0.count < 0
    ensures Entries(ReadState(r).0) == []
  {
  }

  /** With capacity 1, a push leaves exactly the pushed element, except after a
      read has lowered `count` below what the push restores: a full ring with
      count below one, or a negative count, then shows nothing. */
  lemma CapacityOnePush<T>(r: Ring<T>, e: T)
    requires Invariant(r) && r.length == 1
    ensures Entries(PushState(r, e)) ==
      if (r.full && r.count < 1) || r.count < 0 then [] else [Some(e)]
  {
  }

  /** After a read from a full capacity-1 ring, pushes no longer show up: `count`
      stays 0 because `full` is never cleared. */
  lemma CapacityOneAfterRead()
    ensures var r := ReadState(PushAll(Fresh(1), "AB")).0;
      Entries(PushState(r, 'C')) == []
  {
    var r := ReadState(PushAll(Fresh(1), "AB")).0;
    PushesBookkeeping(1, "AB");
    assert r.full && r.count == 0;
  }

  // ---------------------------------------------------------------------------
  // The class

  class CircularBuffer<T> {
    const length: nat
    var head: nat
    var tail: nat
    var buffer: seq<Option<T>>
    var full: bool
    var count: int

    function State(): Ring<T>
      reads this
    {
      Ring(length, head, tail, buffer, full, count)
    }

    predicate Valid()
      reads this
    {
      Invariant(State())
    }

    constructor (length: nat)
      requires length >= 1
      ensures Valid() && State() == Fresh(length)
    {
      this.length := length;
      head, tail := 0, 0;
      buffer := [];
      full := false;
      count := 0;
    }

    method Push(element: T)
      requires Valid()
      modifies this
      ensures Valid() && State() == PushState(old(State()), element)
    {
      if count == length {
        full := true;
      }
      if !full {
        buffer := buffer + [Some(element)];
        count := count + 1;
      } else {
        head := head + 1;
      }
      buffer := Put(buffer, tail, element);
      tail := (tail + 1) % length;
    }

    method ToArray() returns (arr: seq<Option<T>>)
      requires Valid()
      ensures arr == Entries(State())
    {
      arr := [];
      var i := 0;
      while i < count
        invariant 0 <= i <= Size(State())
        invariant arr == Entries(State())[..i]
      {
        arr := arr + [Get(buffer, (head + i) % length)];
        i := i + 1;
      }
    }

    method Read() returns (element: Option<T>)
      requires Valid()
      modifies this
      ensures Valid() && (State(), element) == ReadState(old(State()))
    {
      element := Get(buffer, head % length);
      head := (head + 1) % length;
      count := count - 1;
    }

    method Clear()
      requires Valid()
      modifies this
      ensures Valid() && State() == ClearState(old(State()))
    {
      buffer := [];
    }
  }
}
