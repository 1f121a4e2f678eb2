/** What `AffinityGetNextCPU` (src/util-affinity.c) picks: starting at the
    cursor `lcpu`, the first CPU of the set, counting up and wrapping to 0 at
    the number of online processors. This module states the choice as
    functions and proves that repeated picks go round the set. */
module CpuCursor {
  import opened Results

  function Max(a: int, b: int): int {
    if a < b then b else a
  }

  /** The smallest member of `s` in lo .. hi-1, if any. */
  function FirstFrom(s: set<int>, lo: int, hi: int): (r: Option<int>)
    ensures r.Some? ==> lo <= r.value < hi && r.value in s
    ensures r.Some? ==> forall y :: lo <= y < r.value ==> y !in s
    ensures r.None? ==> forall y :: lo <= y < hi ==> y !in s
    decreases hi - lo
  {
    if lo >= hi then None
    else if lo in s then Some(lo)
    else FirstFrom(s, lo + 1, hi)
  }

  /** When the scan of the source stops: the cursor itself is in the set, or
      some member lies below the online count (at least 1, since with no online
      processor the scan is sent back to 0 at every step). Otherwise the
      `while` loop at src/util-affinity.c:288-292 never ends. */
  predicate CanAdvance(s: set<int>, lcpu: int, online: int) {
    lcpu in s || Members(s, 0, Max(online, 1)) != []
  }

  /** The CPU the scan returns. */
  function NextCpu(s: set<int>, lcpu: int, online: int): (r: int)
    requires 0 <= lcpu && CanAdvance(s, lcpu, online)
    ensures r in s && 0 <= r
    ensures lcpu < online ==> r < online
  {
    if lcpu in s then lcpu
    else match FirstFrom(s, lcpu + 1, online)
      case Some(c) => c
      case None =>
        assert Members(s, 0, Max(online, 1))[0] in s;
        FirstFrom(s, 0, Max(online, 1)).value
  }

  /** The cursor after returning `cpu`: `cpu + 1`, or 0 once that reaches the
      online count. */
  function Advance(cpu: int, online: int): int {
    if cpu + 1 >= online then 0 else cpu + 1
  }

  /** The members of `s` in lo .. hi-1, in increasing order. */
  function Members(s: set<int>, lo: int, hi: int): (m: seq<int>)
    ensures forall x {:trigger x in m} :: x in m <==> x in s && lo <= x < hi
    ensures forall i :: 0 <= i < |m| ==> m[i] in s && lo <= m[i] < hi
    ensures forall i, j :: 0 <= i < j < |m| ==> m[i] < m[j]
    decreases hi - lo
  {
    if lo >= hi then []
    else
      var rest := Members(s, lo + 1, hi);
      if lo in s then [lo] + rest else rest
  }

  /** The CPUs `k` successive calls return, starting at cursor `lcpu`. */
  ghost function Rounds(s: set<int>, lcpu: int, online: int, k: nat): (r: seq<int>)
    requires 0 <= lcpu < online && Members(s, 0, online) != []
    ensures |r| == k
    decreases k
  {
    if k == 0 then []
    else
      assert Members(s, 0, online)[0] in s;
      var c := NextCpu(s, lcpu, online);
      [c] + Rounds(s, Advance(c, online), online, k - 1)
  }

  /** The first call from cursor 0 returns the smallest member. */
  lemma FirstPick(s: set<int>, online: int)
    requires online >= 1 && Members(s, 0, online) != []
    ensures NextCpu(s, 0, online) == Members(s, 0, online)[0]
  {
    var m := Members(s, 0, online);
    assert m[0] in m;
    var r := NextCpu(s, 0, online);
    assert r in m;
  }

  /** A member of `s` above `m[j]` and below the online count is at least
      the next entry of `m`. */
  lemma Above(s: set<int>, online: int, j: nat, y: int)
    requires j < |Members(s, 0, online)|
    requires y in s && Members(s, 0, online)[j] < y < online
    ensures j + 1 < |Members(s, 0, online)| && Members(s, 0, online)[j + 1] <= y
  {
    var m := Members(s, 0, online);
    assert y in m;
    var i :| 0 <= i < |m| && m[i] == y;
    assert j < i;
  }

  /** After returning the member `m[j]`, the next call returns the next larger
      member, or the smallest one after the largest. */
  lemma NextPick(s: set<int>, online: int, j: nat)
    requires online >= 1
    requires j < |Members(s, 0, online)|
    ensures var m := Members(s, 0, online);
      NextCpu(s, Advance(m[j], online), online) == if j + 1 < |m| then m[j + 1] else m[0]
  {
    var m := Members(s, 0, online);
    var x := m[j];
    var c := Advance(x, online);
    var r := NextCpu(s, c, online);
    if j + 1 < |m| {
      var y := m[j + 1];
      assert c == x + 1;
      assert r <= y;
      assert x < r;
      Above(s, online, j, r);
    } else {
      assert m[0] in s;
      if c != 0 {
        if c in s {
          Above(s, online, j, c);
          assert false;
        }
        var f := FirstFrom(s, c + 1, online);
        if f.Some? {
          Above(s, online, j, f.value);
          assert false;
        }
      }
      assert r in m;
      assert r <= m[0];
    }
  }

  /** Two cursors whose next pick agrees produce the same picks from then on. */
  lemma SamePickSameRounds(s: set<int>, online: int, c: int, d: int, k: nat)
    requires 0 <= c < online && 0 <= d < online && Members(s, 0, online) != []
    requires NextCpu(s, c, online) == NextCpu(s, d, online)
    ensures Rounds(s, c, online, k) == Rounds(s, d, online, k)
  {
  }

  /** One call: the pick from cursor `c`, then the picks from the cursor after it. */
  lemma RoundsStep(s: set<int>, online: int, c: int, k: nat, x: int)
    requires 0 <= c < online && Members(s, 0, online) != [] && k > 0
    requires x == NextCpu(s, c, online)
    ensures 0 <= Advance(x, online) < online
    ensures Rounds(s, c, online, k) == [x] + Rounds(s, Advance(x, online), online, k - 1)
  {
  }

  /** The step of `Sweep` that returns `m[j + 1]`. */
  lemma SweepStep(s: set<int>, online: int, m: seq<int>, j: nat, n: nat, tail: seq<int>)
    requires online >= 1 && m == Members(s, 0, online) && j + 1 < |m| && n > 0
    requires Rounds(s, Advance(m[j + 1], online), online, n - 1) == m[j + 2..] + tail
    ensures Rounds(s, Advance(m[j], online), online, n) == m[j + 1..] + tail
  {
    NextPick(s, online, j);
    assert 0 <= m[j] < online;
    RoundsStep(s, online, Advance(m[j], online), n, m[j + 1]);
    ConsSlice(m, j + 1, tail);
  }

  lemma ConsSlice(m: seq<int>, i: nat, tail: seq<int>)
    requires i < |m|
    ensures [m[i]] + (m[i + 1..] + tail) == m[i..] + tail
  {
    assert m[i..] == [m[i]] + m[i + 1..];
  }

  /** The step of `Sweep` after the largest member: back to the smallest. */
  lemma SweepWrap(s: set<int>, online: int, m: seq<int>, k: nat)
    requires online >= 1 && m == Members(s, 0, online) && m != []
    ensures Rounds(s, Advance(m[|m| - 1], online), online, k) == Rounds(s, 0, online, k)
  {
    NextPick(s, online, |m| - 1);
    assert 0 <= m[|m| - 1] < online;
    FirstPick(s, online);
    SamePickSameRounds(s, online, Advance(m[|m| - 1], online), 0, k);
  }

  /** Going on from the cursor after `m[j]`, the next picks are the rest of the
      members in increasing order, and then the picks that start at cursor 0. */
  lemma {:induction false} Sweep(s: set<int>, online: int, j: nat, k: nat)
    requires online >= 1
    requires j < |Members(s, 0, online)|
    ensures var m := Members(s, 0, online);
      Rounds(s, Advance(m[j], online), online, |m| - 1 - j + k) == m[j + 1..] + Rounds(s, 0, online, k)
    decreases |Members(s, 0, online)| - j
  {
    var m := Members(s, 0, online);
    if j + 1 < |m| {
      Sweep(s, online, j + 1, k);
      SweepStep(s, online, m, j, |m| - 1 - j + k, Rounds(s, 0, online, k));
    } else {
      SweepWrap(s, online, m, k);
      assert m[j + 1..] == [];
    }
  }

  /** The step of `RoundRobin` that returns `m[0]` from cursor 0. */
  lemma FirstStep(s: set<int>, online: int, m: seq<int>, n: nat, tail: seq<int>)
    requires online >= 1 && m == Members(s, 0, online) && 0 < |m| <= n
    requires Rounds(s, Advance(m[0], online), online, n - 1) == m[1..] + tail
    ensures Rounds(s, 0, online, n) == m + tail
  {
    FirstPick(s, online);
    RoundsStep(s, online, 0, n, m[0]);
    ConsSlice(m, 0, tail);
    assert m[0..] == m;
  }

  /** From cursor 0, the first |m| picks are the members in order, followed by
      the picks a fresh start would make. */
  lemma Period(s: set<int>, online: int, m: seq<int>, k: nat)
    requires online >= 1 && m == Members(s, 0, online) && m != []
    ensures Rounds(s, 0, online, |m| + k) == m + Rounds(s, 0, online, k)
  {
    var n, tail := |m| + k, Rounds(s, 0, online, k);
    SweepFromFirst(s, online, m, k, n, tail);
    FirstStep(s, online, m, n, tail);
  }

  /** `Sweep` from the first member, with the pick count written as n - 1. */
  lemma SweepFromFirst(s: set<int>, online: int, m: seq<int>, k: nat, n: nat, tail: seq<int>)
    requires online >= 1 && m == Members(s, 0, online) && m != []
    requires n == |m| + k && tail == Rounds(s, 0, online, k)
    ensures Rounds(s, Advance(m[0], online), online, n - 1) == m[1..] + tail
  {
    Sweep(s, online, 0, k);
  }

  /** Repeated calls starting from the initial cursor 0 go round the set: the
      first |m| picks are its members below the online count in increasing
      order, and from then on the picks repeat with period |m|. */
  lemma RoundRobin(s: set<int>, online: int, k: nat)
    requires online >= 1 && Members(s, 0, online) != []
    ensures Rounds(s, 0, online, |Members(s, 0, online)|) == Members(s, 0, online)
    ensures Rounds(s, 0, online, |Members(s, 0, online)| + k) ==
      Members(s, 0, online) + Rounds(s, 0, online, k)
  {
    var m := Members(s, 0, online);
    Period(s, online, m, k);
    Period(s, online, m, 0);
    assert m + Rounds(s, 0, online, 0) == m;
  }
}
