/** How a stack shares its free extent among its children
    (Sources/SwiftCursesKit/Scene/SceneRenderer.swift, `distribute`). */
module SpaceDistribution {
  import opened Geometry

  /** The share of the slot at the front of `slotsLeft` slots when
      `remaining` cells are still free: an even split (at least one cell
      while any are free), cut to the slot's natural size, raised so that the
      slots after it can each get at most one cell, and cut to what is
      free. `remaining / slotsLeft` truncates, which for a non-negative
      `remaining` is Dafny's division. */
  function Share(remaining: nat, slotsLeft: nat, size: int): (r: int)
    requires slotsLeft > 0
    ensures 0 <= r <= remaining
    ensures slotsLeft == 1 ==> r == remaining
  {
    var minimum := Max(0, remaining - Max(0, slotsLeft - 1) * 1);
    var even := remaining / slotsLeft;
    var proposed := if even == 0 && remaining > 0 then 1 else even;
    Min(Max(minimum, Min(proposed, size)), remaining)
  }

  /** The shares of the slots `sizes` when `remaining` cells are free,
      front slot first. */
  function Assign(remaining: nat, sizes: seq<int>): (r: seq<int>)
    ensures |r| == |sizes|
  {
    if |sizes| == 0 then []
    else
      var share := Share(remaining, |sizes|, sizes[0]);
      [share] + Assign(remaining - share, sizes[1..])
  }

  /** `distribute(available:sizes:)`: nothing for no slots, zeros when there
      is no room, otherwise the greedy shares. */
  function Distribute(available: int, sizes: seq<int>): (r: seq<int>)
    ensures |r| == |sizes|
    ensures available <= 0 ==> forall i :: 0 <= i < |r| ==> r[i] == 0
  {
    if |sizes| == 0 then []
    else if available <= 0 then seq(|sizes|, _ => 0)
    else Assign(available, sizes)
  }

  function Sum(s: seq<int>): int
  {
    if |s| == 0 then 0 else s[0] + Sum(s[1..])
  }

  /** The distribution loop: each slot takes its share and the rest moves
      on to the next slot. */
  method DistributeSpace(available: int, sizes: seq<int>) returns (shares: seq<int>)
    ensures shares == Distribute(available, sizes)
  {
    if |sizes| == 0 {
      return [];
    }
    if available <= 0 {
      return seq(|sizes|, _ => 0);
    }
    shares := seq(|sizes|, _ => 0);
    var remaining: nat := available;
    var index := 0;
    while index < |sizes|
      invariant 0 <= index <= |sizes| && |shares| == |sizes|
      invariant Assign(available, sizes) == shares[..index] + Assign(remaining, sizes[index..])
    {
      var slotsLeft := |sizes| - index;
      var proposed := Share(remaining, slotsLeft, sizes[index]);
      assert sizes[index..][1..] == sizes[index + 1..];
      shares := shares[index := proposed];
      assert shares[..index + 1] == shares[..index] + [proposed];
      remaining := remaining - proposed;
      index := index + 1;
    }
    assert shares[..index] == shares;
  }

  /** With free cells, every share is between zero and the free cells, and
      the shares use up exactly the free cells, because the last slot's
      minimum is everything still free. */
  lemma {:induction false} AssignUsesAll(remaining: nat, sizes: seq<int>)
    requires |sizes| > 0
    ensures Sum(Assign(remaining, sizes)) == remaining
    ensures forall i :: 0 <= i < |sizes| ==> 0 <= Assign(remaining, sizes)[i] <= remaining
    decreases |sizes|
  {
    var share := Share(remaining, |sizes|, sizes[0]);
    var r := Assign(remaining, sizes);
    if |sizes| > 1 {
      AssignUsesAll(remaining - share, sizes[1..]);
      assert r[1..] == Assign(remaining - share, sizes[1..]);
    }
  }

  /** The distribution fills the available extent exactly and hands out no
      negative share. */
  lemma DistributeFillsAvailable(available: int, sizes: seq<int>)
    requires available > 0 && |sizes| > 0
    ensures Sum(Distribute(available, sizes)) == available
    ensures forall i :: 0 <= i < |sizes| ==> 0 <= Distribute(available, sizes)[i] <= available
  {
    AssignUsesAll(available, sizes);
  }

  /** With no room, every share is zero and so is their sum. */
  lemma {:induction false} DistributeNoRoom(available: int, sizes: seq<int>)
    requires available <= 0
    ensures Sum(Distribute(available, sizes)) == 0
    decreases |sizes|
  {
    if |sizes| > 0 {
      DistributeNoRoom(available, sizes[1..]);
      assert Distribute(available, sizes)[1..] == Distribute(available, sizes[1..]);
    }
  }

  /** With as many free cells as slots, every slot gets exactly one. */
  lemma {:induction false} AssignOnePerSlot(sizes: seq<int>)
    ensures forall i :: 0 <= i < |sizes| ==> Assign(|sizes|, sizes)[i] == 1
    decreases |sizes|
  {
    if |sizes| > 0 {
      var n := |sizes|;
      assert n / n == 1;
      assert Share(n, n, sizes[0]) == 1;
      AssignOnePerSlot(sizes[1..]);
    }
  }

  /** When the available extent covers one cell per slot, the natural sizes
      play no part: the first slot gets all but one cell per remaining slot
      and every other slot gets one. */
  lemma DistributeIgnoresNaturalSizes(available: int, sizes: seq<int>)
    requires |sizes| >= 1 && available >= |sizes|
    ensures Distribute(available, sizes)[0] == available - (|sizes| - 1)
    ensures forall i :: 1 <= i < |sizes| ==> Distribute(available, sizes)[i] == 1
  {
    var n := |sizes|;
    var q := available / n;
    assert q * n <= available;
    assert q >= 1 by {
      assert available >= n;
    }
    assert q <= available - (n - 1) by {
      assert (q - 1) * (n - 1) >= 0;
      assert q * n - q - n + 1 >= 0;
    }
    var share := Share(available, n, sizes[0]);
    assert share == available - (n - 1);
    var r := Distribute(available, sizes);
    assert r == [share] + Assign(n - 1, sizes[1..]);
    AssignOnePerSlot(sizes[1..]);
    forall i | 1 <= i < n
      ensures r[i] == 1
    {
      assert r[i] == Assign(n - 1, sizes[1..])[i - 1];
    }
  }

  /** The two-child stacks of the layout tests: five free rows for children
      asking two each are split four and one, not two and two. */
  lemma TwoRowsSplitFourOne()
    ensures Distribute(5, [2, 2]) == [4, 1]
  {
    DistributeIgnoresNaturalSizes(5, [2, 2]);
  }

  // ------------------------------------------ natural-size variant

  /** The share the layout tests expect: the even split cut to the slot's
      natural size and to what is free, without the raise to the minimum
      that hands every spare cell to the front slot. */
  function NaturalShare(remaining: nat, slotsLeft: nat, size: int): (r: int)
    requires slotsLeft > 0
    ensures 0 <= r <= remaining && r <= Max(0, size)
  {
    var even := remaining / slotsLeft;
    var proposed := if even == 0 && remaining > 0 then 1 else even;
    Min(Max(0, Min(proposed, size)), remaining)
  }

  /** The natural shares of the slots `sizes` when `remaining` cells are
      free, front slot first. */
  function NaturalAssign(remaining: nat, sizes: seq<int>): (r: seq<int>)
    ensures |r| == |sizes|
  {
    if |sizes| == 0 then []
    else
      var share := NaturalShare(remaining, |sizes|, sizes[0]);
      [share] + NaturalAssign(remaining - share, sizes[1..])
  }

  /** `distribute` with natural shares: nothing for no slots, zeros when
      there is no room. */
  function NaturalDistribute(available: int, sizes: seq<int>): (r: seq<int>)
    ensures |r| == |sizes|
    ensures available <= 0 ==> forall i :: 0 <= i < |r| ==> r[i] == 0
  {
    if |sizes| == 0 then []
    else if available <= 0 then seq(|sizes|, _ => 0)
    else NaturalAssign(available, sizes)
  }

  /** No natural share exceeds its slot's natural size, and together they
      never take more than is free. */
  lemma {:induction false} NaturalAssignFits(remaining: nat, sizes: seq<int>)
    ensures Sum(NaturalAssign(remaining, sizes)) <= remaining
    ensures forall i :: 0 <= i < |sizes| ==> 0 <= NaturalAssign(remaining, sizes)[i] <= Max(0, sizes[i])
    decreases |sizes|
  {
    if |sizes| > 0 {
      var share := NaturalShare(remaining, |sizes|, sizes[0]);
      var r := NaturalAssign(remaining, sizes);
      NaturalAssignFits(remaining - share, sizes[1..]);
      assert r[1..] == NaturalAssign(remaining - share, sizes[1..]);
      forall i | 1 <= i < |sizes|
        ensures 0 <= r[i] <= Max(0, sizes[i])
      {
        assert r[i] == r[1..][i - 1] && sizes[i] == sizes[1..][i - 1];
      }
    }
  }

  /** Multiplying by a count keeps the order. */
  lemma {:induction false} MulMonotone(a: int, b: int, n: nat)
    requires a <= b
    ensures a * n <= b * n
    decreases n
  {
    if n > 0 {
      MulMonotone(a, b, n - 1);
      assert a * n == a * (n - 1) + a && b * n == b * (n - 1) + b;
    }
  }

  /** When `q` cells for each of `n` slots are free, the even split is at
      least `q`, and so is what is free. */
  lemma EvenSplitCovers(remaining: nat, n: nat, q: nat)
    requires n > 0 && q * n <= remaining
    ensures q <= remaining / n && q <= remaining
  {
    var d := remaining / n;
    assert remaining < d * n + n;
    if d < q {
      MulMonotone(d + 1, q, n);
    }
    MulMonotone(1, n, q);
    assert q * 1 <= n * q;
  }

  /** When `q` cells per slot are free and no slot asks for more than `q`,
      every slot gets exactly its natural size. */
  lemma {:induction false} NaturalAssignKeepsSizes(remaining: nat, sizes: seq<int>, q: nat)
    requires q * |sizes| <= remaining
    requires forall i :: 0 <= i < |sizes| ==> 0 <= sizes[i] <= q
    ensures NaturalAssign(remaining, sizes) == sizes
    decreases |sizes|
  {
    if |sizes| > 0 {
      var n := |sizes|;
      EvenSplitCovers(remaining, n, q);
      var share := NaturalShare(remaining, n, sizes[0]);
      assert share == sizes[0];
      assert q * (n - 1) <= remaining - share by {
        assert q * n == q * (n - 1) + q;
      }
      var rest := sizes[1..];
      assert forall i :: 0 <= i < |rest| ==> 0 <= rest[i] <= q by {
        forall i | 0 <= i < |rest|
          ensures 0 <= rest[i] <= q
        {
          assert rest[i] == sizes[i + 1];
        }
      }
      NaturalAssignKeepsSizes(remaining - share, rest, q);
      assert sizes == [sizes[0]] + rest;
    }
  }

  /** The children of the layout tests keep their natural sizes: two and
      two of five rows, four and three of nineteen columns, two and three of
      twelve rows. */
  lemma NaturalSharesOfLayoutTests()
    ensures NaturalDistribute(5, [2, 2]) == [2, 2]
    ensures NaturalDistribute(19, [4, 3]) == [4, 3]
    ensures NaturalDistribute(12, [2, 3]) == [2, 3]
  {
    NaturalAssignKeepsSizes(5, [2, 2], 2);
    NaturalAssignKeepsSizes(19, [4, 3], 4);
    NaturalAssignKeepsSizes(12, [2, 3], 3);
  }
}
