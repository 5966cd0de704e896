// N-queens counting: the conflict test on a prefix of queen placements and
// the recursive search that counts every conflict-free completion.
// A placement a holds in a[r] the column of the queen of row r.

module NQueens {

  /** The queens of rows i < j of a share a column or a diagonal. */
  predicate Attacks(a: seq<int>, i: int, j: int)
    requires 0 <= i < j < |a|
  {
    a[j] == a[i] || a[j] == a[i] - (j - i) || a[j] == a[i] + (j - i)
  }

  /** No two queens of a attack each other. */
  predicate NoConflict(a: seq<int>)
  {
    forall i, j :: 0 <= i < j < |a| ==> !Attacks(a, i, j)
  }

  /** Every queen of a stands in a column 0..n-1. */
  predicate InRange(a: seq<int>, n: int)
  {
    forall r :: 0 <= r < |a| ==> 0 <= a[r] < n
  }

  /** ok(n, a): 1 when none of the first n queens of a conflict, 0 otherwise. */
  method Ok(n: int, a: array<int>) returns (r: int)
    requires 0 <= n <= a.Length
    ensures r == 0 || r == 1
    ensures r == 1 <==> NoConflict(a[..n])
  {
    for i := 0 to n
      invariant forall i', j' :: 0 <= i' < i && i' < j' < n ==> !Attacks(a[..n], i', j')
    {
      var p := a[i];
      for j := i + 1 to n
        invariant forall i', j' :: 0 <= i' < i && i' < j' < n ==> !Attacks(a[..n], i', j')
        invariant forall j' :: i < j' < j ==> !Attacks(a[..n], i, j')
      {
        var q := a[j];
        if q == p || q == p - (j - i) || q == p + (j - i) {
          assert Attacks(a[..n], i, j);
          return 0;
        }
      }
    }
    return 1;
  }

  // ---------------------------------------------------------------------
  // What nqueens computes

  /** The number nqueens(n, |a|, a) returns: 1 for a full board, otherwise
      the sum over the columns of the next row of the counts of the
      conflict-free extensions. */
  function Count(n: nat, a: seq<int>): nat
    requires |a| <= n
    decreases n - |a|, 1
  {
    if |a| == n then 1 else ColumnSum(n, a, n)
  }

  /** count[c] after the spawning loop: the count of a + [c] when that
      placement is conflict-free, else the initial 0. */
  function Branch(n: nat, a: seq<int>, c: int): nat
    requires |a| < n
    decreases n - |a|, 0, 0
  {
    if NoConflict(a + [c]) then Count(n, a + [c]) else 0
  }

  /** count[0] + ... + count[k-1]. */
  function ColumnSum(n: nat, a: seq<int>, k: nat): nat
    requires |a| < n
    decreases n - |a|, 0, k + 1
  {
    if k == 0 then 0 else ColumnSum(n, a, k - 1) + Branch(n, a, k - 1)
  }

  /** nqueens(n, j, a): the number of ways to complete the j queens in
      a[0..j) to a full board of n conflict-free queens, counting, for each
      column of row j whose queen keeps the board conflict-free, the
      completions of the extended board in count[i] and then summing count.
      Each candidate b is a fresh copy of a[0..j) with b[j] = i; a itself is
      never written. */
  method NQueens(n: int, j: int, a: array<int>) returns (solNum: int)
    requires 0 <= j <= n && j <= a.Length
    ensures solNum == Count(n, a[..j])
    decreases n - j
  {
    solNum := 0;
    if n == j {
      return 1;
    }
    var count := new int[n](_ => 0);
    ghost var placed := a[..j];
    for i := 0 to n
      invariant a[..j] == placed
      invariant forall k :: 0 <= k < i ==> count[k] == Branch(n, placed, k)
      invariant forall k :: i <= k < n ==> count[k] == 0
    {
      var b := new int[j + 1];
      forall k | 0 <= k < j {
        b[k] := a[k];
      }
      b[j] := i;
      var fine := Ok(j + 1, b);
      assert b[..j + 1] == placed + [i];
      if fine != 0 {
        count[i] := NQueens(n, j + 1, b);
      } else {
        assert !NoConflict(placed + [i]);
      }
    }
    for i := 0 to n
      invariant solNum == ColumnSum(n, placed, i)
    {
      solNum := solNum + count[i];
    }
  }

  // ---------------------------------------------------------------------
  // The count is the number of solutions

  /** All placements of k queens, one per row, each in a column 0..n-1. */
  function Boards(n: nat, k: nat): set<seq<int>>
  {
    if k == 0 then {[]} else set s, c | s in Boards(n, k - 1) && 0 <= c < n :: s + [c]
  }

  lemma {:induction false} BoardsMember(n: nat, k: nat, s: seq<int>)
    ensures s in Boards(n, k) <==> |s| == k && InRange(s, n)
  {
    if k > 0 {
      if s in Boards(n, k) {
        var s', c :| s' in Boards(n, k - 1) && 0 <= c < n && s == s' + [c];
        BoardsMember(n, k - 1, s');
      }
      if |s| == k && InRange(s, n) {
        BoardsMember(n, k - 1, s[..k - 1]);
        assert s == s[..k - 1] + [s[k - 1]];
      }
    }
  }

  /** The full conflict-free boards whose first |a| queens are a. */
  function Completions(n: nat, a: seq<int>): set<seq<int>>
  {
    set s | s in Boards(n, n) && |a| <= |s| && s[..|a|] == a && NoConflict(s)
  }

  /** Those completions whose queen in row |a| stands left of column k. */
  function CompletionsBelow(n: nat, a: seq<int>, k: int): set<seq<int>>
  {
    set s | s in Completions(n, a) && |a| < |s| && s[|a|] < k
  }

  lemma NoConflictPrefix(s: seq<int>, m: nat)
    requires NoConflict(s) && m <= |s|
    ensures NoConflict(s[..m])
  {
    forall i, j | 0 <= i < j < m
      ensures !Attacks(s[..m], i, j)
    {
      assert !Attacks(s, i, j);
    }
  }

  /** Completions of a whose row-|a| queen is in column c are exactly the
      completions of a + [c]; there are none if a + [c] already conflicts. */
  lemma ColumnCompletions(n: nat, a: seq<int>, c: int, s: seq<int>)
    requires |a| < n
    ensures s in Completions(n, a + [c]) <==> s in Completions(n, a) && |a| < |s| && s[|a|] == c
    ensures s in Completions(n, a + [c]) ==> NoConflict(a + [c])
  {
    if |a| < |s| {
      assert s[..|a| + 1] == a + [c] <==> s[..|a|] == a && s[|a|] == c by {
        assert s[..|a| + 1] == s[..|a|] + [s[|a|]];
      }
    }
    if s in Completions(n, a + [c]) {
      NoConflictPrefix(s, |a| + 1);
    }
  }

  /** Moving the bound from column c to c + 1 adds the completions of
      a + [c], which are disjoint from those already counted and absent when
      a + [c] conflicts. */
  lemma CompletionsBelowStep(n: nat, a: seq<int>, c: int)
    requires |a| < n
    ensures CompletionsBelow(n, a, c + 1) == CompletionsBelow(n, a, c) + Completions(n, a + [c])
    ensures CompletionsBelow(n, a, c) * Completions(n, a + [c]) == {}
    ensures !NoConflict(a + [c]) ==> Completions(n, a + [c]) == {}
  {
    var lower, here := CompletionsBelow(n, a, c), Completions(n, a + [c]);
    forall s
      ensures s in CompletionsBelow(n, a, c + 1) <==> s in lower || s in here
      ensures s in here ==> s !in lower && NoConflict(a + [c])
    {
      ColumnCompletions(n, a, c, s);
    }
  }

  /** No completion has its row-|a| queen left of column 0. */
  lemma NoneBelowZero(n: nat, a: seq<int>)
    ensures CompletionsBelow(n, a, 0) == {}
  {
    forall s | s in CompletionsBelow(n, a, 0)
      ensures false
    {
      BoardsMember(n, n, s);
    }
  }

  /** ColumnSum counts the completions whose next queen is left of column k. */
  lemma {:induction false} ColumnSumCounts(n: nat, a: seq<int>, k: nat)
    requires |a| < n && k <= n && InRange(a, n) && NoConflict(a)
    ensures ColumnSum(n, a, k) == |CompletionsBelow(n, a, k)|
    decreases n - |a|, k
  {
    if k == 0 {
      NoneBelowZero(n, a);
    } else {
      var c := k - 1;
      ColumnSumCounts(n, a, c);
      assert Branch(n, a, c) == |Completions(n, a + [c])| by {
        if NoConflict(a + [c]) {
          assert InRange(a + [c], n);
          CountIsCompletions(n, a + [c]);
        } else {
          CompletionsBelowStep(n, a, c);
        }
      }
      assert |CompletionsBelow(n, a, k)| == |CompletionsBelow(n, a, c)| + |Completions(n, a + [c])| by {
        CompletionsBelowStep(n, a, c);
      }
    }
  }

  /** For a conflict-free prefix a of columns in 0..n-1, Count(n, a) is the
      number of full conflict-free boards extending a. */
  lemma {:induction false} CountIsCompletions(n: nat, a: seq<int>)
    requires |a| <= n && InRange(a, n) && NoConflict(a)
    ensures Count(n, a) == |Completions(n, a)|
    decreases n - |a|, n + 1
  {
    if |a| == n {
      BoardsMember(n, n, a);
      assert a[..|a|] == a;
      forall s | s in Completions(n, a)
        ensures s == a
      {
        BoardsMember(n, n, s);
        assert s[..|a|] == s;
      }
      assert Completions(n, a) == {a};
    } else {
      ColumnSumCounts(n, a, n);
      forall s | s in Completions(n, a)
        ensures s in CompletionsBelow(n, a, n)
      {
        BoardsMember(n, n, s);
      }
      assert CompletionsBelow(n, a, n) == Completions(n, a);
    }
  }

  /** nqueens(n, 0, a) is the number of solutions of the n-queens problem. */
  lemma CountsSolutions(n: nat)
    ensures Count(n, []) == |set s | s in Boards(n, n) && NoConflict(s)|
  {
    CountIsCompletions(n, []);
    assert Completions(n, []) == set s | s in Boards(n, n) && NoConflict(s) by {
      forall s ensures s in Completions(n, []) <==> s in Boards(n, n) && NoConflict(s)
      {
        assert s[..0] == [];
      }
    }
  }

  // ---------------------------------------------------------------------
  // Bounds

  function Power(b: nat, e: nat): nat
  {
    if e == 0 then 1 else b * Power(b, e - 1)
  }

  /** At most n^(n-|a|) completions: one queen per remaining row, n columns each. */
  lemma {:induction false} CountBound(n: nat, a: seq<int>)
    requires |a| <= n
    ensures Count(n, a) <= Power(n, n - |a|)
    decreases n - |a|, 1
  {
    if |a| < n {
      ColumnSumBound(n, a, n);
    }
  }

  lemma {:induction false} ColumnSumBound(n: nat, a: seq<int>, k: nat)
    requires |a| < n
    ensures ColumnSum(n, a, k) <= k * Power(n, n - |a| - 1)
    decreases n - |a|, 0, k
  {
    if k > 0 {
      ColumnSumBound(n, a, k - 1);
      CountBound(n, a + [k - 1]);
    }
  }

  // ---------------------------------------------------------------------
  // The incremental test and the reference table

  /** The queen placed in column c of row |a| is attacked by none of the
      queens in rows 0..r-1 of a. */
  predicate SafeAt(a: seq<int>, c: int, r: nat)
    requires r <= |a|
  {
    r == 0 || (SafeAt(a, c, r - 1) && c != a[r - 1] && c != a[r - 1] - (|a| - (r - 1)) && c != a[r - 1] + (|a| - (r - 1)))
  }

  /** Rows 0..r-1 of a do not attack row |a| of a + [c] exactly when SafeAt holds. */
  lemma {:induction false} SafeAtAttacks(a: seq<int>, c: int, r: nat)
    requires r <= |a|
    ensures SafeAt(a, c, r) <==> forall i :: 0 <= i < r ==> !Attacks(a + [c], i, |a|)
  {
    if r > 0 {
      SafeAtAttacks(a, c, r - 1);
      var b := a + [c];
      assert b[|a|] == c && b[r - 1] == a[r - 1];
      assert Attacks(b, r - 1, |a|) <==> !(c != a[r - 1] && c != a[r - 1] - (|a| - (r - 1)) && c != a[r - 1] + (|a| - (r - 1)));
      assert (forall i :: 0 <= i < r ==> !Attacks(b, i, |a|)) <==>
        (forall i :: 0 <= i < r - 1 ==> !Attacks(b, i, |a|)) && !Attacks(b, r - 1, |a|);
    }
  }

  /** On a conflict-free board, the repeated test ok(j + 1, b) only decides
      whether the new queen is attacked by one of the earlier queens. */
  lemma ExtendConflictFree(a: seq<int>, c: int)
    requires NoConflict(a)
    ensures NoConflict(a + [c]) <==> SafeAt(a, c, |a|)
  {
    SafeAtAttacks(a, c, |a|);
    var b := a + [c];
    forall i, j | 0 <= i < j < |a|
      ensures !Attacks(b, i, j)
    {
      assert !Attacks(a, i, j);
    }
  }

  /** Branch by the incremental test. */
  lemma BranchBySafe(n: nat, a: seq<int>, c: int)
    requires |a| < n && NoConflict(a)
    ensures Branch(n, a, c) == if SafeAt(a, c, |a|) then Count(n, a + [c]) else 0
    ensures SafeAt(a, c, |a|) ==> NoConflict(a + [c])
  {
    ExtendConflictFree(a, c);
  }

  lemma Unfold4(a: seq<int>)
    requires |a| < 4
    ensures Count(4, a) == Branch(4, a, 0) + Branch(4, a, 1) + Branch(4, a, 2) + Branch(4, a, 3)
  {
    assert ColumnSum(4, a, 0) == 0;
    assert ColumnSum(4, a, 1) == Branch(4, a, 0);
    assert ColumnSum(4, a, 2) == ColumnSum(4, a, 1) + Branch(4, a, 1);
    assert ColumnSum(4, a, 3) == ColumnSum(4, a, 2) + Branch(4, a, 2);
  }

  /** The completions of a queen in column 0 of the first row of a 4 by 4 board. */
  lemma {:induction false} FourFrom0()
    requires NoConflict([0])
    ensures Count(4, [0]) == 0
  {
    Unfold4([0]);
    BranchBySafe(4, [0], 0);
    assert [0] + [0] == [0, 0];
    BranchBySafe(4, [0], 1);
    assert [0] + [1] == [0, 1];
    BranchBySafe(4, [0], 2);
    assert [0] + [2] == [0, 2];
    FourFrom02();
    BranchBySafe(4, [0], 3);
    assert [0] + [3] == [0, 3];
    FourFrom03();
  }

  /** The completions of the queens [0, 2] on a 4 by 4 board. */
  lemma {:induction false} FourFrom02()
    requires NoConflict([0, 2])
    ensures Count(4, [0, 2]) == 0
  {
    Unfold4([0, 2]);
    BranchBySafe(4, [0, 2], 0);
    assert [0, 2] + [0] == [0, 2, 0];
    BranchBySafe(4, [0, 2], 1);
    assert [0, 2] + [1] == [0, 2, 1];
    BranchBySafe(4, [0, 2], 2);
    assert [0, 2] + [2] == [0, 2, 2];
    BranchBySafe(4, [0, 2], 3);
    assert [0, 2] + [3] == [0, 2, 3];
  }

  /** The completions of the queens [0, 3] on a 4 by 4 board. */
  lemma {:induction false} FourFrom03()
    requires NoConflict([0, 3])
    ensures Count(4, [0, 3]) == 0
  {
    Unfold4([0, 3]);
    BranchBySafe(4, [0, 3], 0);
    assert [0, 3] + [0] == [0, 3, 0];
    BranchBySafe(4, [0, 3], 1);
    assert [0, 3] + [1] == [0, 3, 1];
    Unfold4([0, 3, 1]);
    BranchBySafe(4, [0, 3, 1], 0);
    assert [0, 3, 1] + [0] == [0, 3, 1, 0];
    BranchBySafe(4, [0, 3, 1], 1);
    assert [0, 3, 1] + [1] == [0, 3, 1, 1];
    BranchBySafe(4, [0, 3, 1], 2);
    assert [0, 3, 1] + [2] == [0, 3, 1, 2];
    BranchBySafe(4, [0, 3, 1], 3);
    assert [0, 3, 1] + [3] == [0, 3, 1, 3];
    BranchBySafe(4, [0, 3], 2);
    assert [0, 3] + [2] == [0, 3, 2];
    BranchBySafe(4, [0, 3], 3);
    assert [0, 3] + [3] == [0, 3, 3];
  }

  /** The completions of a queen in column 1 of the first row of a 4 by 4 board. */
  lemma {:induction false} FourFrom1()
    requires NoConflict([1])
    ensures Count(4, [1]) == 1
  {
    Unfold4([1]);
    BranchBySafe(4, [1], 0);
    assert [1] + [0] == [1, 0];
    BranchBySafe(4, [1], 1);
    assert [1] + [1] == [1, 1];
    BranchBySafe(4, [1], 2);
    assert [1] + [2] == [1, 2];
    BranchBySafe(4, [1], 3);
    assert [1] + [3] == [1, 3];
    FourFrom13();
  }

  /** The completions of the queens [1, 3] on a 4 by 4 board. */
  lemma {:induction false} FourFrom13()
    requires NoConflict([1, 3])
    ensures Count(4, [1, 3]) == 1
  {
    Unfold4([1, 3]);
    BranchBySafe(4, [1, 3], 0);
    assert [1, 3] + [0] == [1, 3, 0];
    Unfold4([1, 3, 0]);
    BranchBySafe(4, [1, 3, 0], 0);
    assert [1, 3, 0] + [0] == [1, 3, 0, 0];
    BranchBySafe(4, [1, 3, 0], 1);
    assert [1, 3, 0] + [1] == [1, 3, 0, 1];
    BranchBySafe(4, [1, 3, 0], 2);
    assert [1, 3, 0] + [2] == [1, 3, 0, 2];
    BranchBySafe(4, [1, 3, 0], 3);
    assert [1, 3, 0] + [3] == [1, 3, 0, 3];
    BranchBySafe(4, [1, 3], 1);
    assert [1, 3] + [1] == [1, 3, 1];
    BranchBySafe(4, [1, 3], 2);
    assert [1, 3] + [2] == [1, 3, 2];
    BranchBySafe(4, [1, 3], 3);
    assert [1, 3] + [3] == [1, 3, 3];
  }

  /** The completions of a queen in column 2 of the first row of a 4 by 4 board. */
  lemma {:induction false} FourFrom2()
    requires NoConflict([2])
    ensures Count(4, [2]) == 1
  {
    Unfold4([2]);
    BranchBySafe(4, [2], 0);
    assert [2] + [0] == [2, 0];
    FourFrom20();
    BranchBySafe(4, [2], 1);
    assert [2] + [1] == [2, 1];
    BranchBySafe(4, [2], 2);
    assert [2] + [2] == [2, 2];
    BranchBySafe(4, [2], 3);
    assert [2] + [3] == [2, 3];
  }

  /** The completions of the queens [2, 0] on a 4 by 4 board. */
  lemma {:induction false} FourFrom20()
    requires NoConflict([2, 0])
    ensures Count(4, [2, 0]) == 1
  {
    Unfold4([2, 0]);
    BranchBySafe(4, [2, 0], 0);
    assert [2, 0] + [0] == [2, 0, 0];
    BranchBySafe(4, [2, 0], 1);
    assert [2, 0] + [1] == [2, 0, 1];
    BranchBySafe(4, [2, 0], 2);
    assert [2, 0] + [2] == [2, 0, 2];
    BranchBySafe(4, [2, 0], 3);
    assert [2, 0] + [3] == [2, 0, 3];
    Unfold4([2, 0, 3]);
    BranchBySafe(4, [2, 0, 3], 0);
    assert [2, 0, 3] + [0] == [2, 0, 3, 0];
    BranchBySafe(4, [2, 0, 3], 1);
    assert [2, 0, 3] + [1] == [2, 0, 3, 1];
    BranchBySafe(4, [2, 0, 3], 2);
    assert [2, 0, 3] + [2] == [2, 0, 3, 2];
    BranchBySafe(4, [2, 0, 3], 3);
    assert [2, 0, 3] + [3] == [2, 0, 3, 3];
  }

  /** The completions of a queen in column 3 of the first row of a 4 by 4 board. */
  lemma {:induction false} FourFrom3()
    requires NoConflict([3])
    ensures Count(4, [3]) == 0
  {
    Unfold4([3]);
    BranchBySafe(4, [3], 0);
    assert [3] + [0] == [3, 0];
    FourFrom30();
    BranchBySafe(4, [3], 1);
    assert [3] + [1] == [3, 1];
    FourFrom31();
    BranchBySafe(4, [3], 2);
    assert [3] + [2] == [3, 2];
    BranchBySafe(4, [3], 3);
    assert [3] + [3] == [3, 3];
  }

  /** The completions of the queens [3, 0] on a 4 by 4 board. */
  lemma {:induction false} FourFrom30()
    requires NoConflict([3, 0])
    ensures Count(4, [3, 0]) == 0
  {
    Unfold4([3, 0]);
    BranchBySafe(4, [3, 0], 0);
    assert [3, 0] + [0] == [3, 0, 0];
    BranchBySafe(4, [3, 0], 1);
    assert [3, 0] + [1] == [3, 0, 1];
    BranchBySafe(4, [3, 0], 2);
    assert [3, 0] + [2] == [3, 0, 2];
    Unfold4([3, 0, 2]);
    BranchBySafe(4, [3, 0, 2], 0);
    assert [3, 0, 2] + [0] == [3, 0, 2, 0];
    BranchBySafe(4, [3, 0, 2], 1);
    assert [3, 0, 2] + [1] == [3, 0, 2, 1];
    BranchBySafe(4, [3, 0, 2], 2);
    assert [3, 0, 2] + [2] == [3, 0, 2, 2];
    BranchBySafe(4, [3, 0, 2], 3);
    assert [3, 0, 2] + [3] == [3, 0, 2, 3];
    BranchBySafe(4, [3, 0], 3);
    assert [3, 0] + [3] == [3, 0, 3];
  }

  /** The completions of the queens [3, 1] on a 4 by 4 board. */
  lemma {:induction false} FourFrom31()
    requires NoConflict([3, 1])
    ensures Count(4, [3, 1]) == 0
  {
    Unfold4([3, 1]);
    BranchBySafe(4, [3, 1], 0);
    assert [3, 1] + [0] == [3, 1, 0];
    BranchBySafe(4, [3, 1], 1);
    assert [3, 1] + [1] == [3, 1, 1];
    BranchBySafe(4, [3, 1], 2);
    assert [3, 1] + [2] == [3, 1, 2];
    BranchBySafe(4, [3, 1], 3);
    assert [3, 1] + [3] == [3, 1, 3];
  }

  /** The 4-queens puzzle has 2 solutions, the first entry of the reference
      table. */
  lemma {:induction false} FourQueens()
    ensures Count(4, []) == 2
  {
    Unfold4([]);
    BranchBySafe(4, [], 0);
    assert [] + [0] == [0];
    FourFrom0();
    BranchBySafe(4, [], 1);
    assert [] + [1] == [1];
    FourFrom1();
    BranchBySafe(4, [], 2);
    assert [] + [2] == [2];
    FourFrom2();
    BranchBySafe(4, [], 3);
    assert [] + [3] == [3];
    FourFrom3();
  }
}
