/** How the driver combines the outcomes of its mypy runs: the exit code is
    the largest one seen, the file count is the sum, and `main` turns the
    two into the process exit status. */
module Results {

  /** `TestResults`: mypy's exit code and the number of files checked. */
  datatype TestResults = TestResults(exitCode: int, filesChecked: nat)

  /** `code = max(code, this_code)` and `files_checked += checked`. */
  function Combine(acc: TestResults, run: TestResults): (c: TestResults)
    ensures c.exitCode >= acc.exitCode && c.exitCode >= run.exitCode
    ensures c.exitCode == acc.exitCode || c.exitCode == run.exitCode
    ensures c.filesChecked == acc.filesChecked + run.filesChecked
  {
    TestResults(if run.exitCode > acc.exitCode then run.exitCode else acc.exitCode, acc.filesChecked + run.filesChecked)
  }

  /** The files checked over several runs. */
  function SumFiles(runs: seq<TestResults>): nat
    decreases |runs|
  {
    if |runs| == 0 then 0 else runs[0].filesChecked + SumFiles(runs[1..])
  }

  /** Several runs in turn, starting from `acc`: the code is the largest of
      the starting code and every run's code, and the counts add up. */
  function Fold(acc: TestResults, runs: seq<TestResults>): (r: TestResults)
    ensures r.exitCode >= acc.exitCode
    ensures forall i :: 0 <= i < |runs| ==> r.exitCode >= runs[i].exitCode
    ensures r.exitCode == acc.exitCode || exists i :: 0 <= i < |runs| && r.exitCode == runs[i].exitCode
    ensures r.filesChecked == acc.filesChecked + SumFiles(runs)
    decreases |runs|
  {
    if |runs| == 0 then acc
    else
      var r := Fold(Combine(acc, runs[0]), runs[1..]);
      assert forall i :: 1 <= i < |runs| ==> runs[i] == runs[1..][i - 1];
      r
  }

  /** The sum over two lists of runs, one after the other. */
  lemma {:induction false} SumFilesAppend(a: seq<TestResults>, b: seq<TestResults>)
    ensures SumFiles(a + b) == SumFiles(a) + SumFiles(b)
    decreases |a|
  {
    if |a| == 0 {
      assert a + b == b;
    } else {
      assert (a + b)[1..] == a[1..] + b;
      SumFilesAppend(a[1..], b);
    }
  }

  /** Taking one run out of the sum. */
  lemma {:induction false} SumFilesRemove(runs: seq<TestResults>, i: nat)
    requires i < |runs|
    ensures SumFiles(runs) == runs[i].filesChecked + SumFiles(runs[..i] + runs[i + 1..])
  {
    var pre, post := runs[..i], runs[i + 1..];
    var tail := [runs[i]] + post;
    assert runs == pre + tail;
    assert tail[1..] == post;
    assert SumFiles(tail) == runs[i].filesChecked + SumFiles(post);
    SumFilesAppend(pre, tail);
    SumFilesAppend(pre, post);
  }

  /** Removing the element at `i` removes one occurrence from the multiset. */
  lemma MultisetRemove<T>(s: seq<T>, i: nat)
    requires i < |s|
    ensures multiset(s[..i] + s[i + 1..]) == multiset(s) - multiset{s[i]}
  {
    assert s == s[..i] + [s[i]] + s[i + 1..];
  }

  /** The first run of `a` sits somewhere in `b`; taking it out of both
      leaves two permutations of each other. */
  lemma MatchFirst(a: seq<TestResults>, b: seq<TestResults>) returns (i: nat)
    requires |a| > 0 && multiset(a) == multiset(b)
    ensures i < |b| && b[i] == a[0]
    ensures multiset(a[1..]) == multiset(b[..i] + b[i + 1..])
  {
    assert a[0] in multiset(b);
    i :| 0 <= i < |b| && b[i] == a[0];
    assert a[..0] + a[1..] == a[1..];
    MultisetRemove(a, 0);
    var left := multiset(a[1..]);
    assert left == multiset(a) - multiset{a[0]};
    MultisetRemove(b, i);
    assert multiset(b[..i] + b[i + 1..]) == multiset(b) - multiset{b[i]};
  }

  /** The total does not depend on the order of the runs. */
  lemma {:induction false} SumFilesPermutation(a: seq<TestResults>, b: seq<TestResults>)
    requires multiset(a) == multiset(b)
    ensures SumFiles(a) == SumFiles(b)
    decreases |a|
  {
    if |a| > 0 {
      var i := MatchFirst(a, b);
      SumFilesPermutation(a[1..], b[..i] + b[i + 1..]);
      SumFilesRemove(b, i);
    } else {
      assert |b| == |multiset(b)| == 0;
    }
  }

  /** Neither the exit code nor the count depends on the order the runs
      happen in, so iterating the distributions in another order gives the
      same results. */
  lemma FoldOrderInsensitive(acc: TestResults, a: seq<TestResults>, b: seq<TestResults>)
    requires multiset(a) == multiset(b)
    ensures Fold(acc, a) == Fold(acc, b)
  {
    SumFilesPermutation(a, b);
    var ra := Fold(acc, a);
    var rb := Fold(acc, b);
    forall i | 0 <= i < |a| ensures rb.exitCode >= a[i].exitCode {
      assert a[i] in multiset(b);
    }
    forall i | 0 <= i < |b| ensures ra.exitCode >= b[i].exitCode {
      assert b[i] in multiset(a);
    }
    if ra.exitCode != acc.exitCode {
      var i :| 0 <= i < |a| && ra.exitCode == a[i].exitCode;
    }
    if rb.exitCode != acc.exitCode {
      var i :| 0 <= i < |b| && rb.exitCode == b[i].exitCode;
    }
  }

  /** Starting from 0, a run that mypy ends with a negative code (a signal)
      leaves the code at 0: such runs cannot fail the test. */
  lemma NegativeCodesAreMasked(runs: seq<TestResults>)
    requires forall i :: 0 <= i < |runs| ==> runs[i].exitCode < 0
    ensures Fold(TestResults(0, 0), runs).exitCode == 0
  {
  }

  /** A worked example: codes 0, 2, 1 over 3, 5 and 1 files. */
  lemma FoldExample()
    ensures Fold(TestResults(0, 0), [TestResults(0, 3), TestResults(2, 5), TestResults(1, 1)]) == TestResults(2, 9)
  {
    var runs := [TestResults(0, 3), TestResults(2, 5), TestResults(1, 1)];
    assert runs[1..] == [TestResults(2, 5), TestResults(1, 1)];
    assert runs[1..][1..] == [TestResults(1, 1)];
  }

  /** `main`'s exit status: a non-zero code is the status; otherwise no file
      checked is status 1 ("nothing to do"), and anything else is 0. */
  function ExitStatus(code: int, total: nat): (status: int)
    ensures status == 0 <==> code == 0 && total > 0
    ensures code != 0 ==> status == code
    ensures code == 0 && total == 0 ==> status == 1
  {
    if code != 0 then code else if total == 0 then 1 else 0
  }

  /** `itertools.product(versions, platforms)`: every pair, versions in the
      outer loop. */
  function Product<A(!new), B(!new)>(xs: seq<A>, ys: seq<B>): (r: seq<(A, B)>)
    ensures |r| == |xs| * |ys|
    ensures forall p :: p in r <==> p.0 in xs && p.1 in ys
    decreases |xs|
  {
    if |xs| == 0 then []
    else
      var head := seq(|ys|, j requires 0 <= j < |ys| => (xs[0], ys[j]));
      var rest := Product(xs[1..], ys);
      assert |xs| * |ys| == |ys| + (|xs| - 1) * |ys|;
      assert forall y :: y in ys ==> (xs[0], y) in head by {
        forall y | y in ys ensures (xs[0], y) in head {
          var j :| 0 <= j < |ys| && ys[j] == y;
          assert head[j] == (xs[0], y);
        }
      }
      assert forall x :: x in xs ==> x == xs[0] || x in xs[1..];
      head + rest
  }
}
