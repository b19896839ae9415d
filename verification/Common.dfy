/** Shared vocabulary: optional values, counting, and runs of a transition system. */
module Common {
  datatype Option<+T> = None | Some(value: T)

  /** A finite run: it starts in an initial state and every step is a transition. */
  ghost predicate IsRun<S(!new)>(init: S -> bool, next: (S, S) -> bool, run: seq<S>)
  {
    && |run| > 0
    && init(run[0])
    && forall i :: 0 <= i < |run| - 1 ==> next(run[i], run[i + 1])
  }

  /** What holds initially and is kept by every transition holds along every run. */
  lemma {:induction false} AlwaysOnRun<S(!new)>(
      init: S -> bool, next: (S, S) -> bool, inv: S -> bool, run: seq<S>, k: nat)
    requires IsRun(init, next, run)
    requires forall s :: init(s) ==> inv(s)
    requires forall s, s' {:trigger next(s, s')} :: inv(s) && next(s, s') ==> inv(s')
    requires k < |run|
    ensures inv(run[k])
    decreases k
  {
    if k > 0 {
      AlwaysOnRun(init, next, inv, run, k - 1);
      assert next(run[k - 1], run[k - 1 + 1]);
    }
  }

  /** What every transition keeps holds from any point of a run onwards. */
  lemma {:induction false} KeptOnRun<S(!new)>(
      init: S -> bool, next: (S, S) -> bool, kept: S -> bool, run: seq<S>, j: nat, k: nat)
    requires IsRun(init, next, run)
    requires forall s, s' {:trigger next(s, s')} :: kept(s) && next(s, s') ==> kept(s')
    requires j <= k < |run| && kept(run[j])
    ensures kept(run[k])
    decreases k
  {
    if j < k {
      KeptOnRun(init, next, kept, run, j, k - 1);
      assert next(run[k - 1], run[k - 1 + 1]);
    }
  }

  /** What every transition keeps while a condition lasts holds for as long as it lasts. */
  lemma {:induction false} KeptWhile<S(!new)>(
      init: S -> bool, next: (S, S) -> bool, during: S -> bool, kept: S -> bool, run: seq<S>, j: nat, k: nat)
    requires IsRun(init, next, run)
    requires forall s, s' {:trigger next(s, s')} :: kept(s) && next(s, s') && during(s') ==> kept(s')
    requires j <= k < |run| && kept(run[j]) && forall m :: j <= m <= k ==> during(run[m])
    ensures kept(run[k])
    decreases k
  {
    if j < k {
      KeptWhile(init, next, during, kept, run, j, k - 1);
      assert next(run[k - 1], run[k - 1 + 1]);
    }
  }

  function One(b: bool): nat { if b then 1 else 0 }

  /** How many elements satisfy `p`. */
  function Count<T>(s: seq<T>, p: T -> bool): nat {
    if s == [] then 0 else One(p(s[0])) + Count(s[1..], p)
  }

  lemma {:induction false} CountUpdate<T>(s: seq<T>, i: nat, x: T, p: T -> bool)
    requires i < |s|
    ensures Count(s[i := x], p) + One(p(s[i])) == Count(s, p) + One(p(x))
  {
    if i > 0 {
      assert s[i := x][1..] == s[1..][i - 1 := x];
      CountUpdate(s[1..], i - 1, x, p);
    } else {
      assert s[0 := x][1..] == s[1..];
    }
  }

  lemma {:induction false} CountZero<T>(s: seq<T>, p: T -> bool, i: nat)
    requires Count(s, p) == 0 && i < |s|
    ensures !p(s[i])
  {
    if i > 0 { CountZero(s[1..], p, i - 1); }
  }

  lemma {:induction false} CountNone<T>(s: seq<T>, p: T -> bool)
    requires forall i :: 0 <= i < |s| ==> !p(s[i])
    ensures Count(s, p) == 0
  {
    if s != [] { CountNone(s[1..], p); }
  }

  lemma {:induction false} CountSome<T>(s: seq<T>, p: T -> bool)
    requires Count(s, p) > 0
    ensures exists i :: 0 <= i < |s| && p(s[i])
  {
    if !p(s[0]) {
      CountSome(s[1..], p);
      var i :| 0 <= i < |s| - 1 && p(s[1..][i]);
      assert p(s[i + 1]);
    }
  }

  lemma {:induction false} CountLe<T(!new)>(s: seq<T>, p: T -> bool, q: T -> bool)
    requires forall x :: p(x) ==> q(x)
    ensures Count(s, p) <= Count(s, q)
  {
    if s != [] { CountLe(s[1..], p, q); }
  }

  predicate Distinct<T(==)>(t: seq<T>) { forall i, j :: 0 <= i < j < |t| ==> t[i] != t[j] }

  /** The first position that satisfies `p`, or the length. */
  function FirstWhere<T>(s: seq<T>, p: T -> bool): (i: nat)
    ensures i <= |s|
    ensures i < |s| ==> p(s[i])
    ensures forall j :: 0 <= j < i ==> !p(s[j])
  {
    if s == [] then 0
    else if p(s[0]) then 0
    else
      var k := FirstWhere(s[1..], p);
      assert forall j :: 1 <= j < k + 1 ==> s[j] == s[1..][j - 1];
      k + 1
  }
}
