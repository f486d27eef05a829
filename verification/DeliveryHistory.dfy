/** Reading a stream of records back (pkg/delivery/history.go): sorting it and checking its chain. */
module DeliveryHistory {
  import opened Basics
  import opened Delivery
  import opened DeliveryLedger
  import opened DeliveryLife
  import opened DeliveryPromises
  import opened DeliveryRuns
  import opened Versions
  import Order

  datatype Problem =
    | Forked(num: nat)
    | Missing(first: nat, last: nat)
    | Unchained(num: nat)
    | OlderMissing
    | GapAt(num: nat)
    | HiddenMove(num: nat)

  /** The chain itself is broken; a recorded gap or an unrecorded move leaves it whole. */
  predicate Breaks(p: Problem) {
    p.Forked? || p.Missing? || p.Unchained? || p.OlderMissing?
  }

  predicate Precedes(a: Stored, b: Stored) {
    a.statement.num < b.statement.num || (a.statement.num == b.statement.num && Order.Less(a.id, b.id))
  }

  function Place(s: seq<Stored>, x: Stored): seq<Stored>
    decreases |s|
  {
    if s == [] || !Precedes(x, s[|s| - 1]) then s + [x]
    else Place(s[..|s| - 1], x) + [s[|s| - 1]]
  }

  /** The records by chain number, then by id; equal ones keep their order. */
  function BySeq(recs: seq<Stored>): seq<Stored>
    decreases |recs|
  {
    if recs == [] then [] else Place(BySeq(recs[..|recs| - 1]), recs[|recs| - 1])
  }

  ghost predicate Rising(recs: seq<Stored>) {
    forall i, j | 0 <= i < j < |recs| :: recs[i].statement.num <= recs[j].statement.num
  }

  lemma {:induction false} PlaceKeeps(s: seq<Stored>, x: Stored)
    requires Rising(s)
    ensures Rising(Place(s, x)) && multiset(Place(s, x)) == multiset(s) + multiset{x}
    ensures forall y | y in Place(s, x) :: y == x || y in s
    decreases |s|
  {
    if s != [] {
      var init, last := s[..|s| - 1], s[|s| - 1];
      assert s == init + [last];
      if Precedes(x, last) {
        PlaceKeeps(init, x);
        var p := Place(init, x);
        forall i | 0 <= i < |p| ensures p[i].statement.num <= last.statement.num {
          assert p[i] in p;
        }
      }
    }
  }

  lemma {:induction false} BySeqKeeps(recs: seq<Stored>)
    ensures Rising(BySeq(recs)) && multiset(BySeq(recs)) == multiset(recs)
    decreases |recs|
  {
    if recs != [] {
      var init := recs[..|recs| - 1];
      assert recs == init + [recs[|recs| - 1]];
      BySeqKeeps(init);
      PlaceKeeps(BySeq(init), recs[|recs| - 1]);
    }
  }

  /** A chain is in order already. */
  lemma {:induction false} ChainIsSorted(recs: seq<Stored>)
    requires Chained(recs)
    ensures BySeq(recs) == recs
    decreases |recs|
  {
    if recs != [] {
      var init, x := recs[..|recs| - 1], recs[|recs| - 1];
      ChainPrefix(recs, |recs| - 1);
      ChainIsSorted(init);
      assert recs == init + [x] && Linked(recs, |recs| - 1);
      if init != [] {
        assert Linked(recs, |recs| - 2);
        assert !Precedes(x, init[|init| - 1]);
      }
      PlaceLast(init, x);
    }
  }

  lemma {:induction false} PlaceLast(s: seq<Stored>, x: Stored)
    requires s == [] || !Precedes(x, s[|s| - 1])
    ensures Place(s, x) == s + [x]
  {
  }

  lemma {:induction false} ChainPrefix(recs: seq<Stored>, n: nat)
    requires Chained(recs) && n <= |recs|
    ensures Chained(recs[..n])
  {
    forall i | 0 <= i < n ensures Linked(recs[..n], i) {
      assert Linked(recs, i);
      assert recs[..n][..i] == recs[..i];
    }
  }

  // ---- the fold -----------------------------------------------------------------------------------

  datatype Fold = Fold(prev: Option<Stored>, lastAfter: string, lastSeq: nat, problems: seq<Problem>)

  /** What is wrong with `x` after what was folded so far, if anything. */
  function ChainProblem(f: Fold, x: Stored): seq<Problem> {
    var num := x.statement.num;
    if f.prev.Some? && num == f.lastSeq then [Forked(num)]
    else if num > f.lastSeq + 1 then [Missing(f.lastSeq + 1, num - 1)]
    else if f.prev.Some? && x.statement.parent != f.prev.value.id then [Unchained(num)]
    else if f.prev.None? && num == 1 && x.statement.parent != "" then [OlderMissing]
    else []
  }

  function MoveProblem(f: Fold, x: Stored): seq<Problem> {
    if x.statement.after != "" && f.lastAfter != "" && x.statement.before != f.lastAfter then [HiddenMove(x.statement.num)] else []
  }

  function GapProblem(x: Stored): seq<Problem> {
    if x.statement.op == 0 then [GapAt(x.statement.num)] else []
  }

  function Add(f: Fold, x: Stored): Fold {
    if f.prev.Some? && x.statement.num == f.lastSeq then f.(problems := f.problems + ChainProblem(f, x))
    else Fold(Some(x), if x.statement.after != "" then x.statement.after else f.lastAfter, x.statement.num,
              f.problems + ChainProblem(f, x) + GapProblem(x) + MoveProblem(f, x))
  }

  function Folded(recs: seq<Stored>): Fold
    decreases |recs|
  {
    if recs == [] then Fold(None, "", 0, []) else Add(Folded(recs[..|recs| - 1]), recs[|recs| - 1])
  }

  ghost predicate Unbroken(problems: seq<Problem>) {
    forall i | 0 <= i < |problems| :: !Breaks(problems[i])
  }

  lemma {:induction false} UnbrokenParts(a: seq<Problem>, b: seq<Problem>)
    ensures Unbroken(a + b) <==> Unbroken(a) && Unbroken(b)
  {
    if Unbroken(a + b) {
      assert forall i | 0 <= i < |a| :: a[i] == (a + b)[i];
      assert forall i | 0 <= i < |b| :: b[i] == (a + b)[|a| + i];
    }
  }

  lemma {:induction false} AddBreaks(f: Fold, x: Stored)
    ensures Unbroken(Add(f, x).problems) <==> Unbroken(f.problems) && ChainProblem(f, x) == []
  {
    UnbrokenParts(f.problems, ChainProblem(f, x));
    UnbrokenParts(f.problems + ChainProblem(f, x), GapProblem(x));
    UnbrokenParts(f.problems + ChainProblem(f, x) + GapProblem(x), MoveProblem(f, x));
    if ChainProblem(f, x) != [] {
      assert Breaks(ChainProblem(f, x)[0]);
    }
  }

  /** After a whole chain, the next record is no problem exactly when it is the next link. */
  lemma {:induction false} NextLink(init: seq<Stored>, f: Fold, x: Stored)
    requires Chained(init) && f.lastSeq == |init| && f.prev == (if init == [] then None else Some(init[|init| - 1]))
    requires 0 < x.statement.num && |init| <= x.statement.num
    ensures ChainProblem(f, x) == [] <==> Chained(init + [x])
  {
    if ChainProblem(f, x) == [] {
      ChainedGrows(init, x);
    }
    if Chained(init + [x]) {
      assert Linked(init + [x], |init|) && (init + [x])[..|init|] == init;
    }
  }

  /** The fold finds the chain whole exactly when it is one: numbered from 1 with none missing or twice, each naming the one before. */
  lemma {:induction false} FoldFindsBreaks(recs: seq<Stored>)
    requires Rising(recs) && forall i | 0 <= i < |recs| :: recs[i].statement.num > 0
    ensures Unbroken(Folded(recs).problems) <==> Chained(recs)
    ensures Chained(recs) ==> Folded(recs).lastSeq == |recs| && Folded(recs).prev == LastOf(recs)
    decreases |recs|
  {
    if recs != [] {
      var init, x := recs[..|recs| - 1], recs[|recs| - 1];
      FoldFindsBreaks(init);
      AddBreaks(Folded(init), x);
      assert recs == init + [x];
      if Chained(init) {
        LastNum(recs);
        NextLink(init, Folded(init), x);
        assert Chained(recs) ==> x.statement.num == |recs|;
      } else if Chained(recs) {
        ChainPrefix(recs, |recs| - 1);
      }
    }
  }

  function LastOf(recs: seq<Stored>): Option<Stored> {
    if recs == [] then None else Some(recs[|recs| - 1])
  }

  lemma {:induction false} LastNum(recs: seq<Stored>)
    requires recs != [] && Rising(recs) && recs[|recs| - 1].statement.num > 0 && Chained(recs[..|recs| - 1])
    ensures |recs| - 1 <= recs[|recs| - 1].statement.num
    ensures Chained(recs) ==> recs[|recs| - 1].statement.num == |recs|
  {
    var init := recs[..|recs| - 1];
    if init != [] {
      assert Linked(init, |init| - 1) && init[|init| - 1] == recs[|recs| - 2];
    }
    if Chained(recs) {
      assert Linked(recs, |recs| - 1);
    }
  }

  // ---- what the problems say -----------------------------------------------------------------------

  /** By number, then by id. */
  ghost predicate InOrder(recs: seq<Stored>) {
    forall i, j | 0 <= i < j < |recs| :: !Precedes(recs[j], recs[i])
  }

  lemma {:induction false} PlaceInOrder(s: seq<Stored>, x: Stored)
    requires InOrder(s)
    ensures InOrder(Place(s, x)) && forall y | y in Place(s, x) :: y == x || y in s
    decreases |s|
  {
    if s != [] {
      var init, last := s[..|s| - 1], s[|s| - 1];
      if Precedes(x, last) {
        PlaceInOrder(init, x);
        var p := Place(init, x);
        forall i | 0 <= i < |p| ensures !Precedes(last, p[i]) {
          assert p[i] in p;
          if p[i] == x {
            Order.LessIrreflexive(x.id);
            if Precedes(last, x) && x.statement.num == last.statement.num {
              Order.LessTransitive(x.id, last.id, x.id);
            }
          }
        }
      } else {
        forall i | 0 <= i < |s| ensures !Precedes(x, s[i]) {
          if Precedes(x, s[i]) && i < |s| - 1 {
            PrecedesBoth(x, s[i], last);
          }
        }
      }
    }
  }

  lemma {:induction false} PrecedesBoth(x: Stored, y: Stored, z: Stored)
    requires Precedes(x, y) && !Precedes(z, y)
    ensures Precedes(x, z)
  {
    if x.statement.num == z.statement.num {
      Order.LessTotal(y.id, z.id);
      if Order.Less(y.id, z.id) {
        Order.LessTransitive(x.id, y.id, z.id);
      }
    }
  }

  lemma {:induction false} BySeqInOrder(recs: seq<Stored>)
    ensures InOrder(BySeq(recs))
    decreases |recs|
  {
    if recs != [] {
      BySeqInOrder(recs[..|recs| - 1]);
      PlaceInOrder(BySeq(recs[..|recs| - 1]), recs[|recs| - 1]);
    }
  }

  /** The record at `i` is the first of its number. */
  predicate FirstOfNumber(recs: seq<Stored>, i: int) {
    0 <= i < |recs| && (i == 0 || recs[i - 1].statement.num < recs[i].statement.num)
  }

  predicate RecordsMove(recs: seq<Stored>, i: int) {
    FirstOfNumber(recs, i) && recs[i].statement.after != ""
  }

  /** The last move recorded before `j`. */
  ghost predicate MovedLast(recs: seq<Stored>, i: int, j: int) {
    i < j && RecordsMove(recs, i) && forall m | i < m < j :: !RecordsMove(recs, m)
  }

  /** `i` and `j` are the first records of two numbers in a row. */
  predicate IsNextNumber(recs: seq<Stored>, i: int, j: int) {
    i < j && FirstOfNumber(recs, i) && FirstOfNumber(recs, j) && recs[j].statement.num == recs[i].statement.num + 1
  }

  /** The record at `j` gives rise to the problem `p`. */
  ghost predicate IsSoAt(recs: seq<Stored>, j: int, p: Problem) {
    && 0 <= j < |recs|
    && var x := recs[j].statement;
       match p
       case Forked(n) => j > 0 && x.num == n == recs[j - 1].statement.num
       case Missing(a, b) => a <= b && x.num == b + 1 && a == if j == 0 then 1 else recs[j - 1].statement.num + 1
       case Unchained(n) =>
         x.num == n && exists i :: IsNextNumber(recs, i, j) && x.parent != recs[i].id
       case OlderMissing => j == 0 && x.num == 1 && x.parent != ""
       case GapAt(n) => FirstOfNumber(recs, j) && x.num == n && x.op == 0
       case HiddenMove(n) => RecordsMove(recs, j) && x.num == n && exists i :: MovedLast(recs, i, j) && x.before != recs[i].statement.after
  }

  ghost predicate IsSo(recs: seq<Stored>, p: Problem) {
    exists j :: IsSoAt(recs, j, p)
  }

  lemma {:induction false} FirstsRise(recs: seq<Stored>, i: int, j: int)
    requires Rising(recs) && FirstOfNumber(recs, i) && FirstOfNumber(recs, j) && i < j
    ensures recs[i].statement.num < recs[j].statement.num
  {
    assert recs[i].statement.num <= recs[j - 1].statement.num;
  }

  /** The fold remembers the first record of the last number... */
  ghost predicate Recalls(recs: seq<Stored>, f: Fold, i: int) {
    if recs == [] then f.prev.None? && f.lastSeq == 0
    else FirstOfNumber(recs, i) && recs[i].statement.num == f.lastSeq == recs[|recs| - 1].statement.num && f.prev == Some(recs[i])
  }

  /** ...and where the last move recorded went. */
  ghost predicate RecallsMove(recs: seq<Stored>, f: Fold, m: int) {
    if m < 0 then f.lastAfter == "" && forall j | 0 <= j < |recs| :: !RecordsMove(recs, j)
    else MovedLast(recs, m, |recs|) && f.lastAfter == recs[m].statement.after
  }

  lemma {:induction false} SameFirsts(recs: seq<Stored>, n: nat)
    requires n <= |recs|
    ensures forall j | 0 <= j < n :: FirstOfNumber(recs[..n], j) == FirstOfNumber(recs, j) && RecordsMove(recs[..n], j) == RecordsMove(recs, j)
  {
  }

  lemma {:induction false} AddRecalls(recs: seq<Stored>, f: Fold, i: int, m: int) returns (i': int, m': int)
    requires Rising(recs) && recs != [] && Recalls(recs[..|recs| - 1], f, i) && RecallsMove(recs[..|recs| - 1], f, m)
    ensures var f' := Add(f, recs[|recs| - 1]); Recalls(recs, f', i') && RecallsMove(recs, f', m')
  {
    var n := |recs| - 1;
    SameFirsts(recs, n);
    i', m' := i, m;
    if FirstOfNumber(recs, n) {
      i' := n;
      m' := if recs[n].statement.after != "" then n else m;
    }
  }

  lemma {:induction false} FoldRecalls(recs: seq<Stored>) returns (i: int, m: int)
    requires Rising(recs)
    ensures Recalls(recs, Folded(recs), i) && RecallsMove(recs, Folded(recs), m)
    decreases |recs|
  {
    i, m := 0, -1;
    if recs != [] {
      i, m := FoldRecalls(recs[..|recs| - 1]);
      i, m := AddRecalls(recs, Folded(recs[..|recs| - 1]), i, m);
    }
  }

  lemma {:induction false} IsSoBefore(recs: seq<Stored>, j: int, p: Problem)
    requires 0 <= j < |recs| - 1
    ensures IsSoAt(recs, j, p) == IsSoAt(recs[..|recs| - 1], j, p)
  {
    var init := recs[..|recs| - 1];
    assert forall i | 0 <= i < |init| :: FirstOfNumber(init, i) == FirstOfNumber(recs, i) && RecordsMove(init, i) == RecordsMove(recs, i);
    if p.HiddenMove? {
      forall i | 0 <= i < j ensures MovedLast(init, i, j) == MovedLast(recs, i, j) {
      }
    }
  }

  lemma {:induction false} ChainTells(recs: seq<Stored>, f: Fold, i: int, p: Problem)
    requires Rising(recs) && recs != [] && Recalls(recs[..|recs| - 1], f, i)
    ensures p in ChainProblem(f, recs[|recs| - 1]) <==> IsSoAt(recs, |recs| - 1, p) && Breaks(p)
  {
    if p.Unchained? {
      UnchainedTells(recs, f, i, p);
    }
  }

  lemma {:induction false} UnchainedTells(recs: seq<Stored>, f: Fold, i: int, p: Problem)
    requires Rising(recs) && recs != [] && Recalls(recs[..|recs| - 1], f, i) && p.Unchained?
    ensures p in ChainProblem(f, recs[|recs| - 1]) <==> IsSoAt(recs, |recs| - 1, p)
  {
    var n := |recs| - 1;
    if n > 0 {
      SameFirsts(recs, n);
      forall j | IsNextNumber(recs, j, n) ensures f.prev.value == recs[j] {
        SamePlace(recs, i, j, n);
      }
      assert recs[n].statement.num == f.lastSeq + 1 ==> IsNextNumber(recs, i, n);
    }
  }

  /** The number before the last one has one first record. */
  lemma {:induction false} SamePlace(recs: seq<Stored>, i: int, j: int, n: int)
    requires Rising(recs) && FirstOfNumber(recs, i) && i < n && IsNextNumber(recs, j, n) && recs[i].statement.num == recs[n - 1].statement.num
    ensures i == j
  {
    assert recs[j].statement.num <= recs[n - 1].statement.num < recs[n].statement.num;
    if i < j {
      FirstsRise(recs, i, j);
    } else if j < i {
      FirstsRise(recs, j, i);
    }
  }

  lemma {:induction false} MoveTells(recs: seq<Stored>, f: Fold, m: int, p: Problem)
    requires recs != [] && RecallsMove(recs[..|recs| - 1], f, m) && FirstOfNumber(recs, |recs| - 1)
    ensures p in MoveProblem(f, recs[|recs| - 1]) <==> IsSoAt(recs, |recs| - 1, p) && p.HiddenMove?
  {
    SameFirsts(recs, |recs| - 1);
    assert m >= 0 ==> MovedLast(recs, m, |recs| - 1);
  }

  /** What the last record adds is what it gives rise to. */
  lemma {:induction false} AddTells(recs: seq<Stored>, f: Fold, i: int, m: int, p: Problem)
    requires Rising(recs) && recs != [] && Recalls(recs[..|recs| - 1], f, i) && RecallsMove(recs[..|recs| - 1], f, m)
    ensures p in Add(f, recs[|recs| - 1]).problems <==> p in f.problems || IsSoAt(recs, |recs| - 1, p)
  {
    ChainTells(recs, f, i, p);
    if FirstOfNumber(recs, |recs| - 1) {
      MoveTells(recs, f, m, p);
    }
  }

  /** A problem is reported if and only if it is so. */
  lemma {:induction false} FoldTells(recs: seq<Stored>, p: Problem)
    requires Rising(recs)
    ensures p in Folded(recs).problems <==> IsSo(recs, p)
    decreases |recs|
  {
    if recs != [] {
      var init := recs[..|recs| - 1];
      FoldTells(init, p);
      var i, m := FoldRecalls(init);
      AddTells(recs, Folded(init), i, m, p);
      SoBeforeOrNow(recs, p);
    }
  }

  lemma {:induction false} SoBeforeOrNow(recs: seq<Stored>, p: Problem)
    requires recs != []
    ensures IsSo(recs, p) <==> IsSo(recs[..|recs| - 1], p) || IsSoAt(recs, |recs| - 1, p)
  {
    var init := recs[..|recs| - 1];
    forall j | 0 <= j < |recs| - 1 ensures IsSoAt(recs, j, p) == IsSoAt(init, j, p) {
      IsSoBefore(recs, j, p);
    }
    if j :| IsSoAt(recs, j, p) {
      assert j < |recs| - 1 ==> IsSoAt(init, j, p);
    }
    if j :| IsSoAt(init, j, p) {
      assert IsSoAt(recs, j, p);
    }
  }

  /** What is reported is exactly what is so. */
  ghost predicate TellsAll(recs: seq<Stored>, problems: seq<Problem>) {
    forall p :: p in problems <==> IsSo(recs, p)
  }

  lemma {:induction false} FoldTellsAll(recs: seq<Stored>)
    ensures var sorted := BySeq(recs);
            multiset(sorted) == multiset(recs) && InOrder(sorted) && TellsAll(sorted, Folded(sorted).problems)
  {
    BySeqKeeps(recs);
    BySeqInOrder(recs);
    forall p ensures p in Folded(BySeq(recs)).problems <==> IsSo(BySeq(recs), p) {
      FoldTells(BySeq(recs), p);
    }
  }

  method SortBySeq(recs: seq<Stored>) returns (sorted: seq<Stored>)
    ensures sorted == BySeq(recs)
  {
    sorted := [];
    for i := 0 to |recs|
      invariant sorted == BySeq(recs[..i])
    {
      assert recs[..i + 1][..i] == recs[..i];
      sorted := Place(sorted, recs[i]);
    }
    assert recs[..|recs|] == recs;
  }

  /** One record against the one before it. */
  method CheckOne(prev: Option<Stored>, lastAfter: string, lastSeq: nat, x: Stored) returns (found: seq<Problem>, after: string)
    requires !(prev.Some? && x.statement.num == lastSeq)
    ensures forall ps :: Add(Fold(prev, lastAfter, lastSeq, ps), x) == Fold(Some(x), after, x.statement.num, ps + found)
  {
    var num := x.statement.num;
    found, after := [], lastAfter;
    if num > lastSeq + 1 {
      found := [Missing(lastSeq + 1, num - 1)];
    } else if prev.Some? && x.statement.parent != prev.value.id {
      found := [Unchained(num)];
    } else if prev.None? && num == 1 && x.statement.parent != "" {
      found := [OlderMissing];
    }
    ghost var chain := found;
    if x.statement.op == 0 {
      found := found + [GapAt(num)];
    }
    ghost var gaps := found;
    if x.statement.after != "" {
      if lastAfter != "" && x.statement.before != lastAfter {
        found := found + [HiddenMove(num)];
      }
      after := x.statement.after;
    }
    forall ps ensures Add(Fold(prev, lastAfter, lastSeq, ps), x) == Fold(Some(x), after, num, ps + found) {
      var f := Fold(prev, lastAfter, lastSeq, ps);
      assert chain == ChainProblem(f, x) && gaps == chain + GapProblem(x) && found == gaps + MoveProblem(f, x);
      assert ps + found == ps + chain + GapProblem(x) + MoveProblem(f, x);
    }
  }

  /** Sorts the records and checks the chain. */
  method FoldStream(recs: seq<Stored>) returns (sorted: seq<Stored>, head: string, problems: seq<Problem>)
    ensures sorted == BySeq(recs) && problems == Folded(sorted).problems
    ensures multiset(sorted) == multiset(recs) && InOrder(sorted)
    ensures TellsAll(sorted, problems)
    ensures (forall x | x in recs :: x.statement.num > 0) ==> (Unbroken(problems) <==> Chained(sorted))
    ensures Chained(recs) ==> sorted == recs && Unbroken(problems) && head == Head(recs)
  {
    sorted := SortBySeq(recs);
    head, problems := FoldSorted(sorted);
    FoldIsExact(recs);
    FoldTellsAll(recs);
  }

  method FoldSorted(sorted: seq<Stored>) returns (head: string, problems: seq<Problem>)
    ensures problems == Folded(sorted).problems
    ensures head == if Folded(sorted).prev.Some? then Folded(sorted).prev.value.id else ""
  {
    var prev: Option<Stored> := None;
    var lastAfter, lastSeq: nat := "", 0;
    problems, head := [], "";
    for i := 0 to |sorted|
      invariant Folded(sorted[..i]) == Fold(prev, lastAfter, lastSeq, problems)
      invariant head == if prev.Some? then prev.value.id else ""
    {
      assert sorted[..i + 1][..i] == sorted[..i];
      var x := sorted[i];
      if prev.Some? && x.statement.num == lastSeq {
        problems := problems + [Forked(x.statement.num)];
      } else {
        var found, after := CheckOne(prev, lastAfter, lastSeq, x);
        problems := problems + found;
        prev, lastAfter, lastSeq, head := Some(x), after, x.statement.num, x.id;
      }
    }
    assert sorted[..|sorted|] == sorted;
  }

  lemma {:induction false} FoldIsExact(recs: seq<Stored>)
    ensures (forall x | x in recs :: x.statement.num > 0) ==> (Unbroken(Folded(BySeq(recs)).problems) <==> Chained(BySeq(recs)))
    ensures Chained(recs) ==> && BySeq(recs) == recs && Unbroken(Folded(recs).problems)
                              && Folded(recs).prev == LastOf(recs)
  {
    BySeqKeeps(recs);
    var sorted := BySeq(recs);
    if forall x | x in recs :: x.statement.num > 0 {
      forall i | 0 <= i < |sorted| ensures sorted[i].statement.num > 0 {
        assert sorted[i] in multiset(sorted);
      }
      FoldFindsBreaks(sorted);
    }
    if Chained(recs) {
      ChainIsSorted(recs);
      forall i | 0 <= i < |recs| ensures recs[i].statement.num > 0 {
        assert Linked(recs, i);
      }
      FoldFindsBreaks(recs);
    }
  }

  /** Reading back a Stage's stream, at any moment of any run, finds its chain whole and its head the Stage's. */
  lemma {:induction false} StreamReadsWhole(r: Rules, w: World, k: Key)
    requires Reachable(r, w) && k in w.streams
    ensures var recs := w.streams[k].recs;
            BySeq(recs) == recs && Unbroken(Folded(recs).problems) && k in w.stages && w.stages[k].head == Head(recs)
  {
    ReachableWhole(r, w);
    HistoryHolds(r, w, k);
    FoldIsExact(w.streams[k].recs);
  }

  // ---- moves that look unrecorded ----------------------------------------------------------------------

  predicate Moves(recs: seq<Stored>, i: int) {
    0 <= i < |recs| && recs[i].statement.after != ""
  }

  /** The place of the last record of a move, or -1. */
  function LastMove(recs: seq<Stored>): (i: int)
    ensures -1 <= i < |recs| && (i >= 0 ==> Moves(recs, i))
    ensures forall j | i < j < |recs| :: !Moves(recs, j)
    decreases |recs|
  {
    if recs == [] then -1
    else if recs[|recs| - 1].statement.after != "" then |recs| - 1
    else
      assert forall j | 0 <= j < |recs| - 1 :: Moves(recs, j) <==> Moves(recs[..|recs| - 1], j);
      LastMove(recs[..|recs| - 1])
  }

  /** The move recorded at `j` began where the last one recorded before it ended. */
  predicate FollowsAt(recs: seq<Stored>, j: nat)
    requires j < |recs|
  {
    var i := LastMove(recs[..j]);
    Moves(recs, j) && i >= 0 ==> recs[j].statement.before == recs[i].statement.after
  }

  ghost predicate Follows(recs: seq<Stored>) {
    forall j | 0 <= j < |recs| :: FollowsAt(recs, j)
  }

  ghost predicate HidesNothing(problems: seq<Problem>) {
    forall i | 0 <= i < |problems| :: !problems[i].HiddenMove?
  }

  lemma {:induction false} HidesNothingParts(a: seq<Problem>, b: seq<Problem>)
    ensures HidesNothing(a + b) <==> HidesNothing(a) && HidesNothing(b)
  {
    if HidesNothing(a + b) {
      assert forall i | 0 <= i < |a| :: a[i] == (a + b)[i];
      assert forall i | 0 <= i < |b| :: b[i] == (a + b)[|a| + i];
    }
  }

  lemma {:induction false} AddHides(f: Fold, x: Stored)
    requires !(f.prev.Some? && x.statement.num == f.lastSeq)
    ensures HidesNothing(Add(f, x).problems) <==> HidesNothing(f.problems) && MoveProblem(f, x) == []
  {
    HidesNothingParts(f.problems, ChainProblem(f, x));
    HidesNothingParts(f.problems + ChainProblem(f, x), GapProblem(x));
    HidesNothingParts(f.problems + ChainProblem(f, x) + GapProblem(x), MoveProblem(f, x));
    if MoveProblem(f, x) != [] {
      assert MoveProblem(f, x)[0].HiddenMove?;
    }
  }

  lemma {:induction false} FollowsInit(recs: seq<Stored>)
    requires recs != []
    ensures Follows(recs) <==> Follows(recs[..|recs| - 1]) && FollowsAt(recs, |recs| - 1)
  {
    var init := recs[..|recs| - 1];
    forall j | 0 <= j < |init| ensures FollowsAt(recs, j) <==> FollowsAt(init, j) {
      assert init[..j] == recs[..j];
    }
    if Follows(recs) {
      forall j | 0 <= j < |init| ensures FollowsAt(init, j) {
        assert FollowsAt(recs, j);
      }
    }
  }

  /** After a whole chain, the fold remembers where its last move went. */
  lemma {:induction false} FoldFindsHidden(recs: seq<Stored>)
    requires Chained(recs)
    ensures Folded(recs).lastAfter == if LastMove(recs) < 0 then "" else recs[LastMove(recs)].statement.after
    ensures HidesNothing(Folded(recs).problems) <==> Follows(recs)
    decreases |recs|
  {
    if recs != [] {
      var init, x := recs[..|recs| - 1], recs[|recs| - 1];
      ChainPrefix(recs, |recs| - 1);
      FoldFindsHidden(init);
      FollowsInit(recs);
      FoldIsExact(init);
      NextNum(recs);
      AddHides(Folded(init), x);
    }
  }

  lemma {:induction false} NextNum(recs: seq<Stored>)
    requires recs != [] && Chained(recs)
    ensures var f := Folded(recs[..|recs| - 1]); !(f.prev.Some? && recs[|recs| - 1].statement.num == f.lastSeq)
  {
    var init := recs[..|recs| - 1];
    ChainPrefix(recs, |recs| - 1);
    forall i | 0 <= i < |init| ensures init[i].statement.num > 0 {
      assert Linked(init, i);
    }
    forall i, j | 0 <= i < j < |init| ensures init[i].statement.num <= init[j].statement.num {
      assert Linked(init, i) && Linked(init, j);
    }
    FoldFindsBreaks(init);
    assert Linked(recs, |recs| - 1);
  }

  /** The operation recorded at `j`, if it moved the Stage, began where the last mover recorded before it had left it. */
  predicate SuccessiveAt(book: map<Uid, Op>, recs: seq<Stored>, j: nat)
    requires j < |recs|
  {
    var i := LastMove(recs[..j]);
    Moves(recs, j) && i >= 0 ==>
      && recs[j].statement.op in book && recs[i].statement.op in book
      && book[recs[j].statement.op].before == book[recs[i].statement.op].after
  }

  /**
   At any moment of any run, reading a stream back reports no move without a record if and only if
   operations concluded in the order they moved the Stage: each began where the last one concluded
   before it had left it.
   */
  lemma {:induction false} StreamHidesNothingIff(r: Rules, w: World, k: Key)
    requires Reachable(r, w) && k in w.streams
    ensures var recs := w.streams[k].recs;
            HidesNothing(Folded(recs).problems) <==> forall j | 0 <= j < |recs| :: SuccessiveAt(w.book, recs, j)
  {
    ReachableWhole(r, w);
    HistoryHolds(r, w, k);
    var recs := w.streams[k].recs;
    FoldFindsHidden(recs);
    assert Copies(w.book, recs);
    forall j | 0 <= j < |recs| ensures SuccessiveAt(w.book, recs, j) <==> FollowsAt(recs, j) {
      assert Copied(w.book, recs[j].statement);
      if LastMove(recs[..j]) >= 0 {
        assert Copied(w.book, recs[LastMove(recs[..j])].statement);
      }
    }
    if forall j | 0 <= j < |recs| :: SuccessiveAt(w.book, recs, j) {
      forall j | 0 <= j < |recs| ensures FollowsAt(recs, j) {
        assert SuccessiveAt(w.book, recs, j);
      }
    }
  }

  /** A check that passes writes its operation's record and no other. */
  lemma {:induction false} PassRecords(r: Rules, w: World, u: Uid) returns (x: Stored)
    requires Whole(r, w) && Enabled(w, Steps(ToVerify(u))) && r.check(Taken(w, ToVerify(u)), u) == Pass && w.book[u].spec.stage in w.streams
    ensures var k := w.book[u].spec.stage; var w' := Step(r, w, Steps(ToVerify(u)));
            k in w'.streams && w'.streams[k].recs == w.streams[k].recs + [x]
    ensures x.statement.before == w.book[u].before && x.statement.after == w.book[u].after != ""
  {
    var w1, k := Taken(w, ToVerify(u)), w.book[u].spec.stage;
    assert Fine(r.prefix, w.book, w.tasks, u) && OpHome(r, w.book[u]);
    KnownIsSomething(r, w.book[u].spec);
    var w2 := Ended(r, w1, u, Succeeded, Verified);
    var st := Statement(Next(w2, k), w2.stages[k].head, u, w2.book[u].before, w2.book[u].after, 0);
    x := Stored(r.id(st), st);
    PassStreams(r, w, u);
  }

  lemma {:induction false} PassStreams(r: Rules, w: World, u: Uid)
    requires Enabled(w, Steps(ToVerify(u))) && r.check(Taken(w, ToVerify(u)), u) == Pass
    ensures Step(r, w, Steps(ToVerify(u))).streams == Recorded(r, Ended(r, Taken(w, ToVerify(u)), u, Succeeded, Verified), u).streams
  {
  }

  lemma {:induction false} KnownIsSomething(r: Rules, spec: Spec)
    requires spec.kind != Autonomy && Known(r.registry, spec.stage.name, spec.to)
    ensures spec.to != ""
  {
  }

  /** The other check is still queued, and its operation as it was. */
  lemma {:induction false} PassSparesOther(r: Rules, w: World, u: Uid, v: Uid)
    requires Whole(r, w) && Enabled(w, Steps(ToVerify(u))) && Enabled(w, Steps(ToVerify(v))) && u != v
    ensures var w' := Step(r, w, Steps(ToVerify(v)));
            Whole(r, w') && Enabled(w', Steps(ToVerify(u))) && SameButPlan(w.book[u], w'.book[u])
  {
    StepWhole(r, w, Steps(ToVerify(v)));
    StepGood(r, w, Steps(ToVerify(v)));
    assert u != 0;
  }

  /**
   From every reachable world in which two operations of one Stage are checked at once: if the one
   that did not end where the other began concludes first, and both pass, the stream reports a move
   with no record, although both were recorded.
   */
  lemma {:induction false} OverlapLooksHidden(r: Rules, w: World, k: Key, u: Uid, v: Uid)
    requires Reachable(r, w) && k in w.streams && u != v && Enabled(w, Steps(ToVerify(u))) && Enabled(w, Steps(ToVerify(v)))
    requires w.book[u].spec.stage == k && w.book[v].spec.stage == k && w.book[u].before != w.book[v].after
    requires r.check(Taken(w, ToVerify(v)), v) == Pass
    requires var w1 := Step(r, w, Steps(ToVerify(v))); Enabled(w1, Steps(ToVerify(u))) ==> r.check(Taken(w1, ToVerify(u)), u) == Pass
    ensures var w1 := Step(r, w, Steps(ToVerify(v)));
            Enabled(w1, Steps(ToVerify(u))) &&
            var w2 := Step(r, w1, Steps(ToVerify(u))); k in w2.streams && !HidesNothing(Folded(w2.streams[k].recs).problems)
  {
    ReachableWhole(r, w);
    var w1 := Step(r, w, Steps(ToVerify(v)));
    PassSparesOther(r, w, u, v);
    var x := PassRecords(r, w, v);
    PassHidden(r, w1, u, w.streams[k].recs, x);
  }

  lemma {:induction false} PassHidden(r: Rules, w: World, u: Uid, recs: seq<Stored>, x: Stored)
    requires Whole(r, w) && Enabled(w, Steps(ToVerify(u))) && r.check(Taken(w, ToVerify(u)), u) == Pass
    requires var k := w.book[u].spec.stage; k in w.streams && w.streams[k].recs == recs + [x]
    requires x.statement.after != "" && w.book[u].before != x.statement.after
    ensures var k := w.book[u].spec.stage; var w' := Step(r, w, Steps(ToVerify(u)));
            k in w'.streams && !HidesNothing(Folded(w'.streams[k].recs).problems)
  {
    var k, w' := w.book[u].spec.stage, Step(r, w, Steps(ToVerify(u)));
    var y := PassRecords(r, w, u);
    StepChained(r, w, Steps(ToVerify(u)), k);
    LooksHidden(recs, x, y);
    FoldFindsHidden(w'.streams[k].recs);
  }

  lemma {:induction false} StepChained(r: Rules, w: World, e: Event, k: Key)
    requires Whole(r, w) && Enabled(w, e) && k in Step(r, w, e).streams
    ensures Chained(Step(r, w, e).streams[k].recs)
  {
    StepWhole(r, w, e);
    var w' := Step(r, w, e);
    assert Filed(w'.stages[k], StreamOf(w'.streams, k));
  }

  lemma {:induction false} LooksHidden(recs: seq<Stored>, x: Stored, y: Stored)
    requires x.statement.after != "" && y.statement.after != "" && y.statement.before != x.statement.after
    ensures !Follows(recs + [x] + [y])
  {
    var all := recs + [x] + [y];
    assert all[..|recs| + 1] == recs + [x];
    assert LastMove(recs + [x]) == |recs|;
    assert !FollowsAt(all, |recs| + 1);
  }
}
