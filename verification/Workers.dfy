/** Counting the jobs that the workers of one execution hold. */
module Workers {
  import opened Collections
  import opened Protocol

  /** How far a worker has come with its job; 0 when it has none. */
  function Rank(w: Worker): nat {
    match w
    case Holding(_) => 1
    case Creating(_) => 2
    case Polling(_) => 3
    case _ => 0
  }

  predicate HasFrom(w: Worker, r: nat, node: string)
    requires r > 0
  {
    Rank(w) >= r && w.node == node
  }

  /** The number of workers that hold the job of a node and have come at least as far as r. */
  function Count(ws: seq<Worker>, r: nat, node: string): nat
    requires r > 0
  {
    if ws == [] then 0
    else Count(ws[..|ws| - 1], r, node) + if HasFrom(ws[|ws| - 1], r, node) then 1 else 0
  }

  /** The number of workers that hold a job. */
  function Busy(ws: seq<Worker>): nat {
    if ws == [] then 0 else Busy(ws[..|ws| - 1]) + if Rank(ws[|ws| - 1]) > 0 then 1 else 0
  }

  lemma {:induction false} CountUpdate(ws: seq<Worker>, i: nat, to: Worker, r: nat, node: string)
    requires i < |ws| && r > 0
    ensures Count(ws[i := to], r, node)
         == Count(ws, r, node) - (if HasFrom(ws[i], r, node) then 1 else 0) + (if HasFrom(to, r, node) then 1 else 0)
  {
    var n := |ws| - 1;
    if i == n {
      assert ws[i := to][..n] == ws[..n];
    } else {
      assert ws[i := to][..n] == ws[..n][i := to];
      CountUpdate(ws[..n], i, to, r, node);
    }
  }

  lemma {:induction false} BusyUpdate(ws: seq<Worker>, i: nat, to: Worker)
    requires i < |ws|
    ensures Busy(ws[i := to])
         == Busy(ws) - (if Rank(ws[i]) > 0 then 1 else 0) + (if Rank(to) > 0 then 1 else 0)
  {
    var n := |ws| - 1;
    if i == n {
      assert ws[i := to][..n] == ws[..n];
    } else {
      assert ws[i := to][..n] == ws[..n][i := to];
      BusyUpdate(ws[..n], i, to);
    }
  }

  lemma {:induction false} BusyBound(ws: seq<Worker>)
    ensures Busy(ws) <= |ws|
  {
    if ws != [] {
      BusyBound(ws[..|ws| - 1]);
    }
  }

  lemma {:induction false} IdleWorkers(ws: seq<Worker>)
    requires forall i | 0 <= i < |ws| :: Rank(ws[i]) == 0
    ensures Busy(ws) == 0
    ensures forall r, node | r > 0 :: Count(ws, r, node) == 0
  {
    if ws != [] {
      IdleWorkers(ws[..|ws| - 1]);
    }
  }

  lemma {:induction false} CountMember(ws: seq<Worker>, r: nat, node: string) returns (i: nat)
    requires r > 0 && Count(ws, r, node) > 0
    ensures i < |ws| && HasFrom(ws[i], r, node)
  {
    i := |ws| - 1;
    if !HasFrom(ws[i], r, node) {
      i := CountMember(ws[..|ws| - 1], r, node);
    }
  }

  lemma {:induction false} CountAtLeastOne(ws: seq<Worker>, i: nat, r: nat, node: string)
    requires r > 0 && i < |ws| && HasFrom(ws[i], r, node)
    ensures Count(ws, r, node) >= 1
  {
    if i < |ws| - 1 {
      CountAtLeastOne(ws[..|ws| - 1], i, r, node);
    }
  }

  /** Two workers with the same job count twice. */
  lemma {:induction false} CountTwice(ws: seq<Worker>, i: nat, j: nat, r: nat, node: string)
    requires r > 0 && i < j < |ws|
    requires HasFrom(ws[i], r, node) && HasFrom(ws[j], r, node)
    ensures Count(ws, r, node) >= 2
  {
    var n := |ws| - 1;
    if j < n {
      CountTwice(ws[..n], i, j, r, node);
    } else {
      CountAtLeastOne(ws[..n], i, r, node);
    }
  }

  /** A worker that stands below a rank is missing from the count at that rank. */
  lemma {:induction false} CountDrops(ws: seq<Worker>, i: nat, r: nat, q: nat, node: string)
    requires 0 < r <= q
    ensures Count(ws, q, node) <= Count(ws, r, node)
    ensures i < |ws| && HasFrom(ws[i], r, node) && Rank(ws[i]) < q ==> Count(ws, q, node) < Count(ws, r, node)
  {
    if ws != [] {
      CountDrops(ws[..|ws| - 1], i, r, q, node);
    }
  }

  // ---------------------------------------------------------------- occurrences in a sequence

  function Times(s: seq<string>, node: string): nat {
    if s == [] then 0 else Times(s[..|s| - 1], node) + if s[|s| - 1] == node then 1 else 0
  }

  lemma TimesSnoc(s: seq<string>, x: string, node: string)
    ensures Times(s + [x], node) == Times(s, node) + if x == node then 1 else 0
  {
    assert (s + [x])[..|s|] == s;
  }

  lemma {:induction false} TimesMember(s: seq<string>, node: string)
    ensures Times(s, node) > 0 <==> node in s
    ensures Distinct(s) ==> Times(s, node) <= 1
  {
    if s != [] {
      var n := |s| - 1;
      TimesMember(s[..n], node);
      assert s == s[..n] + [s[n]];
      if Distinct(s) && s[n] == node {
        assert node !in s[..n];
      }
    }
  }

  lemma {:induction false} TimesAtMostOnceIsDistinct(s: seq<string>)
    requires forall node :: Times(s, node) <= 1
    ensures Distinct(s)
  {
    if s != [] {
      var n := |s| - 1;
      forall node ensures Times(s[..n], node) <= 1 { assert Times(s, node) <= 1; }
      TimesAtMostOnceIsDistinct(s[..n]);
      TimesMember(s[..n], s[n]);
      assert Times(s, s[n]) <= 1;
      assert forall i | 0 <= i < n :: s[i] == s[..n][i];
    }
  }
}
