/** The sieve computes the primes in every interleaving: it never gets stuck, always ends, and ends with the right
    array. */
module SieveRuns {
  import opened Primes
  import opened Rendezvous
  import opened Sieve
  import opened SieveInv
  import opened SieveSteps

  // ---------------------------------------------------------------- it never gets stuck

  lemma TalksAt(net: Net, k: nat, p: Params)
    requires Inv(net, p) && 1 <= k < |net.nodes| == |net.slots|
    ensures Talks(net.nodes[k - 1].pc, net.slots[k], net.nodes[k].pc, net.nodes[k - 1].x)
    ensures k < |net.nodes| - 1 ==> !net.nodes[k].pc.Sinking? && !net.nodes[k].pc.Ending?
    ensures k == |net.nodes| - 1 ==> net.nodes[k].pc.Sinking? || net.nodes[k].pc.Ending? || net.nodes[k].pc.Finished?
    ensures 1 <= k < |net.nodes| - 1 && net.nodes[k].pc.Finished? ==> net.nodes[k + 1].pc.Finished?
  {
    hide Base, Survivors, Gap, Survives, ActualOk;
    assert ChannelAt(net, k, p) && NodeOk(net.nodes[k], k, k == |net.nodes| - 1, net.actual, p);
  }

  lemma SizesOf(net: Net, p: Params)
    requires Inv(net, p)
    ensures p.n >= 1 && |net.nodes| >= 2 && |net.slots| == |net.nodes| && SourceOk(net.nodes[0])
  {
  }

  /** From a receiver with a message before it, somebody further down can go. */
  lemma {:induction false} ReceiverLeads(net: Net, k: nat, p: Params) returns (j: nat)
    requires Inv(net, p) && 1 <= k < |net.nodes| == |net.slots| && net.slots[k].Offered? && Open(net.nodes[k].pc)
    ensures CanGo(net, j)
    decreases |net.nodes| - k
  {
    TalksAt(net, k, p);
    if k + 1 < |net.nodes| {
      TalksAt(net, k + 1, p);
    }
    hide Inv;
    if net.nodes[k].pc.Awaiting? && net.slots[k + 1].Offered? {
      j := ReceiverLeads(net, k + 1, p);
    } else {
      j := k;
    }
  }

  lemma {:induction false} JoinerLeads(net: Net, k: nat, p: Params) returns (j: nat)
    requires Inv(net, p) && 1 <= k < |net.nodes| == |net.slots| && net.nodes[k].pc.Joining?
    ensures CanGo(net, j)
    decreases |net.nodes| - k
  {
    TalksAt(net, k, p);
    TalksAt(net, k + 1, p);
    hide Inv;
    if net.nodes[k + 1].pc.Finished? {
      j := k;
    } else {
      j := JoinerLeads(net, k + 1, p);
    }
  }

  lemma {:induction false} FinishedSpreads(net: Net, k: nat, p: Params)
    requires Inv(net, p) && 1 <= k < |net.nodes| == |net.slots| && net.nodes[1].pc.Finished?
    ensures net.nodes[k].pc.Finished?
  {
    if k > 1 {
      FinishedSpreads(net, k - 1, p);
      TalksAt(net, k - 1, p);
    }
  }

  lemma SomeoneIsLeft(net: Net, p: Params)
    requires Inv(net, p) && !AllFinished(net) && |net.nodes| >= 2 && |net.slots| == |net.nodes|
    ensures net.nodes[0].pc.Finished? ==> !net.nodes[1].pc.Finished?
  {
    hide Inv;
    if net.nodes[1].pc.Finished? {
      forall i | 1 <= i < |net.nodes| ensures net.nodes[i].pc.Finished? {
        FinishedSpreads(net, i, p);
      }
    }
  }

  /** Until all processes have finished, one of them can go: no interleaving deadlocks. */
  lemma SomebodyCanGo(net: Net, p: Params) returns (k: nat)
    requires Inv(net, p) && !AllFinished(net)
    ensures CanGo(net, k)
  {
    SizesOf(net, p);
    TalksAt(net, 1, p);
    SomeoneIsLeft(net, p);
    hide Inv, Shape;
    if net.nodes[0].pc.Finished? {
      k := JoinerLeads(net, 1, p);
    } else if net.slots[1].Offered? {
      k := ReceiverLeads(net, 1, p);
    } else {
      k := 0;
    }
  }

  // ---------------------------------------------------------------- it always ends

  lemma {:induction false} BaseOf(k: nat, p: Params)
    requires p.n >= 1 && k >= 1
    ensures Base(k, p) >= k - 1
  {
    if k > 1 {
      BaseOf(k - 1, p);
      BaseNext(k - 1, p);
    }
  }

  lemma FewNodes(net: Net, p: Params)
    requires Inv(net, p)
    ensures |net.nodes| <= p.last + 2
  {
    var k := |net.nodes| - 1;
    BaseOf(k, p);
    FewPrimes(p.last);
    FewPrimes(net.nodes[k].x);
    assert NodeOk(net.nodes[k], k, true, net.actual, p);
    hide PrimesUpTo, Base, Universal;
  }

  lemma UniversalGrows(c: nat, p: Params)
    ensures Universal(c + 1, p) == Universal(c, p) + 2 * Factorial(p.last) > Universal(c, p)
  {
    FactorialPositive(p.last);
  }

  lemma {:induction false} UniversalMono(a: nat, b: nat, p: Params)
    requires a <= b
    ensures Universal(a, p) <= Universal(b, p)
    decreases b
  {
    if a < b {
      UniversalMono(a, b - 1, p);
      UniversalGrows(b - 1, p);
    }
  }

  lemma ActualIsSmall(net: Net, p: Params)
    requires Inv(net, p)
    ensures forall q :: q in net.actual ==> q in PrimesUpTo(p.last)
  {
    var x := net.nodes[|net.nodes| - 1].x;
    assert net.actual == PrimesUpTo(if x < p.last then x else p.last);
    hide Linked;
    forall q | q in net.actual ensures q in PrimesUpTo(p.last) {
      PrimesAreThese(if x < p.last then x else p.last, q);
      PrimesAreThese(p.last, q);
    }
  }

  /** How far a process is ahead of the last sink is limited by the numbers that nobody can stop. */
  lemma {:induction false} NobodyRunsAway(net: Net, k: nat, p: Params)
    requires Inv(net, p) && k < |net.nodes|
    ensures net.nodes[k].x <= Universal(|net.nodes| - k, p)
    decreases |net.nodes| - k
  {
    if k < |net.nodes| - 1 {
      NobodyRunsAway(net, k + 1, p);
      ActualIsSmall(net, p);
      assert ChannelAt(net, k + 1, p);
      var c := |net.nodes| - (k + 1);
      UniversalGrows(c, p);
      UniversalSurvives(p, c + 1, net.actual[..Base(k + 1, p)]);
      hide Universal, Survives, PrimesUpTo, Base;
      assert net.nodes[k + 1].x < Universal(c + 1, p);
    }
  }

  function Rank(pc: Pc): nat {
    match pc
    case Sending => 8
    case Awaiting => 7
    case Sinking => 6
    case Filtering => 6
    case Closing => 5
    case Ending => 5
    case Joining => 2
    case Finished => 0
  }

  ghost function Top(p: Params): int {
    Universal(p.last + 2, p)
  }

  /** What process `i` can still do; a process that does not exist yet can do everything. */
  ghost function Work(net: Net, i: nat, p: Params): int {
    if i < |net.nodes| then 10 * (Top(p) - net.nodes[i].x) + Rank(net.nodes[i].pc) else 10 * Top(p)
  }

  ghost function WorkUpTo(net: Net, n: nat, p: Params): int {
    if n == 0 then 0 else WorkUpTo(net, n - 1, p) + Work(net, n - 1, p)
  }

  ghost function Measure(net: Net, p: Params): int {
    WorkUpTo(net, p.last + 2, p)
  }

  lemma XIsBounded(net: Net, k: nat, p: Params)
    requires Inv(net, p) && k < |net.nodes|
    ensures net.nodes[k].x <= Top(p)
  {
    FewNodes(net, p);
    NobodyRunsAway(net, k, p);
    UniversalMono(|net.nodes| - k, p.last + 2, p);
  }

  lemma {:induction false} WorkIsNat(net: Net, n: nat, p: Params)
    requires Inv(net, p)
    ensures WorkUpTo(net, n, p) >= 0
  {
    if n > 0 {
      WorkIsNat(net, n - 1, p);
      if n - 1 < |net.nodes| {
        XIsBounded(net, n - 1, p);
      }
      UniversalMono(0, p.last + 2, p);
    }
  }

  lemma {:induction false} WorkDrops(a: Net, b: Net, k: nat, n: nat, p: Params)
    requires k < n && Work(b, k, p) < Work(a, k, p) && forall i: nat :: i != k ==> Work(b, i, p) <= Work(a, i, p)
    ensures WorkUpTo(b, n, p) < WorkUpTo(a, n, p)
  {
    if k == n - 1 {
      WorkStays(a, b, k, n - 1, p);
    } else {
      WorkDrops(a, b, k, n - 1, p);
    }
  }

  lemma {:induction false} WorkStays(a: Net, b: Net, k: nat, n: nat, p: Params)
    requires n <= k && forall i: nat :: i != k ==> Work(b, i, p) <= Work(a, i, p)
    ensures WorkUpTo(b, n, p) <= WorkUpTo(a, n, p)
  {
    if n > 0 {
      WorkStays(a, b, k, n - 1, p);
    }
  }

  /** How a step changes the processes: one does less, and at most one is added. */
  lemma StepWorks(net: Net, k: nat, p: Params)
    requires Inv(net, p) && CanGo(net, k)
    ensures var m := Next(net, k, p);
            && |net.nodes| <= |m.nodes| <= |net.nodes| + 1
            && (forall i :: 0 <= i < |net.nodes| && i != k ==> m.nodes[i] == net.nodes[i])
            && m.nodes[k].x >= net.nodes[k].x
            && (m.nodes[k].x == net.nodes[k].x ==> Rank(m.nodes[k].pc) < Rank(net.nodes[k].pc))
            && (|m.nodes| > |net.nodes| ==> m.nodes[|net.nodes|].pc.Sinking? && m.nodes[|net.nodes|].x == m.nodes[k].x)
  {
    SizesOf(net, p);
    if k >= 1 {
      TalksAt(net, k, p);
      if net.slots[k].Offered? {
        Incoming(net, k, p);
      }
    }
    hide Inv, Shape, IsSource, Survives, Gap, Sieved, Base;
    if net.nodes[k].pc.Sinking? {
      assert net.slots[k].Offered?;
    } else {
      PlainStepWorks(net, k, p);
    }
  }

  lemma PlainStepWorks(net: Net, k: nat, p: Params)
    requires CanGo(net, k) && !net.nodes[k].pc.Sinking? && |net.slots| == |net.nodes| && SourceOk(net.nodes[0])
    requires k >= 1 && net.slots[k].Offered? ==> net.nodes[k].x < Delivered(net.slots[k], net.nodes[k].x)
    ensures var m := Next(net, k, p);
            && |net.nodes| == |m.nodes|
            && (forall i :: 0 <= i < |net.nodes| && i != k ==> m.nodes[i] == net.nodes[i])
            && m.nodes[k].x >= net.nodes[k].x
            && (m.nodes[k].x == net.nodes[k].x ==> Rank(m.nodes[k].pc) < Rank(net.nodes[k].pc))
  {
    hide Sieved, IsSource, Delivered;
  }

  lemma MeasureIs(net: Net, p: Params)
    ensures Measure(net, p) == WorkUpTo(net, p.last + 2, p)
  {
  }

  lemma ChangeOfWork(net: Net, m: Net, k: nat, p: Params)
    requires k < |net.nodes| <= |m.nodes| <= |net.nodes| + 1 && net.nodes[k].x >= 1
    requires forall i :: 0 <= i < |net.nodes| && i != k ==> m.nodes[i] == net.nodes[i]
    requires m.nodes[k].x >= net.nodes[k].x
    requires m.nodes[k].x == net.nodes[k].x ==> Rank(m.nodes[k].pc) < Rank(net.nodes[k].pc)
    requires |m.nodes| > |net.nodes| ==> m.nodes[|net.nodes|].pc.Sinking? && m.nodes[|net.nodes|].x == m.nodes[k].x
    ensures Work(m, k, p) < Work(net, k, p) && forall i: nat :: i != k ==> Work(m, i, p) <= Work(net, i, p)
  {
    hide Top;
  }

  lemma CanGoExists(net: Net, k: nat)
    requires CanGo(net, k)
    ensures k < |net.nodes|
  {
  }

  lemma MeasureDrops(net: Net, k: nat, p: Params)
    requires Inv(net, p) && CanGo(net, k)
    ensures 0 <= Measure(Next(net, k, p), p) < Measure(net, p)
  {
    hide *;
    MeasureIs(net, p);
    CanGoExists(net, k);
    StepWorks(net, k, p);
    XGrowsFromOne(net, k, p);
    FewNodes(net, p);
    StepKeepsInv(net, k, p);
    WorkIsNat(Next(net, k, p), p.last + 2, p);
    MeasureIs(Next(net, k, p), p);
    ChangeOfWork(net, Next(net, k, p), k, p);
    WorkDrops(net, Next(net, k, p), k, p.last + 2, p);
  }

  lemma XGrowsFromOne(net: Net, k: nat, p: Params)
    requires Inv(net, p) && k < |net.nodes|
    ensures net.nodes[k].x >= 1
    decreases |net.nodes| - k
  {
    if k < |net.nodes| - 1 {
      XGrowsFromOne(net, k + 1, p);
      assert ChannelAt(net, k + 1, p);
    }
  }

  // ---------------------------------------------------------------- whole runs

  /** Any schedule: `ks[i]` is the process that goes at step i. */
  ghost predicate IsRun(tr: seq<Net>, ks: seq<nat>, p: Params) {
    && |tr| == |ks| + 1 && tr[0] == START
    && forall i :: 0 <= i < |ks| ==> CanGo(tr[i], ks[i]) && tr[i + 1] == Next(tr[i], ks[i], p)
  }

  lemma {:induction false} EveryNetIsOk(tr: seq<Net>, ks: seq<nat>, n: nat, p: Params)
    requires IsRun(tr, ks, p) && n < |tr| && p.n >= 1
    ensures Inv(tr[n], p) && 0 <= Measure(tr[n], p) <= Measure(START, p) - n
  {
    if n == 0 {
      StartInv(p);
      WorkIsNat(START, p.last + 2, p);
    } else {
      EveryNetIsOk(tr, ks, n - 1, p);
      hide Inv, CanGo, Next, Measure;
      StepKeepsInv(tr[n - 1], ks[n - 1], p);
      MeasureDrops(tr[n - 1], ks[n - 1], p);
    }
  }

  /** No schedule goes on forever: the number of steps has a bound that depends on the parameters only. */
  lemma EveryRunEnds(tr: seq<Net>, ks: seq<nat>, p: Params)
    requires IsRun(tr, ks, p) && p.n >= 1
    ensures |ks| <= Measure(START, p)
  {
    hide Measure, Inv;
    EveryNetIsOk(tr, ks, |ks|, p);
  }

  /** However the processes are scheduled: when none of them can go, all have finished, every channel is empty, and
      `actual` holds exactly the primes up to `last`, in ascending order. */
  lemma SieveIsCorrect(tr: seq<Net>, ks: seq<nat>, p: Params)
    requires IsRun(tr, ks, p) && p.n >= 1 && forall k :: !CanGo(tr[|ks|], k)
    ensures AllFinished(tr[|ks|]) && tr[|ks|].actual == PrimesUpTo(p.last)
    ensures forall i :: 1 <= i < |tr[|ks|].slots| ==> tr[|ks|].slots[i].Empty?
  {
    var net := tr[|ks|];
    EveryNetIsOk(tr, ks, |ks|, p);
    hide IsRun, Measure;
    if !AllFinished(net) {
      var k := SomebodyCanGo(net, p);
    }
    FinishedIsRight(net, p);
  }

  lemma FinishedIsRight(net: Net, p: Params)
    requires Inv(net, p) && AllFinished(net)
    ensures net.actual == PrimesUpTo(p.last) && forall i :: 1 <= i < |net.slots| ==> net.slots[i].Empty?
  {
    SizesOf(net, p);
    assert ActualOk(net.nodes[|net.nodes| - 1], net.actual, p);
    hide PrimesUpTo, Universal;
    forall i | 1 <= i < |net.slots| ensures net.slots[i].Empty? {
      TalksAt(net, i, p);
    }
  }

  /** At every moment `actual` is an initial part of the primes up to `last`, and its array does not overflow. */
  lemma PartialResult(tr: seq<Net>, ks: seq<nat>, n: nat, p: Params)
    requires IsRun(tr, ks, p) && n < |tr| && p.n >= 1
    ensures exists x :: x <= p.last && tr[n].actual == PrimesUpTo(x)
    ensures |tr[n].actual| <= p.last
  {
    EveryNetIsOk(tr, ks, n, p);
    var x := tr[n].nodes[|tr[n].nodes| - 1].x;
    FewPrimes(if x < p.last then x else p.last);
    hide IsRun, Measure, PrimesUpTo;
  }

  /** Sink k has received exactly the source numbers, up to the one it saw last, that none of the first (k-1)n primes
      divides, and it holds the next n of them once it is a filter. */
  lemma LevelsReceiveSurvivors(tr: seq<Net>, ks: seq<nat>, n: nat, k: nat, p: Params)
    requires IsRun(tr, ks, p) && n < |tr| && p.n >= 1 && 1 <= k < |tr[n].nodes|
    ensures 0 <= (k - 1) * p.n <= |tr[n].actual|
    ensures tr[n].nodes[k].got == Survivors(tr[n].actual[..(k - 1) * p.n], tr[n].nodes[k].x)
    ensures tr[n].nodes[k].primes <= tr[n].actual[(k - 1) * p.n..]
    ensures k < |tr[n].nodes| - 1 ==> |tr[n].nodes[k].primes| == p.n
  {
    EveryNetIsOk(tr, ks, n, p);
    assert NodeOk(tr[n].nodes[k], k, k == |tr[n].nodes| - 1, tr[n].actual, p);
    var b := Base(k, p);
    assert b == (k - 1) * p.n;
    hide IsRun, Measure, Survivors, ActualOk, Base;
    assert tr[n].actual[b..][..|tr[n].nodes[k].primes|] == tr[n].actual[b..b + |tr[n].nodes[k].primes|];
  }

  /** A channel outlives its users: a process that has ended, and with it the channel on its stack, has outlived the
      process at the other end. */
  lemma ChannelsOutliveTheirUsers(tr: seq<Net>, ks: seq<nat>, n: nat, k: nat, p: Params)
    requires IsRun(tr, ks, p) && n < |tr| && p.n >= 1 && 1 <= k < |tr[n].nodes| - 1 && tr[n].nodes[k].pc.Finished?
    ensures tr[n].nodes[k + 1].pc.Finished? && k + 1 < |tr[n].slots| && tr[n].slots[k + 1].Empty?
  {
    EveryNetIsOk(tr, ks, n, p);
    hide IsRun, Measure;
    SizesOf(tr[n], p);
    TalksAt(tr[n], k, p);
    TalksAt(tr[n], k + 1, p);
  }
}
