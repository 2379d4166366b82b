/**
 A semaphore channel: the P, V and Z operations of the channel poll.

 Each operation holds both channel locks while it looks at the value; P and Z park on a bcast
 in the same instant in which the locks are released. A V wakes one parked P, and a P that takes
 the value to zero wakes every parked Z, but each does so only after it has released the locks:
 these triggers are steps of their own, and anything can happen in between.
 */
module Semaphore {
  import opened Counting

  type Pid = nat

  datatype State = State(
    value: nat,
    initial: nat,
    bounded: bool,
    parked: set<Pid>,      // asleep in P
    woken: set<Pid>,       // out of the bcast, not yet back at the value
    owesWake: set<Pid>,    // between the increment of V and its trigger
    zparked: set<Pid>,     // asleep in Z
    owesZero: set<Pid>,    // between the decrement to zero and its trigger
    // history
    vs: nat,
    ps: nat,
    wraps: nat)

  // ---------------------------------------------------------------------------------------
  // Steps
  // ---------------------------------------------------------------------------------------

  function Busy(s: State): set<Pid> {
    s.parked + s.woken + s.owesWake + s.zparked + s.owesZero
  }

  /** P past its loop: one less, and a trigger to come if that made zero. */
  function Taken(s: State, p: Pid): State
    requires s.value > 0
  {
    s.(value := s.value - 1, ps := s.ps + 1, owesZero := if s.value == 1 then s.owesZero + {p} else s.owesZero)
  }

  predicate Enter(s: State, s': State, p: Pid) {
    && p !in Busy(s)
    && s' == if s.value == 0 then s.(parked := s.parked + {p}) else Taken(s, p)
  }

  /** A woken P looks at the value again. */
  predicate Retry(s: State, s': State, p: Pid) {
    && p in s.woken
    && var t := s.(woken := s.woken - {p});
    && s' == if s.value == 0 then t.(parked := t.parked + {p}) else Taken(t, p)
  }

  /** A parked P runs out of time. */
  predicate GiveUp(s: State, s': State, p: Pid) {
    p in s.parked && s' == s.(parked := s.parked - {p})
  }

  predicate Full(s: State) {
    s.bounded && s.value == s.initial
  }

  /** V: refused on a full bounded semaphore; otherwise one more, in 64 bits, and a trigger to come. */
  predicate Raise(s: State, s': State, p: Pid) {
    && p !in Busy(s)
    && s' == if Full(s) then s
             else s.(value := (s.value + 1) % WORD, vs := s.vs + 1, owesWake := s.owesWake + {p},
                     wraps := if s.value + 1 == WORD then s.wraps + 1 else s.wraps)
  }

  /** The trigger of V: q, one of the parked, is woken, if there is one. */
  predicate WakeOne(s: State, s': State, p: Pid, q: Pid) {
    && p in s.owesWake
    && var t := s.(owesWake := s.owesWake - {p});
    && if s.parked == {} then s' == t
       else q in s.parked && s' == t.(parked := t.parked - {q}, woken := t.woken + {q})
  }

  predicate EnterZero(s: State, s': State, p: Pid) {
    && p !in Busy(s)
    && s' == if s.value > 0 then s.(zparked := s.zparked + {p}) else s
  }

  /** The trigger of a P that made zero: every parked Z returns. */
  predicate FreeZero(s: State, s': State, p: Pid) {
    p in s.owesZero && s' == s.(owesZero := s.owesZero - {p}, zparked := {})
  }

  predicate GiveUpZero(s: State, s': State, p: Pid) {
    p in s.zparked && s' == s.(zparked := s.zparked - {p})
  }

  ghost predicate Step(s: State, s': State, p: Pid) {
    || Enter(s, s', p) || Retry(s, s', p) || GiveUp(s, s', p) || Raise(s, s', p)
    || (exists q :: WakeOne(s, s', p, q))
    || EnterZero(s, s', p) || FreeZero(s, s', p) || GiveUpZero(s, s', p)
  }

  predicate Init(s: State) {
    && s.value == s.initial < WORD
    && s.parked == s.woken == s.owesWake == s.zparked == s.owesZero == {}
    && s.vs == s.ps == s.wraps == 0
  }

  /** Steps one after the other, from anywhere. */
  ghost predicate Path(ss: seq<State>, ps: seq<Pid>) {
    && |ss| == |ps| + 1
    && forall i :: 0 <= i < |ps| ==> Step(ss[i], ss[i + 1], ps[i])
  }

  ghost predicate Run(ss: seq<State>, ps: seq<Pid>) {
    Path(ss, ps) && Init(ss[0])
  }

  // ---------------------------------------------------------------------------------------
  // What every step keeps
  // ---------------------------------------------------------------------------------------

  /** The value is what went in less what came out, up to wrap-around, which a bounded semaphore never reaches. */
  predicate Conserved(s: State) {
    && s.value + s.wraps * WORD + s.ps == s.initial + s.vs
    && s.value < WORD && s.initial < WORD
    && (s.bounded ==> s.value <= s.initial && s.wraps == 0)
  }

  /** Every unit that could serve a parked P is claimed by a woken P or announced by a V about to trigger. */
  predicate Claimed(s: State) {
    s.parked != {} ==> s.value <= |s.woken| + |s.owesWake|
  }

  /** A parked Z that missed a zero is about to be freed, unless the zero came from a wrap-around. */
  predicate ZeroAnnounced(s: State) {
    s.zparked != {} && s.value == 0 && s.wraps == 0 ==> s.owesZero != {}
  }

  predicate Apart(s: State) {
    && s.parked !! s.woken && s.parked !! s.owesWake && s.parked !! s.zparked && s.parked !! s.owesZero
    && s.woken !! s.owesWake && s.woken !! s.zparked && s.woken !! s.owesZero
    && s.owesWake !! s.zparked && s.owesWake !! s.owesZero && s.zparked !! s.owesZero
  }

  predicate Inv(s: State) {
    Conserved(s) && Claimed(s) && ZeroAnnounced(s) && Apart(s)
  }

  lemma RaiseConserved(s: State, s': State, p: Pid)
    requires Conserved(s) && Raise(s, s', p)
    ensures Conserved(s')
  {
  }

  lemma StepConserved(s: State, s': State, p: Pid)
    requires Conserved(s) && Step(s, s', p)
    ensures Conserved(s')
  {
    if Raise(s, s', p) { RaiseConserved(s, s', p); }
  }

  lemma StepApart(s: State, s': State, p: Pid)
    requires Apart(s) && Step(s, s', p)
    ensures Apart(s')
  {
  }

  lemma RaiseClaimed(s: State, s': State, p: Pid)
    requires Conserved(s) && Claimed(s) && Raise(s, s', p)
    ensures Claimed(s')
  {
    assert s' != s ==> s.owesWake !! {p} && s'.owesWake == s.owesWake + {p};
  }

  lemma RetryClaimed(s: State, s': State, p: Pid)
    requires Claimed(s) && Apart(s) && Retry(s, s', p)
    ensures Claimed(s')
  {
    assert |s.woken - {p}| == |s.woken| - 1;
  }

  lemma WakeOneClaimed(s: State, s': State, p: Pid, q: Pid)
    requires Claimed(s) && Apart(s) && WakeOne(s, s', p, q)
    ensures Claimed(s')
  {
    assert |s.owesWake - {p}| == |s.owesWake| - 1;
  }

  lemma StepClaimed(s: State, s': State, p: Pid)
    requires Conserved(s) && Apart(s) && Claimed(s) && Step(s, s', p)
    ensures Claimed(s')
  {
    if Raise(s, s', p) {
      RaiseClaimed(s, s', p);
    } else if Retry(s, s', p) {
      RetryClaimed(s, s', p);
    } else if q :| WakeOne(s, s', p, q) {
      WakeOneClaimed(s, s', p, q);
    } else {
      assert s'.woken == s.woken && s'.owesWake == s.owesWake;
      assert s'.value == 0 || (s'.parked <= s.parked && s'.value <= s.value);
    }
  }

  lemma StepZero(s: State, s': State, p: Pid)
    requires Conserved(s) && Apart(s) && ZeroAnnounced(s) && Step(s, s', p)
    ensures ZeroAnnounced(s')
  {
  }

  lemma {:induction false} RunInv(ss: seq<State>, ps: seq<Pid>, n: nat)
    requires Run(ss, ps) && n < |ss|
    ensures Inv(ss[n])
    decreases n
  {
    if n > 0 {
      var s, s', p := ss[n - 1], ss[n], ps[n - 1];
      RunInv(ss, ps, n - 1);
      StepConserved(s, s', p);
      StepApart(s, s', p);
      StepClaimed(s, s', p);
      StepZero(s, s', p);
    }
  }

  // ---------------------------------------------------------------------------------------
  // What holds of every run
  // ---------------------------------------------------------------------------------------

  /** V puts one unit in unless the semaphore is bounded and at its initial value; then it changes nothing. */
  lemma RaiseIff(s: State, s': State, p: Pid)
    requires s.value < WORD && Raise(s, s', p)
    ensures if s.bounded && s.value == s.initial then s' == s
            else && s'.value == (if s.value == WORD - 1 then 0 else s.value + 1)
                 && s'.vs == s.vs + 1 && s'.ps == s.ps && p in s'.owesWake
  {
  }

  /** P, whether it has just come or was woken, takes exactly one unit if there is one and sleeps otherwise. */
  lemma TakeIff(s: State, s': State, p: Pid)
    requires Apart(s) && (Enter(s, s', p) || Retry(s, s', p))
    ensures s'.vs == s.vs
    ensures if s.value == 0 then p in s'.parked && s'.value == 0 && s'.ps == s.ps
            else p !in s'.parked + s'.woken && s'.value == s.value - 1 && s'.ps == s.ps + 1
    ensures p in s'.owesZero <==> s.value == 1
  {
  }

  /** The trigger of a V wakes one sleeping P and no more, and nothing else happens. */
  lemma WakesOne(s: State, s': State, p: Pid, q: Pid)
    requires Apart(s) && WakeOne(s, s', p, q)
    ensures |s'.parked| == (if s.parked == {} then 0 else |s.parked| - 1)
    ensures |s'.woken| - |s.woken| == |s.parked| - |s'.parked|
    ensures s'.parked + s'.woken == s.parked + s.woken && s'.owesWake == s.owesWake - {p} && s'.value == s.value
  {
    if s.parked != {} {
      assert |s.parked - {q}| == |s.parked| - 1 && |s.woken + {q}| == |s.woken| + 1;
    }
  }

  /** How many of the first n steps of a run are a V that is not refused. */
  function Ups(ss: seq<State>, ps: seq<Pid>, n: nat): nat
    requires n <= |ps| < |ss|
  {
    if n == 0 then 0
    else
      var s, s', p := ss[n - 1], ss[n], ps[n - 1];
      Ups(ss, ps, n - 1) + if Raise(s, s', p) && !(s.bounded && s.value == s.initial) then 1 else 0
  }

  /** How many of them are a P that finds a positive value. */
  function Downs(ss: seq<State>, ps: seq<Pid>, n: nat): nat
    requires n <= |ps| < |ss|
  {
    if n == 0 then 0
    else
      var s, s', p := ss[n - 1], ss[n], ps[n - 1];
      Downs(ss, ps, n - 1) + if (Enter(s, s', p) || Retry(s, s', p)) && s.value > 0 then 1 else 0
  }

  lemma CountStep(s: State, s': State, p: Pid)
    requires Conserved(s) && Apart(s) && Step(s, s', p)
    ensures s'.initial == s.initial && s'.bounded == s.bounded
    ensures s'.vs == s.vs + if Raise(s, s', p) && !(s.bounded && s.value == s.initial) then 1 else 0
    ensures s'.ps == s.ps + if (Enter(s, s', p) || Retry(s, s', p)) && s.value > 0 then 1 else 0
  {
    if Raise(s, s', p) { RaiseIff(s, s', p); }
    if Enter(s, s', p) || Retry(s, s', p) { TakeIff(s, s', p); }
  }

  lemma {:induction false} CountsAreCalls(ss: seq<State>, ps: seq<Pid>, n: nat)
    requires Run(ss, ps) && n < |ss|
    ensures ss[n].vs == Ups(ss, ps, n) && ss[n].ps == Downs(ss, ps, n)
    ensures ss[n].initial == ss[0].initial && ss[n].bounded == ss[0].bounded
    decreases n
  {
    if n > 0 {
      CountsAreCalls(ss, ps, n - 1);
      RunInv(ss, ps, n - 1);
      assert Step(ss[n - 1], ss[n], ps[n - 1]);
      CountStep(ss[n - 1], ss[n], ps[n - 1]);
    }
  }

  /**
   The V that were not refused less the P that found a unit make up the value, as long as fewer than
   2^64 units went in.
   */
  lemma ValueIsBalance(ss: seq<State>, ps: seq<Pid>, n: nat)
    requires Run(ss, ps) && n < |ss|
    ensures (ss[0].initial + Ups(ss, ps, n) - Downs(ss, ps, n)) % WORD == ss[n].value
    ensures ss[0].bounded || ss[0].initial + Ups(ss, ps, n) < WORD ==>
              ss[n].value == ss[0].initial + Ups(ss, ps, n) - Downs(ss, ps, n)
    ensures ss[0].bounded ==> ss[n].value <= ss[0].initial
  {
    RunInv(ss, ps, n);
    CountsAreCalls(ss, ps, n);
    Balance(ss[n]);
  }

  lemma Balance(s: State)
    requires Conserved(s)
    ensures (s.initial + s.vs - s.ps) % WORD == s.value
    ensures s.bounded || s.initial + s.vs < WORD ==> s.value == s.initial + s.vs - s.ps
  {
    DivMod(s.value + s.wraps * WORD, WORD, s.wraps, s.value);
    if s.wraps > 0 { assert s.wraps * WORD >= WORD; }
  }

  /** Whoever is outside can call P, V or Z, and whoever is inside and not asleep can go on. */
  lemma NobodyIsStuck(s: State, p: Pid)
    ensures p !in Busy(s) ==> exists s1, s2, s3 :: Enter(s, s1, p) && Raise(s, s2, p) && EnterZero(s, s3, p)
    ensures p in s.woken ==> exists s' :: Retry(s, s', p)
    ensures p in s.owesWake ==> exists s', q :: WakeOne(s, s', p, q)
    ensures p in s.owesZero ==> exists s' :: FreeZero(s, s', p)
  {
    if p !in Busy(s) {
      var s1 := if s.value == 0 then s.(parked := s.parked + {p}) else Taken(s, p);
      var s2 := if s.bounded && s.value == s.initial then s
                else s.(value := (s.value + 1) % WORD, vs := s.vs + 1, owesWake := s.owesWake + {p},
                        wraps := if s.value + 1 == WORD then s.wraps + 1 else s.wraps);
      var s3 := if s.value > 0 then s.(zparked := s.zparked + {p}) else s;
      assert Enter(s, s1, p) && Raise(s, s2, p) && EnterZero(s, s3, p);
    }
    if p in s.woken {
      var t := s.(woken := s.woken - {p});
      assert Retry(s, if s.value == 0 then t.(parked := t.parked + {p}) else Taken(t, p), p);
    }
    if p in s.owesWake { SomebodyWakes(s, p); }
    if p in s.owesZero { assert FreeZero(s, s.(owesZero := s.owesZero - {p}, zparked := {}), p); }
  }

  lemma SomebodyWakes(s: State, p: Pid)
    requires p in s.owesWake
    ensures exists s', q :: WakeOne(s, s', p, q)
  {
    var t := s.(owesWake := s.owesWake - {p});
    if s.parked == {} {
      assert WakeOne(s, t, p, p);
    } else {
      var q :| q in s.parked;
      assert WakeOne(s, t.(parked := t.parked - {q}, woken := t.woken + {q}), p, q);
    }
  }

  /** A P that slept leaves by its own step: it runs out of time, or it takes a unit. */
  lemma SleeperLeaves(ss: seq<State>, ps: seq<Pid>, n: nat, p: Pid)
    requires Run(ss, ps) && n < |ps| && p in ss[n].parked + ss[n].woken && p !in ss[n + 1].parked + ss[n + 1].woken
    ensures ps[n] == p
    ensures if p in ss[n].parked then ss[n + 1].value == ss[n].value
            else ss[n].value > 0 && ss[n + 1].value == ss[n].value - 1
  {
    RunInv(ss, ps, n);
    assert Step(ss[n], ss[n + 1], ps[n]);
    LeavesAlone(ss[n], ss[n + 1], ps[n], p);
  }

  lemma LeavesAlone(s: State, s': State, q: Pid, p: Pid)
    requires Apart(s) && Step(s, s', q) && p in s.parked + s.woken && p !in s'.parked + s'.woken
    ensures q == p && if p in s.parked then s'.value == s.value else s.value > 0 && s'.value == s.value - 1
  {
    if Enter(s, s', q) || Retry(s, s', q) {
      TakeIff(s, s', q);
    } else if r :| WakeOne(s, s', q, r) {
      WakesOne(s, s', q, r);
    }
  }

  /** A Z sleeps exactly when the value is not zero. */
  lemma ZeroSleepsIff(s: State, s': State, p: Pid)
    requires EnterZero(s, s', p)
    ensures (p in s'.zparked <==> s.value > 0) && s'.value == s.value
  {
  }

  /** A Z that slept leaves when it runs out of time or with the trigger of some P, which frees every other Z too. */
  lemma ZeroLeaves(ss: seq<State>, ps: seq<Pid>, n: nat, p: Pid)
    requires Run(ss, ps) && n < |ps| && p in ss[n].zparked && p !in ss[n + 1].zparked
    ensures ss[n + 1].value == ss[n].value && (ps[n] == p || (ps[n] in ss[n].owesZero && ss[n + 1].zparked == {}))
  {
    RunInv(ss, ps, n);
    assert Step(ss[n], ss[n + 1], ps[n]);
    ZeroLeavesAlone(ss[n], ss[n + 1], ps[n], p);
  }

  lemma ZeroLeavesAlone(s: State, s': State, q: Pid, p: Pid)
    requires Apart(s) && Step(s, s', q) && p in s.zparked && p !in s'.zparked
    ensures s'.value == s.value && (q == p || (q in s.owesZero && s'.zparked == {}))
  {
  }

  /** A P is parked on a positive value only while someone is on the way to fix that. */
  lemma NoLostWakeUp(ss: seq<State>, ps: seq<Pid>, n: nat)
    requires Run(ss, ps) && n < |ss| && ss[n].parked != {}
    ensures ss[n].value <= |ss[n].woken| + |ss[n].owesWake|
    ensures ss[n].woken == {} && ss[n].owesWake == {} ==> ss[n].value == 0
  {
    RunInv(ss, ps, n);
  }

  /** With every trigger delivered, nobody sleeps in Z at zero. */
  lemma NoLostZero(ss: seq<State>, ps: seq<Pid>, n: nat)
    requires Run(ss, ps) && n < |ss| && ss[n].owesZero == {} && ss[n].wraps == 0
    ensures ss[n].value == 0 ==> ss[n].zparked == {}
  {
    RunInv(ss, ps, n);
  }

  /** Whoever owes a zero trigger in state n made zero after state m, if nobody owed one then. */
  lemma {:induction false} ZeroSince(ss: seq<State>, ps: seq<Pid>, m: nat, n: nat)
    requires Path(ss, ps) && m <= n < |ss| && ss[m].owesZero == {}
    ensures ss[n].owesZero == {} || exists k :: m < k <= n && ss[k].value == 0
    decreases n
  {
    if m < n {
      ZeroSince(ss, ps, m, n - 1);
      assert Step(ss[n - 1], ss[n], ps[n - 1]);
    }
  }

  /** A path from s on which p enters Z, stays parked and is freed by the last step, and the value is never zero. */
  ghost predicate StaleReturn(s: State, p: Pid, ss: seq<State>, ps: seq<Pid>) {
    && Path(ss, ps) && |ps| >= 2 && ss[0] == s && ps[0] == p && EnterZero(ss[0], ss[1], p)
    && (forall i :: 1 <= i < |ps| ==> p in ss[i].zparked)
    && FreeZero(ss[|ps| - 1], ss[|ps|], ps[|ps| - 1])
    && (forall i :: 0 <= i < |ss| ==> ss[i].value > 0)
  }

  /** Two steps are enough: the old trigger frees a Z that has just parked, and the value has not changed. */
  lemma StaleInTwo(s: State, p: Pid, q: Pid) returns (ss: seq<State>, ps: seq<Pid>)
    requires s.value > 0 && p !in Busy(s) && q in s.owesZero
    ensures StaleReturn(s, p, ss, ps)
  {
    var s1 := s.(zparked := s.zparked + {p});
    var s2 := s1.(owesZero := s1.owesZero - {q}, zparked := {});
    assert EnterZero(s, s1, p) && FreeZero(s1, s2, q);
    ss, ps := [s, s1, s2], [p, q];
  }

  /**
   A Z that parks can return without the value having been zero exactly when a zero trigger is
   outstanding at that moment.
   */
  lemma StaleIff(s: State, p: Pid)
    requires s.value > 0 && p !in Busy(s)
    ensures (exists ss, ps :: StaleReturn(s, p, ss, ps)) <==> s.owesZero != {}
  {
    if s.owesZero != {} {
      var q :| q in s.owesZero;
      var ss, ps := StaleInTwo(s, p, q);
    } else if ss, ps :| StaleReturn(s, p, ss, ps) {
      ZeroSince(ss, ps, 0, |ps| - 1);
    }
  }

  /** A run gets there: a P makes zero, a V undoes it, and the trigger of the P is still to come. */
  lemma ZeroCanBeStale() returns (ss: seq<State>, ps: seq<Pid>)
    ensures Run(ss, ps) && |ss| == 3
    ensures exists ts, qs :: StaleReturn(ss[2], 3, ts, qs)
  {
    var s0 := State(1, 1, true, {}, {}, {}, {}, {}, 0, 0, 0);
    var s1 := s0.(value := 0, ps := 1, owesZero := {1});
    var s2 := s1.(value := 1, vs := 1, owesWake := {2});
    assert {} + {1} == {1};
    assert Enter(s0, s1, 1);
    assert s1.owesWake + {2} == {2};
    assert Raise(s1, s2, 2);
    ss, ps := [s0, s1, s2], [1, 2];
    var ts, qs := StaleInTwo(s2, 3, 1);
    assert StaleReturn(ss[2], 3, ts, qs);
  }
}
