/** The locks of condor_job/synchronized.hpp, which move when they are copied. */
module Synchronized {
  import opened Text

  // ----- All sequences of operations -----

  /** The hold counts, and the live locks with the mutex that each still has to unlock. */
  datatype State<L(==), M(==)> = State(held: map<M, int>, locks: map<L, Option<M>>)

  datatype Op<L(==), M(==)> =
    | Acquire(l: L, m: M)
    | Copy(l: L, from: L)
    | Assign(l: L, from: L)
    | Release(l: L)
    | Destroy(l: L)

  /** The objects of an operation exist, or not yet, and an assignment goes to an empty lock. */
  predicate Allowed<L(==), M(==)>(s: State<L, M>, op: Op<L, M>) {
    match op
    case Acquire(l, m) => l !in s.locks && m in s.held
    case Copy(l, from) => l !in s.locks && from in s.locks
    case Assign(l, from) => l in s.locks && from in s.locks && s.locks[l] == None
    case Release(l) => l in s.locks
    case Destroy(l) => l in s.locks
  }

  function Unlock<L(==), M(==)>(s: State<L, M>, p: Option<M>): State<L, M> {
    if p.Some? && p.value in s.held then s.(held := s.held[p.value := s.held[p.value] - 1]) else s
  }

  function Step<L(==), M(==)>(s: State<L, M>, op: Op<L, M>): State<L, M>
    requires Allowed(s, op)
  {
    match op
    case Acquire(l, m) => State(s.held[m := s.held[m] + 1], s.locks[l := Some(m)])
    case Copy(l, from) => s.(locks := s.locks[l := s.locks[from]][from := None])
    case Assign(l, from) => s.(locks := s.locks[from := s.locks[l]][l := s.locks[from]])
    case Release(l) => Unlock(s.(locks := s.locks[l := None]), s.locks[l])
    case Destroy(l) => Unlock(s.(locks := s.locks - {l}), s.locks[l])
  }

  /** The mutex that an operation unlocks. */
  function Unlocked<L(==), M(==)>(s: State<L, M>, op: Op<L, M>): Option<M>
    requires Allowed(s, op)
  {
    if op.Release? || op.Destroy? then s.locks[op.l] else None
  }

  function Run<L(==), M(==)>(s: State<L, M>, ops: seq<Op<L, M>>): State<L, M> {
    if ops == [] then s
    else
      var before, op := Run(s, ops[..|ops| - 1]), ops[|ops| - 1];
      if Allowed(before, op) then Step(before, op) else before
  }

  /** The live locks that still have to unlock the mutex. */
  function Owners<L(==), M(==)>(s: State<L, M>, m: M): set<L> {
    set l | l in s.locks && s.locks[l] == Some(m)
  }

  predicate Conserved<L(==), M(==)>(s: State<L, M>) {
    && (forall m | m in s.held :: s.held[m] == |Owners(s, m)|)
    && (forall l | l in s.locks && s.locks[l].Some? :: s.locks[l].value in s.held)
  }

  lemma StepConserves<L, M>(s: State<L, M>, op: Op<L, M>)
    requires Conserved(s) && Allowed(s, op)
    ensures Conserved(Step(s, op))
  {
    var t := Step(s, op);
    StepIsClosed(s, op);
    forall m | m in t.held ensures t.held[m] == |Owners(t, m)| {
      StepCounts(s, op, m);
    }
  }

  lemma StepIsClosed<L, M>(s: State<L, M>, op: Op<L, M>)
    requires Conserved(s) && Allowed(s, op)
    ensures var t := Step(s, op);
            t.held.Keys == s.held.Keys
            && forall l | l in t.locks && t.locks[l].Some? :: t.locks[l].value in t.held
  {
    hide Owners;
  }

  /** An operation changes the number of owners as it changes the hold count. */
  lemma StepCounts<L, M>(s: State<L, M>, op: Op<L, M>, m: M)
    requires Allowed(s, op) && m in s.held && s.held[m] == |Owners(s, m)|
    ensures m in Step(s, op).held && Step(s, op).held[m] == |Owners(Step(s, op), m)|
  {
    var t := Step(s, op);
    match op
    case Acquire(l, n) =>
      OwnerAdded(s, t, m, l, n);
    case Copy(l, from) =>
      MoveKeepsCount(s, t, m, from, l);
    case Assign(l, from) =>
      if l == from {
        assert t.locks == s.locks;
        OwnersAre(s, t, m);
      } else {
        assert t.locks == s.locks[l := s.locks[from]][from := None];
        MoveKeepsCount(s, t, m, from, l);
      }
    case _ =>
      OwnerRemoved(s, t, m, op.l);
  }

  lemma OwnersAre<L, M>(s: State<L, M>, t: State<L, M>, m: M)
    requires s.locks == t.locks
    ensures Owners(s, m) == Owners(t, m)
  {
  }

  lemma OwnerAdded<L, M>(s: State<L, M>, t: State<L, M>, m: M, l: L, n: M)
    requires l !in s.locks && t.locks == s.locks[l := Some(n)]
    ensures |Owners(t, m)| == |Owners(s, m)| + (if m == n then 1 else 0)
  {
    assert Owners(t, m) == if m == n then Owners(s, m) + {l} else Owners(s, m);
  }

  lemma OwnerRemoved<L, M>(s: State<L, M>, t: State<L, M>, m: M, l: L)
    requires l in s.locks && (t.locks == s.locks[l := None] || t.locks == s.locks - {l})
    ensures |Owners(t, m)| == |Owners(s, m)| - (if s.locks[l] == Some(m) then 1 else 0)
  {
    assert Owners(t, m) == Owners(s, m) - {l};
  }

  /** Moving a mutex from one lock to an empty one leaves the number of its owners. */
  lemma MoveKeepsCount<L, M>(s: State<L, M>, t: State<L, M>, m: M, from: L, to: L)
    requires from in s.locks && from != to && (to in s.locks ==> s.locks[to] == None)
    requires t.locks == s.locks[to := s.locks[from]][from := None]
    ensures |Owners(t, m)| == |Owners(s, m)|
  {
    var u := s.(locks := s.locks[from := None]);
    OwnerRemoved(s, u, m, from);
    if s.locks[from] == Some(m) {
      assert Owners(t, m) == Owners(u, m) + {to};
      assert to !in Owners(u, m);
    } else {
      assert Owners(t, m) == Owners(u, m);
    }
  }

  /** The effect of an operation. */
  predicate Follows<L(==), M(==)>(s: State<L, M>, op: Op<L, M>, t: State<L, M>) {
    Allowed(s, op) && t == Step(s, op)
  }

  /** Releasing a lock is moving it to a new one that is destroyed. */
  lemma ReleaseIsCopyAndDestroy<L, M>(s: State<L, M>, t: State<L, M>, u: State<L, M>, l: L, temporary: L)
    requires l in s.locks && l != temporary
    requires Follows(s, Op.Copy(temporary, l), t) && Follows(t, Op.Destroy(temporary), u)
    ensures Follows(s, Op.Release(l), u)
  {
    assert u.locks == s.locks[l := None];
  }

  /** Copying is assigning to a new lock, which is empty. */
  lemma CopyIsAssign<L, M>(s: State<L, M>, empty: State<L, M>, t: State<L, M>, l: L, from: L)
    requires l !in s.locks && from in s.locks && empty == s.(locks := s.locks[l := None])
    requires Follows(empty, Op.Assign(l, from), t)
    ensures Follows(s, Op.Copy(l, from), t)
  {
    assert t.locks == s.locks[l := s.locks[from]][from := None];
  }

  lemma EmptyLockOwnsNothing<L, M>(s: State<L, M>, t: State<L, M>, l: L)
    requires Conserved(s) && l !in s.locks && t == s.(locks := s.locks[l := None])
    ensures Conserved(t)
  {
    forall m | m in t.held ensures t.held[m] == |Owners(t, m)| {
      assert Owners(t, m) == Owners(s, m);
    }
  }

  lemma OwnerHolds<L, M>(s: State<L, M>, l: L)
    requires Conserved(s) && l in s.locks && s.locks[l].Some?
    ensures s.locks[l].value in s.held && s.held[s.locks[l].value] > 0
  {
    assert l in Owners(s, s.locks[l].value);
  }

  lemma {:induction false} RunConserves<L, M>(s: State<L, M>, ops: seq<Op<L, M>>)
    requires Conserved(s)
    ensures Conserved(Run(s, ops))
  {
    if ops != [] {
      var before, op := Run(s, ops[..|ops| - 1]), ops[|ops| - 1];
      RunConserves(s, ops[..|ops| - 1]);
      if Allowed(before, op) {
        StepConserves(before, op);
      }
    }
  }

  /** Conservation: after any sequence of operations, each mutex is held as often as there are live
      locks that still have to unlock it. */
  lemma HoldsAreOwned<L, M>(mutexes: set<M>, ops: seq<Op<L, M>>, m: M)
    requires m in mutexes
    ensures var s := Run(State(map x | x in mutexes :: 0, map[]), ops);
            m in s.held && s.held[m] == |Owners(s, m)|
  {
    var start := State(map x | x in mutexes :: 0, map[]);
    forall x | x in start.held ensures start.held[x] == |Owners(start, x)| {
      assert Owners(start, x) == {};
    }
    RunConserves(start, ops);
    SameMutexes(start, ops);
  }

  lemma {:induction false} SameMutexes<L, M>(s: State<L, M>, ops: seq<Op<L, M>>)
    ensures Run(s, ops).held.Keys == s.held.Keys
  {
    if ops != [] {
      SameMutexes(s, ops[..|ops| - 1]);
    }
  }

  /** No mutex is unlocked that is not held. */
  lemma NeverUnlockedTwice<L, M>(mutexes: set<M>, ops: seq<Op<L, M>>, op: Op<L, M>)
    requires var s := Run(State(map x | x in mutexes :: 0, map[]), ops);
             Allowed(s, op) && Unlocked(s, op).Some?
    ensures var s := Run(State(map x | x in mutexes :: 0, map[]), ops);
            var m := Unlocked(s, op).value;
            m in s.held && s.held[m] > 0 && Step(s, op).held == s.held[m := s.held[m] - 1]
  {
    var start := State(map x | x in mutexes :: 0, map[]);
    var s := Run(start, ops);
    forall x | x in start.held ensures start.held[x] == |Owners(start, x)| {
      assert Owners(start, x) == {};
    }
    RunConserves(start, ops);
    OwnerHolds(s, op.l);
  }

  /** No mutex stays locked once its locks are gone or empty. */
  lemma NeverLeaked<L, M>(mutexes: set<M>, ops: seq<Op<L, M>>, m: M)
    requires m in mutexes
    ensures var s := Run(State(map x | x in mutexes :: 0, map[]), ops);
            m in s.held && (s.held[m] == 0 <==> forall l | l in s.locks :: s.locks[l] != Some(m))
  {
    HoldsAreOwned(mutexes, ops, m);
    var s := Run(State(map x | x in mutexes :: 0, map[]), ops);
    if forall l | l in s.locks :: s.locks[l] != Some(m) {
      assert Owners(s, m) == {};
    } else {
      var l :| l in s.locks && s.locks[l] == Some(m);
      assert l in Owners(s, m);
    }
  }

  // ----- The objects -----

  /** The recursive mutex of a synchronized value: how often the thread that owns it holds it. */
  class Mutex {
    var held: nat

    constructor ()
      ensures held == 0
    {
      held := 0;
    }
  }

  /** The hold counts of the mutexes, and what the live locks still have to unlock. */
  ghost function View(mutexes: set<Mutex>, live: set<Lock>): State<Lock, Mutex>
    reads mutexes, live
  {
    State(map m | m in mutexes :: m.held, map l | l in live :: l.Owned())
  }

  /** The methods are the operations, on any mutexes and live locks. */
  class Lock {
    /** The mutex to unlock in the end, if this lock still has to. */
    var p: Mutex?

    ghost function Owned(): Option<Mutex>
      reads this
    {
      if p == null then None else Some(p)
    }

    constructor Acquire(sb: Mutex, ghost mutexes: set<Mutex>, ghost live: set<Lock>)
      requires sb in mutexes && Conserved(View(mutexes, live))
      modifies sb
      ensures p == sb && sb.held == old(sb.held) + 1
      ensures Follows(old(View(mutexes, live)), Op.Acquire(this, sb), View(mutexes, live + {this}))
      ensures Conserved(View(mutexes, live + {this}))
    {
      p := sb;
      new;
      sb.held := sb.held + 1;
      assert View(mutexes, live + {this}) == Step(old(View(mutexes, live)), Op.Acquire(this, sb));
      StepConserves(old(View(mutexes, live)), Op.Acquire(this, sb));
    }

    /** The copy constructor takes the mutex over. */
    constructor Copy(that: Lock, ghost mutexes: set<Mutex>, ghost live: set<Lock>)
      requires that in live && Conserved(View(mutexes, live))
      modifies that
      ensures p == old(that.p) && that.p == null
      ensures Follows(old(View(mutexes, live)), Op.Copy(this, that), View(mutexes, live + {this}))
      ensures Conserved(View(mutexes, live + {this}))
    {
      p := null;
      new;
      ghost var before, empty := old(View(mutexes, live)), View(mutexes, live + {this});
      assert empty == before.(locks := before.locks[this := None]);
      EmptyLockOwnsNothing(before, empty, this);
      Assign(that, mutexes, live + {this});
      CopyIsAssign(before, empty, View(mutexes, live + {this}), this, that);
    }

    /** The assertion of the original is the precondition. */
    method Assign(that: Lock, ghost mutexes: set<Mutex>, ghost live: set<Lock>)
      requires p == null && this in live && that in live && Conserved(View(mutexes, live))
      modifies this, that
      ensures p == old(that.p) && (that != this ==> that.p == null)
      ensures Follows(old(View(mutexes, live)), Op.Assign(this, that), View(mutexes, live))
      ensures Conserved(View(mutexes, live))
    {
      p, that.p := that.p, p;
      assert View(mutexes, live) == Step(old(View(mutexes, live)), Op.Assign(this, that));
      StepConserves(old(View(mutexes, live)), Op.Assign(this, that));
    }

    /** The destructor. */
    method Destroy(ghost mutexes: set<Mutex>, ghost live: set<Lock>)
      requires this in live && Conserved(View(mutexes, live))
      modifies if p != null then {p} else {}
      ensures p != null ==> p.held == old(p.held) - 1
      ensures Follows(old(View(mutexes, live)), Op.Destroy(this), View(mutexes, live - {this}))
      ensures Conserved(View(mutexes, live - {this}))
    {
      ghost var before := View(mutexes, live);
      assert before.locks[this] == Owned();
      if p != null {
        OwnerHolds(before, this);
        p.held := p.held - 1;
      }
      assert View(mutexes, live - {this}) == Step(before, Op.Destroy(this));
      StepConserves(before, Op.Destroy(this));
    }

    /** A temporary copy takes the mutex over and unlocks it as it dies. */
    method Release(ghost mutexes: set<Mutex>, ghost live: set<Lock>)
      requires this in live && Conserved(View(mutexes, live))
      modifies this, if p != null then {p} else {}
      ensures p == null
      ensures old(p) != null ==> old(p).held == old(p.held) - 1
      ensures Follows(old(View(mutexes, live)), Op.Release(this), View(mutexes, live))
      ensures Conserved(View(mutexes, live))
    {
      ghost var before := View(mutexes, live);
      var that := new Lock.Copy(this, mutexes, live);
      ghost var moved := View(mutexes, live + {that});
      that.Destroy(mutexes, live + {that});
      assert live + {that} - {that} == live;
      ReleaseIsCopyAndDestroy(before, moved, View(mutexes, live), this, that);
    }
  }
}
