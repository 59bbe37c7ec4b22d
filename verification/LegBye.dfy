/** Hanging up the legs of a call (go/internal/bridge/session.go:1804-1825, go/internal/bridge/leg.go:
    411-436): any number of Terminate calls take copies of the leg list and call `bye` on each leg,
    which a once-guard per leg collapses. Callers that find the guard taken wait for its holder. BYEs
    that other code sends on the dialog directly are not part of this model. */
module LegBye {

  type LegId = nat

  datatype Guard = Idle | Sending | Done

  /** A leg without a dialog (the callee leg) has nothing to send a BYE on. */
  datatype Leg = Leg(hasDialog: bool, guard: Guard, byes: nat)

  /** A Terminate call: before its copy of the leg list, then at position `at` of it; `holding` while it
      runs that leg's guarded section. */
  datatype Caller = Starting | Walking(legs: seq<LegId>, at: nat, holding: bool)

  datatype State = State(legs: map<LegId, Leg>, attached: seq<LegId>, callers: map<nat, Caller>)

  datatype Label =
    | Attach(leg: LegId, hasDialog: bool)
    | Call(id: nat)
    | Copy(id: nat)
    | Advance(id: nat)

  function Init(): State {
    State(map[], [], map[])
  }

  predicate CanAdvance(s: State, id: nat) {
    && id in s.callers && s.callers[id].Walking?
    && s.callers[id].at < |s.callers[id].legs| && s.callers[id].legs[s.callers[id].at] in s.legs
  }

  /** One step of leg.bye for the leg a caller is at. */
  function ByeStep(s: State, id: nat): State
    requires CanAdvance(s, id)
  {
    var w := s.callers[id];
    var l := w.legs[w.at];
    var leg := s.legs[l];
    if w.holding then
      s.(legs := s.legs[l := leg.(guard := Done, byes := if leg.hasDialog then leg.byes + 1 else leg.byes)],
         callers := s.callers[id := w.(at := w.at + 1, holding := false)])
    else match leg.guard
      case Idle => s.(legs := s.legs[l := leg.(guard := Sending)], callers := s.callers[id := w.(holding := true)])
      case Sending => s
      case Done => s.(callers := s.callers[id := w.(at := w.at + 1)])
  }

  function Apply(s: State, l: Label): State {
    match l
    case Attach(leg, hasDialog) =>
      if leg in s.legs then s
      else s.(legs := s.legs[leg := Leg(hasDialog, Idle, 0)], attached := s.attached + [leg])
    case Call(id) => if id in s.callers then s else s.(callers := s.callers[id := Starting])
    case Copy(id) =>
      if id in s.callers && s.callers[id].Starting?
      then s.(callers := s.callers[id := Walking(s.attached, 0, false)]) else s
    case Advance(id) => if CanAdvance(s, id) then ByeStep(s, id) else s
  }

  function ExecFrom(s: State, run: seq<Label>): State {
    if run == [] then s else Apply(ExecFrom(s, run[..|run| - 1]), run[|run| - 1])
  }

  predicate Finished(c: Caller) {
    c.Walking? && c.at == |c.legs|
  }

  /** The guard tells how many BYEs have been sent. */
  predicate Counted(leg: Leg) {
    leg.byes == if leg.guard.Done? && leg.hasDialog then 1 else 0
  }

  ghost predicate Holds(s: State, id: nat, l: LegId) {
    && id in s.callers && s.callers[id].Walking? && s.callers[id].holding
    && s.callers[id].at < |s.callers[id].legs| && s.callers[id].legs[s.callers[id].at] == l
  }

  ghost predicate CallerInv(s: State, c: Caller) {
    c.Walking? ==>
      && c.at <= |c.legs|
      && (forall k :: 0 <= k < |c.legs| ==> c.legs[k] in s.legs)
      && (forall k :: 0 <= k < c.at ==> s.legs[c.legs[k]].guard.Done?)
      && (c.holding ==> c.at < |c.legs| && s.legs[c.legs[c.at]].guard.Sending?)
  }

  ghost predicate Inv(s: State) {
    && (forall l :: l in s.legs ==> Counted(s.legs[l]))
    && (forall k :: 0 <= k < |s.attached| ==> s.attached[k] in s.legs)
    && (forall id :: id in s.callers ==> CallerInv(s, s.callers[id]))
    && (forall i, j, l :: Holds(s, i, l) && Holds(s, j, l) ==> i == j)
  }

  /** What no step takes back: a leg that is done stays as it is. */
  ghost predicate Onward(s: State, t: State) {
    forall l :: l in s.legs ==>
      l in t.legs && t.legs[l].hasDialog == s.legs[l].hasDialog && (s.legs[l].guard.Done? ==> t.legs[l] == s.legs[l])
  }

  lemma ByeKeepsCaller(s: State, id: nat, i: nat)
    requires Inv(s) && CanAdvance(s, id) && i in s.callers
    ensures CallerInv(ByeStep(s, id), ByeStep(s, id).callers[i])
  {
    assert CallerInv(s, s.callers[i]) && CallerInv(s, s.callers[id]);
    if i != id && s.callers[i].Walking? && s.callers[i].holding {
      assert Holds(s, i, s.callers[i].legs[s.callers[i].at]);
      assert s.callers[id].holding ==> Holds(s, id, s.callers[id].legs[s.callers[id].at]);
    }
  }

  lemma ByeKeepsHolders(s: State, id: nat, i: nat, j: nat, l: LegId)
    requires Inv(s) && CanAdvance(s, id) && Holds(ByeStep(s, id), i, l) && Holds(ByeStep(s, id), j, l)
    ensures i == j
  {
    assert i != id ==> Holds(s, i, l) && CallerInv(s, s.callers[i]);
    assert j != id ==> Holds(s, j, l) && CallerInv(s, s.callers[j]);
  }

  lemma ByeKeeps(s: State, id: nat)
    requires Inv(s) && CanAdvance(s, id)
    ensures Inv(ByeStep(s, id)) && Onward(s, ByeStep(s, id))
  {
    var t := ByeStep(s, id);
    forall i | i in t.callers
      ensures CallerInv(t, t.callers[i])
    {
      ByeKeepsCaller(s, id, i);
    }
    forall i, j, l | Holds(t, i, l) && Holds(t, j, l)
      ensures i == j
    {
      ByeKeepsHolders(s, id, i, j, l);
    }
  }

  lemma AttachKeeps(s: State, leg: LegId, hasDialog: bool)
    requires Inv(s)
    ensures Inv(Apply(s, Attach(leg, hasDialog))) && Onward(s, Apply(s, Attach(leg, hasDialog)))
  {
    var t := Apply(s, Attach(leg, hasDialog));
    forall i | i in t.callers
      ensures CallerInv(t, t.callers[i])
    {
      assert CallerInv(s, s.callers[i]);
    }
    forall i, j, l | Holds(t, i, l) && Holds(t, j, l)
      ensures i == j
    {
      assert Holds(s, i, l) && Holds(s, j, l);
    }
  }

  /** A caller that starts, or takes its copy of the legs, holds no guard. */
  lemma NewcomerKeeps(s: State, id: nat, c: Caller)
    requires Inv(s) && CallerInv(s, c) && (c.Walking? ==> !c.holding)
    requires id in s.callers ==> s.callers[id].Starting?
    ensures Inv(s.(callers := s.callers[id := c])) && Onward(s, s.(callers := s.callers[id := c]))
  {
    var t := s.(callers := s.callers[id := c]);
    forall i | i in t.callers
      ensures CallerInv(t, t.callers[i])
    {
      assert i != id ==> CallerInv(s, s.callers[i]);
    }
    forall i, j, l | Holds(t, i, l) && Holds(t, j, l)
      ensures i == j
    {
      assert Holds(s, i, l) && Holds(s, j, l);
    }
  }

  lemma ApplyKeeps(s: State, l: Label)
    requires Inv(s)
    ensures Inv(Apply(s, l)) && Onward(s, Apply(s, l))
  {
    match l
    case Attach(leg, hasDialog) => AttachKeeps(s, leg, hasDialog);
    case Call(id) => if id !in s.callers { NewcomerKeeps(s, id, Starting); }
    case Copy(id) =>
      if id in s.callers && s.callers[id].Starting? { NewcomerKeeps(s, id, Walking(s.attached, 0, false)); }
    case Advance(id) => if CanAdvance(s, id) { ByeKeeps(s, id); }
  }

  lemma {:induction false} ExecKeeps(s: State, run: seq<Label>)
    requires Inv(s)
    ensures Inv(ExecFrom(s, run)) && Onward(s, ExecFrom(s, run))
  {
    if run != [] {
      ExecKeeps(s, run[..|run| - 1]);
      ApplyKeeps(ExecFrom(s, run[..|run| - 1]), run[|run| - 1]);
    }
  }

  lemma {:induction false} ExecSplits(s: State, pre: seq<Label>, post: seq<Label>)
    ensures ExecFrom(s, pre + post) == ExecFrom(ExecFrom(s, pre), post)
  {
    if post == [] {
      assert pre + post == pre;
    } else {
      var n := |post| - 1;
      assert (pre + post)[..|pre + post| - 1] == pre + post[..n];
      ExecSplits(s, pre, post[..n]);
    }
  }

  /** No leg ever gets two BYEs from Terminate, however many calls race. */
  lemma AtMostOneBye(run: seq<Label>, l: LegId)
    requires l in ExecFrom(Init(), run).legs
    ensures ExecFrom(Init(), run).legs[l].byes <= 1
  {
    ExecKeeps(Init(), run);
  }

  /** Once a Terminate call has finished, every leg in its copy has had exactly one BYE if it has a
      dialog to send it on, and never gets another. */
  lemma {:induction false} FinishedTerminateHungUp(pre: seq<Label>, post: seq<Label>, id: nat, k: nat)
    requires id in ExecFrom(Init(), pre).callers && Finished(ExecFrom(Init(), pre).callers[id])
    requires k < |ExecFrom(Init(), pre).callers[id].legs|
    ensures var l := ExecFrom(Init(), pre).callers[id].legs[k];
            var t := ExecFrom(Init(), pre + post);
            l in t.legs && t.legs[l].byes == if t.legs[l].hasDialog then 1 else 0
  {
    ExecKeeps(Init(), pre);
    var s := ExecFrom(Init(), pre);
    assert CallerInv(s, s.callers[id]);
    ExecSplits(Init(), pre, post);
    ExecKeeps(s, post);
  }

  /** A guard that is taken has a caller inside it. */
  ghost predicate Manned(s: State) {
    forall l :: l in s.legs && s.legs[l].guard.Sending? ==> exists i :: Holds(s, i, l)
  }

  lemma ByeStaysManned(s: State, id: nat)
    requires Inv(s) && Manned(s) && CanAdvance(s, id)
    ensures Manned(ByeStep(s, id))
  {
    var t := ByeStep(s, id);
    forall l | l in t.legs && t.legs[l].guard.Sending?
      ensures exists i :: Holds(t, i, l)
    {
      if s.legs[l].guard.Sending? {
        var i :| Holds(s, i, l);
        assert i != id;
        assert Holds(t, i, l);
      } else {
        assert Holds(t, id, l);
      }
    }
  }

  lemma StaysManned(s: State, l: Label)
    requires Inv(s) && Manned(s)
    ensures Manned(Apply(s, l))
  {
    if l.Advance? && CanAdvance(s, l.id) {
      ByeStaysManned(s, l.id);
    } else {
      var t := Apply(s, l);
      forall k | k in t.legs && t.legs[k].guard.Sending?
        ensures exists i :: Holds(t, i, k)
      {
        var i :| Holds(s, i, k);
        assert Holds(t, i, k);
      }
    }
  }

  lemma {:induction false} ExecManned(run: seq<Label>)
    ensures Inv(ExecFrom(Init(), run)) && Manned(ExecFrom(Init(), run))
  {
    ExecKeeps(Init(), run);
    if run != [] {
      ExecManned(run[..|run| - 1]);
      StaysManned(ExecFrom(Init(), run[..|run| - 1]), run[|run| - 1]);
    }
  }

  lemma ExecSnoc(s: State, run: seq<Label>, l: Label)
    ensures ExecFrom(s, run + [l]) == Apply(ExecFrom(s, run), l)
  {
    assert (run + [l])[..|run|] == run;
  }

  lemma ExecTwo(s: State, k: Label, l: Label)
    ensures ExecFrom(s, [k]) == Apply(s, k) && ExecFrom(s, [k, l]) == Apply(Apply(s, k), l)
  {
    ExecSnoc(s, [], k);
    assert [] + [k] == [k] && [k] + [l] == [k, l];
    ExecSnoc(s, [k], l);
  }

  /** Whoever has the guard of the leg a Terminate call is at, the call can be brought past it. */
  lemma OneFurther(s: State, id: nat) returns (post: seq<Label>)
    requires Inv(s) && Manned(s)
    requires id in s.callers && s.callers[id].Walking? && !Finished(s.callers[id])
    ensures var t := ExecFrom(s, post);
            id in t.callers && t.callers[id] == Walking(s.callers[id].legs, s.callers[id].at + 1, false)
  {
    assert CallerInv(s, s.callers[id]);
    var w := s.callers[id];
    var l := w.legs[w.at];
    post := [Advance(id)];
    ExecTwo(s, Advance(id), Advance(id));
    if !w.holding && s.legs[l].guard.Idle? {
      post := [Advance(id), Advance(id)];
    } else if !w.holding && s.legs[l].guard.Sending? {
      var i :| Holds(s, i, l);
      post := [Advance(i), Advance(id)];
      ExecTwo(s, Advance(i), Advance(id));
    }
  }

  /** A Terminate call that has its copy of the legs is never stuck: some continuation of the run
      brings it to its end. */
  lemma {:induction false} CanFinish(run: seq<Label>, id: nat) returns (post: seq<Label>)
    requires id in ExecFrom(Init(), run).callers && ExecFrom(Init(), run).callers[id].Walking?
    ensures var t := ExecFrom(Init(), run + post);
            && id in t.callers && Finished(t.callers[id])
            && t.callers[id].legs == ExecFrom(Init(), run).callers[id].legs
    decreases |ExecFrom(Init(), run).callers[id].legs| - ExecFrom(Init(), run).callers[id].at
  {
    ExecManned(run);
    var s := ExecFrom(Init(), run);
    if Finished(s.callers[id]) {
      post := [];
      assert run + post == run;
    } else {
      assert CallerInv(s, s.callers[id]);
      var first := OneFurther(s, id);
      ExecSplits(Init(), run, first);
      var rest := CanFinish(run + first, id);
      post := first + rest;
      assert run + post == run + first + rest;
    }
  }

  /** The run attaches this leg, and its first attaching says whether there is a dialog. */
  ghost predicate AttachedWith(run: seq<Label>, l: LegId, hasDialog: bool) {
    exists i :: 0 <= i < |run| && run[i] == Attach(l, hasDialog)
      && forall j :: 0 <= j < i ==> !(run[j].Attach? && run[j].leg == l)
  }

  lemma AttachedSnoc(run: seq<Label>, l: LegId, d: bool)
    requires run != [] && AttachedWith(run, l, d)
    ensures var n := |run| - 1; AttachedWith(run[..n], l, d) || (run[n] == Attach(l, d) && !Attaches(run[..n], l))
  {
    var n := |run| - 1;
    var i :| 0 <= i < |run| && run[i] == Attach(l, d)
      && forall j :: 0 <= j < i ==> !(run[j].Attach? && run[j].leg == l);
    if i < n {
      assert run[..n][i] == run[i];
    }
  }

  ghost predicate Attaches(run: seq<Label>, l: LegId) {
    exists i :: 0 <= i < |run| && run[i].Attach? && run[i].leg == l
  }

  lemma {:induction false} LegsAreAttached(run: seq<Label>, l: LegId)
    ensures var t := ExecFrom(Init(), run);
            && (l in t.legs <==> l in t.attached)
            && (l in t.legs ==> Attaches(run, l))
  {
    if run != [] {
      var n := |run| - 1;
      LegsAreAttached(run[..n], l);
      if Attaches(run[..n], l) {
        var i :| 0 <= i < n && run[..n][i].Attach? && run[..n][i].leg == l;
        assert run[i].Attach? && run[i].leg == l;
      }
    }
  }

  lemma {:induction false} AttachedMeans(run: seq<Label>, l: LegId, d: bool)
    requires AttachedWith(run, l, d)
    ensures var t := ExecFrom(Init(), run);
            l in t.legs && l in t.attached && t.legs[l].hasDialog == d
  {
    var n := |run| - 1;
    AttachedSnoc(run, l, d);
    LegsAreAttached(run[..n], l);
    if AttachedWith(run[..n], l, d) {
      AttachedMeans(run[..n], l, d);
      ExecKeeps(Init(), run[..n]);
      ApplyKeeps(ExecFrom(Init(), run[..n]), run[n]);
    }
    LegsAreAttached(run, l);
  }

  lemma {:induction false} NotYetCalled(run: seq<Label>, id: nat)
    requires Call(id) !in run
    ensures id !in ExecFrom(Init(), run).callers
  {
    if run != [] {
      NotYetCalled(run[..|run| - 1], id);
      assert run[|run| - 1] in run;
    }
  }

  lemma {:induction false} CopyIsKept(s: State, more: seq<Label>, id: nat)
    requires id in s.callers && s.callers[id].Walking?
    ensures var t := ExecFrom(s, more);
            id in t.callers && t.callers[id].Walking? && t.callers[id].legs == s.callers[id].legs
  {
    if more != [] {
      CopyIsKept(s, more[..|more| - 1], id);
    }
  }

  lemma CopyTakesAll(run: seq<Label>, id: nat)
    requires Call(id) !in run
    ensures ExecFrom(Init(), run + [Call(id), Copy(id)])
         == ExecFrom(Init(), run).(callers := ExecFrom(Init(), run)
              .callers[id := Walking(ExecFrom(Init(), run).attached, 0, false)])
  {
    var s := ExecFrom(Init(), run);
    NotYetCalled(run, id);
    ExecTwo(s, Call(id), Copy(id));
    ExecSplits(Init(), run, [Call(id), Copy(id)]);
    assert s.callers[id := Starting][id := Walking(s.attached, 0, false)] == s.callers[id := Walking(s.attached, 0, false)];
  }

  lemma WalkedLegIsHungUp(run: seq<Label>, rest: seq<Label>, id: nat, l: LegId, d: bool)
    requires AttachedWith(run, l, d)
    requires var t := ExecFrom(Init(), run + rest);
             id in t.callers && Finished(t.callers[id]) && t.callers[id].legs == ExecFrom(Init(), run).attached
    ensures var t := ExecFrom(Init(), run + rest);
            l in t.legs && t.legs[l].byes == if d then 1 else 0
  {
    var s := ExecFrom(Init(), run);
    AttachedMeans(run, l, d);
    var k :| 0 <= k < |s.attached| && s.attached[k] == l;
    FinishedTerminateHungUp(run + rest, [], id, k);
    assert run + rest + [] == run + rest;
    ExecSplits(Init(), run, rest);
    ExecKeeps(Init(), run);
    ExecKeeps(s, rest);
  }

  /** A Terminate begun at any point of any run, whatever happens while it walks, can come to its end,
      and by then every leg attached before it began has had one BYE if it has a dialog and none if not. */
  lemma TerminateHangsUp(run: seq<Label>, id: nat, more: seq<Label>) returns (post: seq<Label>)
    requires Call(id) !in run
    ensures var t := ExecFrom(Init(), run + [Call(id), Copy(id)] + more + post);
            && id in t.callers && Finished(t.callers[id])
            && (forall l, d :: AttachedWith(run, l, d) ==> l in t.legs && t.legs[l].byes == if d then 1 else 0)
  {
    var pre := run + [Call(id), Copy(id)];
    CopyWalksAll(run, id, more);
    post := CanFinish(pre + more, id);
    var rest := [Call(id), Copy(id)] + more + post;
    assert pre + more + post == run + rest;
    forall l, d | AttachedWith(run, l, d)
      ensures var t := ExecFrom(Init(), run + rest);
              l in t.legs && t.legs[l].byes == if d then 1 else 0
    {
      WalkedLegIsHungUp(run, rest, id, l, d);
    }
  }

  lemma CopyWalksAll(run: seq<Label>, id: nat, more: seq<Label>)
    requires Call(id) !in run
    ensures var t := ExecFrom(Init(), run + [Call(id), Copy(id)] + more);
            id in t.callers && t.callers[id].Walking? && t.callers[id].legs == ExecFrom(Init(), run).attached
  {
    var pre := run + [Call(id), Copy(id)];
    CopyTakesAll(run, id);
    ExecSplits(Init(), pre, more);
    CopyIsKept(ExecFrom(Init(), pre), more, id);
  }
}
