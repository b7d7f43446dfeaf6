/**
 Agreement amid interference.

 Reconciles of all resources run at once, calls fail, reads are stale, processes die. As long as the
 spec of one resource stays what it is, and no reconcile that is still unfinished holds another one,
 every reconcile of it that ends well leaves its object in agreement, and agreement is never lost.
 */
module Interference {
  import opened Basics
  import opened Environment
  import opened Programs
  import opened Protocol
  import opened Invariants
  import opened Ledger
  import opened Naming
  import opened Safety
  import opened Agreement
  import Escalations

  // ---- whose objects ------------------------------------------------------------------

  /** An object that only reconciles of `k` write: created for it, or bearing its name. */
  ghost predicate Mine(s: Sys, names: Names, k: Key, rk: RKey) {
    && rk.kind == k.kind && rk in s.w.remote
    && if Unnamed(k.kind) then rk in s.creator && s.creator[rk] == k else Bears(s.w, rk, names(k))
  }

  /** If the kind has names, they are fixed and no other resource has this one's. */
  ghost predicate Alone(w: World, names: Names, k: Key) {
    Named(k.kind) ==>
      && NamesFixed(w, names)
      && forall k' :: k' in w.hist && k' != k && k'.kind == k.kind ==> names(k') != names(k)
  }

  ghost predicate Sound(s: Sys, names: Names, k: Key) {
    Inv(s) && Alone(s.w, names, k) && (Named(k.kind) ==> NamesOk(s, names))
  }

  lemma HeldIsMine(s: Sys, names: Names, k: Key, id: string)
    requires Sound(s, names, k) && (k, id) in HeldIds(s.w)
    ensures Mine(s, names, k, RKey(k.kind, id))
  {
    if Named(k.kind) {
      HeldBears(s, names, k, id);
    } else {
      assert (k, id) in BookOf(s).held;
      assert RKey(k.kind, id) in BookOf(s).known;
    }
  }

  // An update of such an object comes from a reconcile of `k`.
  lemma OnlyOwnUpdates(s: Sys, names: Names, k: Key, pid: nat, reply: Reply, eff: Effect)
    requires Sound(s, names, k) && Enabled(s, Act(pid, reply, eff)) && eff.Patched? && Mine(s, names, k, eff.rk)
    ensures KeyOf(s.procs[pid]) == k
  {
    var own := KeyOf(s.procs[pid]);
    CallHitsOwn(s.w, s.procs[pid], reply, eff);
    assert (own, eff.rk.id) in HeldIds(s.w) && own.kind == k.kind;
    if Named(k.kind) {
      HeldBears(s, names, own, eff.rk.id);
    } else {
      assert (own, eff.rk.id) in BookOf(s).held;
    }
  }

  // ---- reconciles that work from one spec ---------------------------------------------

  /** The event does not change the spec of `k`, nor lets a reconcile read another one. */
  ghost predicate Steady(s: Sys, ev: Event, k: Key, spec: Spec) {
    match ev
    case Edit(key, to) => key == k ==> to == spec
    case Act(pid, reply, _) => pid in s.procs && s.procs[pid] == Begin(k) && reply.GotCR? ==> reply.cr.spec == spec
    case _ => true
  }

  ghost predicate SteadyRun(s: Sys, evs: seq<Event>, k: Key, spec: Spec)
    requires Valid(s, evs)
    decreases |evs|
  {
    evs == [] || (Steady(s, evs[0], k, spec) && SteadyRun(Next(s, evs[0]), evs[1..], k, spec))
  }

  /** A reconcile of `k` holds no other spec, and an object whose id it is about to write was made from this one. */
  predicate WorksFrom(w: World, pc: Live, k: Key, spec: Spec) {
    KeyOf(pc) == k ==>
      && (SpecOf(pc).Some? ==> SpecOf(pc).value == spec)
      && (pc.SaveNew? ==> Awaited(pc) in w.remote && AsMade(spec, w.remote[Awaited(pc)]))
  }

  ghost predicate NoOlder(s: Sys, k: Key, spec: Spec) {
    forall pid :: pid in s.procs ==> WorksFrom(s.w, s.procs[pid], k, spec)
  }

  // The spec a reconcile works from is the one it has read.
  lemma SpecShape(pc: PC, reply: Reply)
    requires !pc.Done?
    ensures var next := Resume(pc, reply);
            && (SpecOf(next).Some? ==> if pc.Begin? then reply.GotCR? && SpecOf(next).value == reply.cr.spec
                                       else SpecOf(next) == SpecOf(pc))
  {
    match pc
    case Begin(key) =>
      if reply.GotCR? && reply.cr.spec.EscalationCR? {
        MappingShape(Snap(key, reply.cr.id, reply.ver), reply.cr.spec.escalation, reply.cr.spec.escalation.teamID, []);
      }
    case OnEscalation(s, e, EscTeam(_)) =>
      if reply.GotCR? {
        MappingShape(s, e, reply.cr.id, []);
      }
    case OnEscalation(s, e, EscRef(teamId, acc, _)) =>
      if reply.GotCR? && |acc| < |e.rules| {
        MappingShape(s, e, teamId, acc + [Escalations.MapRule(e.rules[|acc|], reply.cr.id, "")]);
      }
    case _ =>
  }

  lemma MappedSpec(w: World, e: EscalationSpec, acc: seq<Escalations.RuleRequest>)
    requires AccOk(w, e, acc) && |acc| == |e.rules|
    ensures Escalations.RulesAgree(e.rules, acc)
  {
    forall i | 0 <= i < |acc| ensures Escalations.RuleAgrees(e.rules[i], acc[i]) {
      assert MappedOk(w, e.rules[i], acc[i]);
    }
  }

  // What a reconcile sends comes from its spec.
  lemma SendsItsSpec(w: World, pc: PC)
    requires !pc.Done? && PcOk(w, pc) && (RequestOf(pc).Update? || RequestOf(pc).Create?)
    ensures SpecOf(pc).Some? && SpecFits(KeyOf(pc).kind, SpecOf(pc).value)
    ensures if RequestOf(pc).Update? then SendsSpec(SpecOf(pc).value, RequestOf(pc).obj)
            else MakesSpec(SpecOf(pc).value, RequestOf(pc).obj)
  {
    match pc
    case OnEscalation(_, e, EscUpdate(_, acc, _)) => MappedSpec(w, e, acc);
    case OnEscalation(_, e, EscCreate(_, acc)) => MappedSpec(w, e, acc);
    case _ =>
  }

  // ---- what a step does to the objects of `k` -----------------------------------------

  lemma UpdateOfMine(w: World, pc: PC, rk: RKey, obj: Obj)
    requires !pc.Done? && PcOk(w, pc) && StoresOk(w) && RequestOf(pc).Update?
    requires rk.kind == KeyOf(pc).kind && UpdateApplied(w, rk, RequestOf(pc).obj, Patched(rk, obj))
    ensures SpecOf(pc).Some? && Evolves(SpecOf(pc).value, w.remote[rk], obj)
    ensures !SpecOf(pc).value.TeamCR? ==> Fine(SpecOf(pc).value, obj)
  {
    SendsItsSpec(w, pc);
    assert ObjFits(rk.kind, w.remote[rk]);
    UpdateEvolves(SpecOf(pc).value, w.remote[rk], RequestOf(pc).obj, obj);
  }

  /** The objects of `k` are still there and have developed as its spec demands. */
  ghost predicate Develops(s: Sys, w': World, names: Names, k: Key, spec: Spec) {
    forall rk :: Mine(s, names, k, rk) ==> rk in w'.remote && Evolves(spec, s.w.remote[rk], w'.remote[rk])
  }

  lemma UpdateDevelops(s: Sys, pid: nat, reply: Reply, rk: RKey, obj: Obj, names: Names, k: Key, spec: Spec)
    requires Sound(s, names, k) && NoOlder(s, k, spec) && Enabled(s, Act(pid, reply, Patched(rk, obj)))
    requires Mine(s, names, k, rk)
    ensures Evolves(spec, s.w.remote[rk], obj)
  {
    OnlyOwnUpdates(s, names, k, pid, reply, Patched(rk, obj));
    CallShape(s.w, s.procs[pid], reply, Patched(rk, obj));
    UpdateOfMine(s.w, s.procs[pid], rk, obj);
    assert WorksFrom(s.w, s.procs[pid], k, spec);
  }

  lemma OthersStay(s: Sys, ev: Event, rk: RKey)
    requires Enabled(s, ev) && rk in s.w.remote && !(ev.Act? && ev.eff.Patched? && ev.eff.rk == rk)
    ensures rk in Next(s, ev).w.remote && Next(s, ev).w.remote[rk] == s.w.remote[rk]
  {
  }

  lemma StepDevelops(s: Sys, ev: Event, names: Names, k: Key, spec: Spec)
    requires Sound(s, names, k) && NoOlder(s, k, spec) && Enabled(s, ev)
    ensures Develops(s, Next(s, ev).w, names, k, spec)
  {
    var w' := Next(s, ev).w;
    forall rk | Mine(s, names, k, rk) ensures rk in w'.remote && Evolves(spec, s.w.remote[rk], w'.remote[rk]) {
      if ev.Act? && ev.eff.Patched? && ev.eff.rk == rk {
        UpdateDevelops(s, ev.pid, ev.reply, rk, ev.eff.obj, names, k, spec);
      } else {
        OthersStay(s, ev, rk);
      }
    }
  }

  lemma AwaitedIsMine(s: Sys, names: Names, pid: nat)
    requires pid in s.procs && Sound(s, names, KeyOf(s.procs[pid])) && s.procs[pid].SaveNew?
    ensures Mine(s, names, KeyOf(s.procs[pid]), Awaited(s.procs[pid]))
  {
    var rk := Awaited(s.procs[pid]);
    assert s.creator[rk] == KeyOf(s.procs[pid]) && rk in BookOf(s).known;
  }

  // A reconcile goes on with the spec it works from; what it has created is what that spec says.
  lemma ActorWorksOn(s: Sys, pid: nat, reply: Reply, eff: Effect, k: Key, spec: Spec)
    requires Base(s) && Enabled(s, Act(pid, reply, eff)) && KeyOf(s.procs[pid]) == k
    requires WorksFrom(s.w, s.procs[pid], k, spec) && Steady(s, Act(pid, reply, eff), k, spec)
    ensures var next := Resume(s.procs[pid], reply); !next.Done? ==> WorksFrom(Apply(s.w, eff), next, k, spec)
  {
    var pc := s.procs[pid];
    var next := Resume(pc, reply);
    SpecShape(pc, reply);
    AwaitShape(pc, reply);
    if next.SaveNew? {
      CallShape(s.w, pc, reply, eff);
      SendsItsSpec(s.w, pc);
      assert eff.Added? && reply.id == eff.rk.id;
      CreateAgrees(spec, RequestOf(pc).obj, eff.obj);
    }
  }

  lemma OthersWorkOn(s: Sys, w': World, names: Names, k: Key, spec: Spec, pid: nat)
    requires Sound(s, names, k) && Develops(s, w', names, k, spec) && StoresOk(w')
    requires pid in s.procs && WorksFrom(s.w, s.procs[pid], k, spec)
    ensures WorksFrom(w', s.procs[pid], k, spec)
  {
    var pc := s.procs[pid];
    if KeyOf(pc) == k && pc.SaveNew? {
      AwaitedIsMine(s, names, pid);
      assert ObjFits(k.kind, s.w.remote[Awaited(pc)]) && ObjFits(k.kind, w'.remote[Awaited(pc)]);
      AsMadeEvolves(spec, s.w.remote[Awaited(pc)], w'.remote[Awaited(pc)]);
    }
  }

  lemma NoOlderKept(s: Sys, ev: Event, names: Names, k: Key, spec: Spec)
    requires Sound(s, names, k) && NoOlder(s, k, spec) && Enabled(s, ev) && Steady(s, ev, k, spec)
    ensures NoOlder(Next(s, ev), k, spec)
  {
    var s' := Next(s, ev);
    StepDevelops(s, ev, names, k, spec);
    BaseKept(s, ev);
    if ev.Act? && KeyOf(s.procs[ev.pid]) == k {
      ActorWorksOn(s, ev.pid, ev.reply, ev.eff, k, spec);
    }
    if ev.Act? {
      ReconcileTerminates(s.procs[ev.pid], ev.reply);
    }
    forall p | p in s'.procs ensures WorksFrom(s'.w, s'.procs[p], k, spec) {
      if p in s.procs && s'.procs[p] == s.procs[p] {
        OthersWorkOn(s, s'.w, names, k, spec, p);
      }
    }
  }
}
