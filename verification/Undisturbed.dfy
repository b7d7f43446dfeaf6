/**
 One reconcile that runs alone and meets no failure, as a function of the stores.

 `Solo` follows a program through the well-behaved environment to its end; `Reconcile` does so from
 the start. `Quiet` says that no write is issued on the way.
 */
module Undisturbed {
  import opened Basics
  import opened Environment
  import opened Programs
  import opened Protocol
  import opened Invariants

  ghost function Solo(w: World, pc: PC, o: Oracle): (World, Outcome)
    decreases Stage(pc), CallsLeft(pc)
  {
    if pc.Done? then (w, pc.outcome)
    else
      var (reply, eff) := Serve(w, RequestOf(pc), o);
      ReconcileTerminates(pc, reply);
      Solo(Apply(w, eff), Resume(pc, reply), o)
  }

  ghost function Reconcile(w: World, key: Key, o: Oracle): (World, Outcome) {
    Solo(w, Begin(key), o)
  }

  predicate IsWrite(req: Request) {
    req.Create? || req.Update? || req.PutStatus?
  }

  ghost predicate Quiet(w: World, pc: PC, o: Oracle)
    decreases Stage(pc), CallsLeft(pc)
  {
    if pc.Done? then true
    else
      var (reply, eff) := Serve(w, RequestOf(pc), o);
      ReconcileTerminates(pc, reply);
      !IsWrite(RequestOf(pc)) && Quiet(Apply(w, eff), Resume(pc, reply), o)
  }

  // One call at a time.
  lemma SoloStep(w: World, pc: PC, o: Oracle, reply: Reply, eff: Effect)
    requires !pc.Done? && Serve(w, RequestOf(pc), o) == (reply, eff)
    ensures Solo(w, pc, o) == Solo(Apply(w, eff), Resume(pc, reply), o)
    ensures Quiet(w, pc, o) == (!IsWrite(RequestOf(pc)) && Quiet(Apply(w, eff), Resume(pc, reply), o))
  {
    ReconcileTerminates(pc, reply);
  }

  // A quiet reconcile leaves the stores as they are.
  lemma {:induction false} QuietChangesNothing(w: World, pc: PC, o: Oracle)
    requires Quiet(w, pc, o)
    ensures Solo(w, pc, o).0 == w
    decreases Stage(pc), CallsLeft(pc)
  {
    if !pc.Done? {
      var (reply, eff) := Serve(w, RequestOf(pc), o);
      ReconcileTerminates(pc, reply);
      assert eff == Nothing;
      QuietChangesNothing(w, Resume(pc, reply), o);
    }
  }

  // ---- a solo reconcile is a run of the protocol --------------------------------------

  /** The oracle's id is still new, or no longer needed. */
  predicate Supplied(w: World, pc: PC, o: Oracle) {
    FreshId(w, o.newId) || pc.SaveNew? || pc.Done?
  }

  lemma ServeAdds(w: World, req: Request, o: Oracle)
    requires FreshId(w, o.newId)
    ensures var (reply, eff) := Serve(w, req, o);
            && (eff.Added? ==> req.Create? && reply.Created?)
            && (!eff.Added? ==> FreshId(Apply(w, eff), o.newId))
  {
  }

  lemma {:induction false} SoloIsARun(s: Sys, pid: nat, o: Oracle) returns (evs: seq<Event>)
    requires pid in s.procs && Supplied(s.w, s.procs[pid], o)
    ensures Valid(s, evs) && After(s, evs).w == Solo(s.w, s.procs[pid], o).0
    ensures After(s, evs).procs == s.procs - {pid}
    decreases Stage(s.procs[pid]), CallsLeft(s.procs[pid])
  {
    var pc := s.procs[pid];
    var (reply, eff) := Serve(s.w, RequestOf(pc), o);
    ReconcileTerminates(pc, reply);
    var ev, next := Act(pid, reply, eff), Resume(pc, reply);
    if pc.SaveNew? {
      assert Handles(s.w, RequestOf(pc), reply, eff);
      assert next.Done?;
    } else {
      ServeIsHandled(s.w, RequestOf(pc), o);
      ServeAdds(s.w, RequestOf(pc), o);
      if eff.Added? {
        CreateAwaits(pc, reply);
      }
    }
    var s1 := Next(s, ev);
    assert s1.w == Apply(s.w, eff);
    if next.Done? {
      evs := [ev];
      assert evs[1..] == [] && Valid(s1, []);
      assert After(s, evs) == After(s1, []) == s1;
    } else {
      assert s1.procs[pid] == next && Supplied(s1.w, next, o);
      var rest := SoloIsARun(s1, pid, o);
      evs := [ev] + rest;
      assert evs[1..] == rest;
    }
  }

  lemma CreateAwaits(pc: PC, reply: Reply)
    requires !pc.Done? && RequestOf(pc).Create? && reply.Created?
    ensures Resume(pc, reply).SaveNew?
  {
  }

  // An undisturbed reconcile leaves the stores in order.
  lemma {:induction false} SoloKeepsStores(w: World, pc: PC, o: Oracle)
    requires StoresOk(w) && PcOk(w, pc) && Supplied(w, pc, o)
    ensures StoresOk(Solo(w, pc, o).0) && Grows(w, Solo(w, pc, o).0)
    decreases Stage(pc), CallsLeft(pc)
  {
    if !pc.Done? {
      var (reply, eff) := Serve(w, RequestOf(pc), o);
      ReconcileTerminates(pc, reply);
      var next := Resume(pc, reply);
      if pc.SaveNew? {
        assert Handles(w, RequestOf(pc), reply, eff);
        assert next.Done?;
      } else {
        ServeIsHandled(w, RequestOf(pc), o);
        ServeAdds(w, RequestOf(pc), o);
        if eff.Added? {
          CreateAwaits(pc, reply);
        }
      }
      CallStaysOk(w, pc, reply, eff);
      ResumeOk(w, pc, reply, eff);
      EffectGrows(w, pc, reply, eff);
      SoloKeepsStores(Apply(w, eff), next, o);
      GrowsTransitively(w, Apply(w, eff), Solo(w, pc, o).0);
    }
  }

  lemma EffectGrows(w: World, pc: PC, reply: Reply, eff: Effect)
    requires !pc.Done? && Handles(w, RequestOf(pc), reply, eff)
    ensures Grows(w, Apply(w, eff))
  {
  }

  lemma ReconcileKeepsStores(w: World, k: Key, o: Oracle)
    requires StoresOk(w) && FreshId(w, o.newId)
    ensures StoresOk(Reconcile(w, k, o).0) && Grows(w, Reconcile(w, k, o).0)
  {
    SoloKeepsStores(w, Begin(k), o);
  }

  // ---- beginnings and ends ------------------------------------------------------------

  /** The current version of a resource. */
  function Now(w: World, k: Key): CR
    requires k in w.hist && w.hist[k] != []
  {
    w.hist[k][|w.hist[k]| - 1]
  }

  /** What a reconcile that starts now holds. */
  function SnapNow(w: World, k: Key): Snap
    requires k in w.hist && w.hist[k] != []
  {
    Snap(k, Now(w, k).id, |w.hist[k]| - 1)
  }

  function WithId(w: World, k: Key, id: string): World
    requires k in w.hist && w.hist[k] != []
  {
    Apply(w, Appended(k, CR(Now(w, k).spec, id)))
  }

  /** The stores after a user has edited a spec. */
  function Edited(w: World, k: Key, spec: Spec): World {
    Apply(w, Appended(k, CR(spec, CurrentId(w, k))))
  }

  /** The snapshot is the current version. */
  predicate Fresh(w: World, s: Snap) {
    s.key in w.hist && w.hist[s.key] != [] && s == SnapNow(w, s.key)
  }

  lemma BeginSolo(w: World, k: Key, o: Oracle)
    requires k in w.hist && w.hist[k] != [] && SpecFits(k.kind, Now(w, k).spec)
    ensures Reconcile(w, k, o) == Solo(w, Start(SnapNow(w, k), Now(w, k).spec), o)
    ensures Quiet(w, Begin(k), o) == Quiet(w, Start(SnapNow(w, k), Now(w, k).spec), o)
  {
  }

  lemma SaveSolo(w: World, pc: PC, o: Oracle)
    requires (pc.SaveNew? || pc.SaveImport? || pc.SaveSync?) && Fresh(w, pc.s)
    ensures Solo(w, pc, o) == (WithId(w, pc.s.key, SavedId(pc)),
                               if pc.SaveNew? then pc.result else if pc.SaveImport? then Stop else Requeue(5))
  {
  }

  // The two ways a reconcile ends with a write: a create or an update, and then its status write.
  lemma CreateEnds(w: World, pc: PC, o: Oracle, stored: Obj, outcome: Outcome)
    requires !pc.Done? && !pc.Begin? && Fresh(w, pc.s)
    requires Serve(w, RequestOf(pc), o) == (Created(o.newId), Added(RKey(pc.s.key.kind, o.newId), stored))
    requires Resume(pc, Created(o.newId)) == SaveNew(pc.s, o.newId, outcome)
    ensures Solo(w, pc, o)
         == (WithId(Apply(w, Added(RKey(pc.s.key.kind, o.newId), stored)), pc.s.key, o.newId), outcome)
  {
    var eff := Added(RKey(pc.s.key.kind, o.newId), stored);
    SoloStep(w, pc, o, Created(o.newId), eff);
    SaveSolo(Apply(w, eff), SaveNew(pc.s, o.newId, outcome), o);
  }

  lemma UpdateEnds(w: World, pc: PC, o: Oracle, stored: Obj)
    requires !pc.Done? && !pc.Begin? && Fresh(w, pc.s)
    requires Serve(w, RequestOf(pc), o) == (Updated, Patched(RKey(pc.s.key.kind, pc.s.id), stored))
    requires Resume(pc, Updated) == SaveSync(pc.s)
    ensures Solo(w, pc, o)
         == (WithId(Apply(w, Patched(RKey(pc.s.key.kind, pc.s.id), stored)), pc.s.key, pc.s.id), Requeue(5))
  {
    var eff := Patched(RKey(pc.s.key.kind, pc.s.id), stored);
    SoloStep(w, pc, o, Updated, eff);
    SaveSolo(Apply(w, eff), SaveSync(pc.s), o);
  }

  /** The id that a direct team id or a team reference stands for now, if the reference exists. */
  function TeamNow(w: World, namespace: string, teamID: string, teamRef: Option<string>): Option<string> {
    if teamID != "" then Some(teamID)
    else if teamRef.Some? && Key(Team, namespace, teamRef.value) in w.hist
    then Some(CurrentId(w, Key(Team, namespace, teamRef.value)))
    else None
  }

  lemma TeamNowGrows(w: World, w': World, namespace: string, teamID: string, teamRef: Option<string>)
    requires Grows(w, w') && TeamNow(w, namespace, teamID, teamRef).Some?
    ensures TeamNow(w', namespace, teamID, teamRef).Some?
  {
  }

  // ---- lookups by name ----------------------------------------------------------------

  // Where names are unique, a lookup finds the object that bears the name.
  lemma LookupSolo(w: World, rk: RKey, o: Oracle)
    requires StoresOk(w) && rk in w.remote && Named(rk.kind)
    ensures Serve(w, GetByName(rk.kind, ObjName(w.remote[rk])), o) == (GotObj(rk.id, w.remote[rk]), Nothing)
  {
  }

  // An update that keeps the name of an object cannot clash.
  lemma NoClash(w: World, rk: RKey)
    requires StoresOk(w) && rk in w.remote && Named(rk.kind)
    ensures !NameClash(w, rk, ObjName(w.remote[rk]))
  {
  }

  // ---- repetition ---------------------------------------------------------------------

  /** The stores after one reconcile for each oracle. */
  ghost function Repeated(w: World, k: Key, os: seq<Oracle>): World
    decreases |os|
  {
    if os == [] then w else Repeated(Reconcile(w, k, os[0]).0, k, os[1..])
  }

  /** Every oracle's id is new when its turn comes. */
  ghost predicate AllFresh(w: World, k: Key, os: seq<Oracle>)
    decreases |os|
  {
    os == [] || (FreshId(w, os[0].newId) && AllFresh(Reconcile(w, k, os[0]).0, k, os[1..]))
  }
}
