/**
 Ownership by name. Teams, schedules and escalations find their remote object by its name, so what
 they own is settled as long as their specs keep the names they have.
 */
module Naming {
  import opened Basics
  import opened Environment
  import opened Programs
  import opened Protocol
  import opened Invariants
  import opened Ledger
  import Escalations

  type Names = Key -> string

  /** Every version of every named resource has the name that `names` gives it. */
  ghost predicate NamesFixed(w: World, names: Names) {
    forall k, v :: k in w.hist && Named(k.kind) && 0 <= v < |w.hist[k]| ==> SpecName(w.hist[k][v].spec) == names(k)
  }

  lemma NamesFixedBefore(w: World, w': World, names: Names)
    requires Grows(w, w') && NamesFixed(w', names)
    ensures NamesFixed(w, names)
  {
  }

  /** The remote object exists and bears the name. */
  predicate Bears(w: World, rk: RKey, name: string) {
    rk in w.remote && ObjName(w.remote[rk]) == name
  }

  /** About to write an id to the status that was looked up by name. */
  predicate Importing(pc: PC) {
    match pc
    case SaveImport(_, _) => true
    case OnTeam(_, _, TeamImport(_, _)) => true
    case OnEscalation(_, _, EscImport(_, _, _, _)) => true
    case _ => false
  }

  function ImportId(pc: PC): string
    requires Importing(pc)
  {
    match pc
    case SaveImport(_, id) => id
    case OnTeam(_, _, TeamImport(id, _)) => id
    case OnEscalation(_, _, EscImport(_, _, id, _)) => id
  }

  /** What a reconcile has looked up bears the name of its resource. */
  predicate PcNamesOk(w: World, pc: PC, names: Names) {
    Importing(pc) ==> Bears(w, RKey(pc.s.key.kind, ImportId(pc)), names(pc.s.key))
  }

  ghost predicate HeldNamesOk(w: World, names: Names) {
    forall k, v :: k in w.hist && Named(k.kind) && 0 <= v < |w.hist[k]| && w.hist[k][v].id != ""
                   ==> Bears(w, RKey(k.kind, w.hist[k][v].id), names(k))
  }

  /** Every object of a named kind that was created for a resource bears its name. */
  ghost predicate CreatedNamesOk(w: World, creator: map<RKey, Key>, names: Names) {
    forall rk :: rk in creator && Named(rk.kind) ==> Bears(w, rk, names(creator[rk]))
  }

  ghost predicate NamesOk(s: Sys, names: Names) {
    && HeldNamesOk(s.w, names)
    && CreatedNamesOk(s.w, s.creator, names)
    && (forall pid :: pid in s.procs ==> PcNamesOk(s.w, s.procs[pid], names))
  }

  /** Objects of named kinds stay, with the names they have. */
  ghost predicate KeepsNames(w: World, w': World) {
    forall rk :: rk in w.remote && Named(rk.kind) ==> Bears(w', rk, ObjName(w.remote[rk]))
  }

  // ---- what calls say about names -----------------------------------------------------

  // A create sends the name of the resource; an update goes to the object that the resource holds
  // and sends its name or none.
  lemma CallsSendNames(w: World, pc: PC, names: Names)
    requires !pc.Done? && PcOk(w, pc) && NamesFixed(w, names) && Named(KeyOf(pc).kind)
    ensures RequestOf(pc).Create? ==> ObjName(RequestOf(pc).obj) == names(KeyOf(pc))
    ensures RequestOf(pc).Update? ==>
              && pc.s.id != "" && Held(w, pc.s) && RequestOf(pc).rk == RKey(KeyOf(pc).kind, pc.s.id)
              && (ObjName(RequestOf(pc).obj) == "" || ObjName(RequestOf(pc).obj) == names(KeyOf(pc)))
  {
  }

  // A create leaves an object that bears the name of its resource.
  lemma CreateBears(w: World, pc: PC, rk: RKey, obj: Obj, names: Names)
    requires !pc.Done? && PcOk(w, pc) && NamesFixed(w, names)
    requires RequestOf(pc).Create? && CreateApplied(w, KeyOf(pc), RequestOf(pc).obj, Added(rk, obj))
    ensures KeepsNames(w, Apply(w, Added(rk, obj)))
    ensures Named(rk.kind) ==> Bears(Apply(w, Added(rk, obj)), rk, names(KeyOf(pc)))
  {
    if Named(rk.kind) {
      CallsSendNames(w, pc, names);
      KeepsShape(RequestOf(pc).obj, obj, SendsRules(RequestOf(pc).obj));
    }
  }

  // An update leaves its object with the name it has.
  lemma UpdateKeepsName(w: World, pc: PC, rk: RKey, obj: Obj, names: Names)
    requires !pc.Done? && PcOk(w, pc) && NamesFixed(w, names) && HeldNamesOk(w, names)
    requires RequestOf(pc).Update? && UpdateApplied(w, rk, RequestOf(pc).obj, Patched(rk, obj))
    requires rk == RequestOf(pc).rk && rk.kind == KeyOf(pc).kind
    ensures KeepsNames(w, Apply(w, Patched(rk, obj)))
  {
    if Named(rk.kind) {
      CallsSendNames(w, pc, names);
      assert Bears(w, RKey(KeyOf(pc).kind, w.hist[pc.s.key][pc.s.ver].id), names(KeyOf(pc)));
      MergeShape(w.remote[rk], RequestOf(pc).obj);
      KeepsShape(Merge(w.remote[rk], RequestOf(pc).obj), obj, SendsRules(RequestOf(pc).obj));
    }
  }

  lemma CallKeepsNames(w: World, pc: PC, reply: Reply, eff: Effect, names: Names)
    requires !pc.Done? && PcOk(w, pc) && Handles(w, RequestOf(pc), reply, eff) && StoresOk(w)
    requires NamesFixed(w, names) && HeldNamesOk(w, names)
    ensures KeepsNames(w, Apply(w, eff))
    ensures eff.Added? && Named(eff.rk.kind) ==> Bears(Apply(w, eff), eff.rk, names(KeyOf(pc)))
  {
    CallShape(w, pc, reply, eff);
    match eff
    case Added(rk, obj) => CreateBears(w, pc, rk, obj, names);
    case Patched(rk, obj) => UpdateKeepsName(w, pc, rk, obj, names);
    case _ =>
  }

  // ---- imports ------------------------------------------------------------------------

  // A reconcile comes to import an id exactly by a lookup of its spec's name that finds something.
  lemma ImportShape(pc: PC, reply: Reply)
    requires !pc.Done? && Importing(Resume(pc, reply))
    ensures SpecOf(pc).Some? && RequestOf(pc).GetByName? && RequestOf(pc).name == SpecName(SpecOf(pc).value)
    ensures Named(RequestOf(pc).kind) && SpecFits(RequestOf(pc).kind, SpecOf(pc).value)
    ensures reply.GotObj? && ImportId(Resume(pc, reply)) == reply.id && Resume(pc, reply).s == pc.s
  {
    match pc
    case Begin(key) =>
      if reply.GotCR? && reply.cr.spec.EscalationCR? {
        MappingShape(Snap(key, reply.cr.id, reply.ver), reply.cr.spec.escalation,
                             reply.cr.spec.escalation.teamID, []);
      }
    case OnEscalation(s, e, EscTeam(_)) =>
      if reply.GotCR? {
        MappingShape(s, e, reply.cr.id, []);
      }
    case OnEscalation(s, e, EscRef(teamId, acc, _)) =>
      if reply.GotCR? && |acc| < |e.rules| {
        MappingShape(s, e, teamId, acc + [Escalations.MapRule(e.rules[|acc|], reply.cr.id, "")]);
      }
    case _ =>
  }

  // A lookup under the spec's name finds an object that bears the name of the resource.
  lemma FoundBears(w: World, s: Snap, spec: Spec, reply: Reply, eff: Effect, names: Names)
    requires SnapIs(w, s, spec) && NamesFixed(w, names) && Named(s.key.kind)
    requires Handles(w, GetByName(s.key.kind, SpecName(spec)), reply, eff)
    ensures Apply(w, eff) == w
    ensures reply.GotObj? ==> Bears(w, RKey(s.key.kind, reply.id), names(s.key))
  {
  }

  // What is imported was looked up under the name of the resource.
  lemma ResumeNamesOk(w: World, pc: PC, reply: Reply, eff: Effect, names: Names)
    requires !pc.Done? && PcOk(w, pc) && Handles(w, RequestOf(pc), reply, eff)
    requires NamesFixed(w, names)
    ensures PcNamesOk(Apply(w, eff), Resume(pc, reply), names)
  {
    if Importing(Resume(pc, reply)) {
      ImportShape(pc, reply);
      FoundBears(w, pc.s, SpecOf(pc).value, reply, eff, names);
    }
  }

  // A status write stores an id that was created, one that was looked up, or the one already held.
  lemma SavedShape(pc: PC)
    requires !pc.Done? && RequestOf(pc).PutStatus?
    ensures pc.SaveNew? || (if Importing(pc) then SavedId(pc) == ImportId(pc) else SavedId(pc) == pc.s.id)
    ensures pc.SaveNew? ==> SavedId(pc) == pc.id
  {
  }

  // The id that a status write of a named kind stores belongs to an object with the resource's name.
  lemma SavedIdBears(w: World, pc: PC, creator: map<RKey, Key>, names: Names)
    requires !pc.Done? && PcOk(w, pc) && RequestOf(pc).PutStatus? && Named(KeyOf(pc).kind)
    requires HeldNamesOk(w, names) && CreatedNamesOk(w, creator, names) && PcNamesOk(w, pc, names)
    requires pc.SaveNew? ==> Awaited(pc) in creator && creator[Awaited(pc)] == pc.s.key
    requires SavedId(pc) != ""
    ensures Bears(w, RKey(KeyOf(pc).kind, SavedId(pc)), names(KeyOf(pc)))
  {
    SavedShape(pc);
    if !pc.SaveNew? && !Importing(pc) {
      assert Held(w, pc.s);
    }
  }

  // ---- every step keeps ownership by name ---------------------------------------------

  lemma NamesStay(w: World, w': World, creator: map<RKey, Key>, names: Names)
    requires KeepsNames(w, w') && CreatedNamesOk(w, creator, names)
    ensures CreatedNamesOk(w', creator, names)
    ensures HeldNamesOk(w, names) && w'.hist == w.hist ==> HeldNamesOk(w', names)
  {
  }

  lemma PcNamesStay(w: World, w': World, pc: PC, names: Names)
    requires KeepsNames(w, w') && PcOk(w, pc) && PcNamesOk(w, pc, names)
    ensures PcNamesOk(w', pc, names)
  {
    assert Importing(pc) ==> Named(pc.s.key.kind);
  }

  lemma AppendedNamesOk(w: World, key: Key, cr: CR, names: Names)
    requires HeldNamesOk(w, names)
    requires Named(key.kind) && cr.id != "" ==> Bears(w, RKey(key.kind, cr.id), names(key))
    ensures HeldNamesOk(Apply(w, Appended(key, cr)), names)
    ensures KeepsNames(w, Apply(w, Appended(key, cr)))
  {
  }

  lemma ActKeepsHeldNames(s: Sys, pid: nat, reply: Reply, eff: Effect, names: Names)
    requires Base(s) && LedgerOk(s) && NamesOk(s, names)
    requires Enabled(s, Act(pid, reply, eff)) && KeepsNames(s.w, Apply(s.w, eff))
    ensures HeldNamesOk(Apply(s.w, eff), names)
  {
    var pc := s.procs[pid];
    if eff.Appended? {
      CallShape(s.w, pc, reply, eff);
      if Named(eff.key.kind) {
        SavedIdBears(s.w, pc, s.creator, names);
      }
      AppendedNamesOk(s.w, eff.key, eff.cr, names);
    } else {
      NamesStay(s.w, Apply(s.w, eff), s.creator, names);
    }
  }

  lemma CreatorKeepsNames(w: World, eff: Effect, k: Key, creator: map<RKey, Key>, names: Names)
    requires CreatedNamesOk(w, creator, names) && KeepsNames(w, Apply(w, eff))
    requires eff.Added? && Named(eff.rk.kind) ==> Bears(Apply(w, eff), eff.rk, names(k))
    ensures CreatedNamesOk(Apply(w, eff), if eff.Added? then creator[eff.rk := k] else creator, names)
  {
    NamesStay(w, Apply(w, eff), creator, names);
  }

  lemma MovesKeepNames(s: Sys, s': Sys, pid: nat, next: PC, names: Names)
    requires Base(s) && NamesOk(s, names) && KeepsNames(s.w, s'.w) && Moves(s, s', pid, next)
    requires HeldNamesOk(s'.w, names) && CreatedNamesOk(s'.w, s'.creator, names) && PcNamesOk(s'.w, next, names)
    ensures NamesOk(s', names)
  {
    ProcsKeepNames(s, s'.w, names);
  }

  lemma ActKeepsNames(s: Sys, pid: nat, reply: Reply, eff: Effect, names: Names)
    requires Base(s) && LedgerOk(s) && NamesOk(s, names) && NamesFixed(s.w, names)
    requires Enabled(s, Act(pid, reply, eff))
    ensures NamesOk(Next(s, Act(pid, reply, eff)), names)
    ensures KeepsNames(s.w, Apply(s.w, eff))
  {
    var pc := s.procs[pid];
    CallKeepsNames(s.w, pc, reply, eff, names);
    ActKeepsHeldNames(s, pid, reply, eff, names);
    CreatorKeepsNames(s.w, eff, KeyOf(pc), s.creator, names);
    ResumeNamesOk(s.w, pc, reply, eff, names);
    MovesKeepNames(s, Next(s, Act(pid, reply, eff)), pid, Resume(pc, reply), names);
  }

  lemma ProcsKeepNames(s: Sys, w': World, names: Names)
    requires Base(s) && NamesOk(s, names) && KeepsNames(s.w, w')
    ensures forall pid :: pid in s.procs ==> PcNamesOk(w', s.procs[pid], names)
  {
    forall pid | pid in s.procs ensures PcNamesOk(w', s.procs[pid], names) {
      PcNamesStay(s.w, w', s.procs[pid], names);
    }
  }

  lemma EditKeepsNames(s: Sys, key: Key, spec: Spec, names: Names)
    requires Base(s) && NamesOk(s, names) && SpecFits(key.kind, spec)
    ensures NamesOk(Next(s, Edit(key, spec)), names)
    ensures KeepsNames(s.w, Next(s, Edit(key, spec)).w)
  {
    AppendedNamesOk(s.w, key, CR(spec, CurrentId(s.w, key)), names);
    NamesStay(s.w, Next(s, Edit(key, spec)).w, s.creator, names);
    ProcsKeepNames(s, Next(s, Edit(key, spec)).w, names);
  }

  lemma ForeignKeepsNames(s: Sys, rk: RKey, obj: Obj, names: Names)
    requires Base(s) && NamesOk(s, names) && rk !in s.w.remote
    ensures NamesOk(s.(w := Apply(s.w, Added(rk, obj))), names)
    ensures KeepsNames(s.w, Apply(s.w, Added(rk, obj)))
  {
    NamesStay(s.w, Apply(s.w, Added(rk, obj)), s.creator, names);
    ProcsKeepNames(s, Apply(s.w, Added(rk, obj)), names);
  }

  // As long as no spec changes its name, every step keeps ownership by name, and no step renames
  // an object of a named kind.
  lemma NamesKept(s: Sys, ev: Event, names: Names)
    requires Base(s) && LedgerOk(s) && NamesOk(s, names) && Enabled(s, ev)
    requires NamesFixed(Next(s, ev).w, names)
    ensures NamesOk(Next(s, ev), names)
    ensures KeepsNames(s.w, Next(s, ev).w)
  {
    match ev
    case Act(pid, reply, eff) =>
      StepGrows(s, ev);
      NamesFixedBefore(s.w, Next(s, ev).w, names);
      ActKeepsNames(s, pid, reply, eff, names);
    case Edit(key, spec) => EditKeepsNames(s, key, spec, names);
    case Foreign(rk, obj) => ForeignKeepsNames(s, rk, obj, names);
    case Spawn(_, _) =>
    case Crash(_) =>
  }
}
