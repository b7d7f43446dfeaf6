/**
 What nothing prevents: runs that show how far the guarantees reach.

 Services can be duplicated without bound, agreement can become unreachable, an escalation in
 agreement can be rewritten for ever, and an unfinished reconcile can undo agreement. Each is shown
 by a run that continues an arbitrary one.
 */
module Limits {
  import opened Environment
  import opened Programs
  import opened Protocol
  import opened Ledger
  import opened Safety
  import opened Undisturbed
  import opened Recovery
  import SC = ServiceConvergence
  import HC = ScheduleConvergence
  import EC = EscalationConvergence

  // ---- duplicates ---------------------------------------------------------------------

  /** A service without an id whose team can be resolved. */
  ghost predicate ReadyToCreate(w: World, k: Key) {
    SC.Ready(w, k) && Now(w, k).id == ""
  }

  ghost function TeamId(w: World, k: Key): string
    requires SC.Ready(w, k)
  {
    TeamNow(w, k.namespace, SC.Svc(w, k).teamID, SC.Svc(w, k).teamRef).value
  }

  lemma TwoSteps(s: Sys, e1: Event, e2: Event)
    requires Enabled(s, e1) && Enabled(Next(s, e1), e2)
    ensures Valid(s, [e1, e2]) && After(s, [e1, e2]) == Next(Next(s, e1), e2)
  {
    assert [e1, e2][1..] == [e2] && [e2][1..] == [];
    assert Valid(Next(Next(s, e1), e2), []);
    assert Valid(Next(s, e1), [e2]) && After(Next(s, e1), [e2]) == Next(Next(s, e1), e2);
  }

  // A new reconcile reads its service as it is now.
  lemma ReadService(s: Sys, k: Key, pid: nat) returns (evs: seq<Event>)
    requires SC.Ready(s.w, k) && pid !in s.procs
    ensures !ServiceStart(SnapNow(s.w, k), SC.Svc(s.w, k)).Done?
    ensures Valid(s, evs)
    ensures After(s, evs) == s.(procs := s.procs[pid := ServiceStart(SnapNow(s.w, k), SC.Svc(s.w, k))])
  {
    var e1, e2 := Spawn(pid, k), Act(pid, GotCR(Now(s.w, k), |s.w.hist[k]| - 1), Nothing);
    assert RequestOf(Next(s, e1).procs[pid]) == GetCR(k);
    TwoSteps(s, e1, e2);
    evs := [e1, e2];
  }

  // It then reads the team that it refers to.
  lemma ReadTeam(s: Sys, k: Key, pid: nat, snap: Snap, svc: ServiceSpec, ref: string) returns (evs: seq<Event>)
    requires pid in s.procs && s.procs[pid] == OnService(snap, svc, SvcTeam(ref)) && snap.id == ""
    requires Key(Team, snap.key.namespace, ref) in s.w.hist && s.w.hist[Key(Team, snap.key.namespace, ref)] != []
    ensures Valid(s, evs)
    ensures var teamId := CurrentId(s.w, Key(Team, snap.key.namespace, ref));
            After(s, evs) == s.(procs := s.procs[pid := OnService(snap, svc, SvcCreate(teamId))])
  {
    var target := Key(Team, snap.key.namespace, ref);
    var ev := Act(pid, GotCR(Now(s.w, target), |s.w.hist[target]| - 1), Nothing);
    assert RequestOf(s.procs[pid]) == GetCR(target);
    evs := [ev];
    assert evs[1..] == [] && Valid(Next(s, ev), []);
    assert After(s, evs) == Next(s, ev);
  }

  // So it comes to its create, through a reference if need be.
  lemma ReachCreate(s: Sys, k: Key, pid: nat) returns (evs: seq<Event>)
    requires ReadyToCreate(s.w, k) && pid !in s.procs
    ensures Valid(s, evs)
    ensures var pc := OnService(SnapNow(s.w, k), SC.Svc(s.w, k), SvcCreate(TeamId(s.w, k)));
            After(s, evs) == s.(procs := s.procs[pid := pc])
  {
    var svc, snap := SC.Svc(s.w, k), SnapNow(s.w, k);
    evs := ReadService(s, k, pid);
    if svc.teamID == "" {
      var rest := ReadTeam(After(s, evs), k, pid, snap, svc, svc.teamRef.value);
      RunsCompose(s, evs, rest);
      evs := evs + rest;
    }
  }

  // A reconcile that dies between its create and the status write leaves an object behind.
  lemma CreateThenCrash(s: Sys, pid: nat, snap: Snap, svc: ServiceSpec, teamId: string, id: string)
    returns (evs: seq<Event>)
    requires pid in s.procs && s.procs[pid] == OnService(snap, svc, SvcCreate(teamId)) && snap.key.kind.Service?
    requires FreshId(s.w, id)
    ensures Valid(s, evs)
    ensures var rk, obj := RKey(Service, id), ServiceObj(RemoteService(svc.name, svc.description, svc.tags, teamId));
            After(s, evs) == Sys(Apply(s.w, Added(rk, obj)), s.procs - {pid}, s.creator[rk := snap.key], s.lost + {rk})
  {
    var rk, obj := RKey(Service, id), ServiceObj(RemoteService(svc.name, svc.description, svc.tags, teamId));
    var e1, e2 := Act(pid, Created(id), Added(rk, obj)), Crash(pid);
    assert RequestOf(s.procs[pid]) == Create(snap.key, obj);
    assert CreateApplied(s.w, snap.key, obj, e1.eff);
    var s1 := Next(s, e1);
    assert s1.procs[pid] == SaveNew(snap, id, Requeue(5)) && Pending(s1.procs[pid]) == {rk};
    assert s1.procs - {pid} == s.procs - {pid};
    TwoSteps(s, e1, e2);
    evs := [e1, e2];
  }

  lemma StaysReadyToCreate(w: World, k: Key, id: string, service: RemoteService)
    requires ReadyToCreate(w, k) && FreshId(w, id)
    ensures ReadyToCreate(Apply(w, Added(RKey(Service, id), ServiceObj(service))), k)
  {
    AddedStaysOk(w, RKey(Service, id), ServiceObj(service));
  }

  // One create whose id is lost: there is one object more, and the service is as it was.
  lemma LostCreate(s: Sys, k: Key, pid: nat, id: string) returns (evs: seq<Event>)
    requires ReadyToCreate(s.w, k) && pid !in s.procs && FreshId(s.w, id)
    ensures Valid(s, evs)
    ensures var svc := SC.Svc(s.w, k);
            var rk := RKey(Service, id);
            var obj := ServiceObj(RemoteService(svc.name, svc.description, svc.tags, TeamId(s.w, k)));
            After(s, evs) == Sys(Apply(s.w, Added(rk, obj)), s.procs, s.creator[rk := k], s.lost + {rk})
  {
    var first := ReachCreate(s, k, pid);
    var s1 := After(s, first);
    var second := CreateThenCrash(s1, pid, SnapNow(s.w, k), SC.Svc(s.w, k), TeamId(s.w, k), id);
    RunsCompose(s, first, second);
    evs := first + second;
    assert s1.procs - {pid} == s.procs;
  }

  /** The ledgers speak of remote objects only. */
  predicate Recorded(s: Sys) {
    s.creator.Keys <= s.w.remote.Keys && s.lost <= s.w.remote.Keys
  }

  lemma EntriesAreRecorded(s: Sys)
    requires LedgerOk(s)
    ensures Recorded(s)
  {
  }

  lemma LostCount(s: Sys, s': Sys, k: Key, rk: RKey)
    requires rk !in s.creator && rk !in s.lost
    requires s'.lost == s.lost + {rk} && s'.creator == s.creator[rk := k]
    ensures |LostFor(s', k)| == |LostFor(s, k)| + 1
  {
    assert LostFor(s', k) == LostFor(s, k) + {rk};
  }

  lemma LostOnce(s: Sys, k: Key) returns (evs: seq<Event>)
    requires Recorded(s) && ReadyToCreate(s.w, k)
    ensures Valid(s, evs) && Recorded(After(s, evs)) && ReadyToCreate(After(s, evs).w, k)
    ensures |LostFor(After(s, evs), k)| == |LostFor(s, k)| + 1
  {
    var pid := SomeFreePid(s.procs.Keys);
    var id := SomeFreshId(s.w);
    assert pid !in s.procs && RKey(Service, id) !in s.w.remote;
    evs := LostCreate(s, k, pid, id);
    var svc := SC.Svc(s.w, k);
    StaysReadyToCreate(s.w, k, id, RemoteService(svc.name, svc.description, svc.tags, TeamId(s.w, k)));
    LostCount(s, After(s, evs), k, RKey(Service, id));
  }

  lemma {:induction false} LostAgain(s: Sys, k: Key, n: nat) returns (evs: seq<Event>)
    requires Recorded(s) && ReadyToCreate(s.w, k)
    ensures Valid(s, evs) && |LostFor(After(s, evs), k)| == |LostFor(s, k)| + n
    decreases n
  {
    if n == 0 {
      evs := [];
    } else {
      var first := LostOnce(s, k);
      var rest := LostAgain(After(s, first), k, n - 1);
      RunsCompose(s, first, rest);
      evs := first + rest;
    }
  }

  // Services have no counterpart of NamedCreatedOnce: from any reachable state in which one is ready
  // to be created, crashes alone lead to any number of remote services that nothing will ever hold.
  lemma DuplicatesUnbounded(s0: Sys, past: seq<Event>, k: Key, n: nat) returns (future: seq<Event>)
    requires Init(s0) && Valid(s0, past) && ReadyToCreate(After(s0, past).w, k)
    ensures Valid(After(s0, past), future)
    ensures |LostFor(After(After(s0, past), future), k)| == |LostFor(After(s0, past), k)| + n
  {
    Reachable(s0, past);
    EntriesAreRecorded(After(s0, past));
    future := LostAgain(After(s0, past), k, n);
  }

  // ---- agreement out of reach ---------------------------------------------------------

  lemma ReconcileThenEdit(s: Sys, k: Key, o: Oracle, spec: Spec) returns (evs: seq<Event>)
    requires FreshId(s.w, o.newId) && SpecFits(k.kind, spec)
    ensures Valid(s, evs) && After(s, evs).w == Edited(Reconcile(s.w, k, o).0, k, spec)
  {
    var first := ReconcileIsARun(s, k, o);
    var s1, edit := After(s, first), Edit(k, spec);
    assert [edit][1..] == [] && Valid(Next(s1, edit), []);
    assert Valid(s1, [edit]) && After(s1, [edit]) == Next(s1, edit);
    RunsCompose(s, first, [edit]);
    evs := first + [edit];
  }

  // From any reachable state in which a service with a description is ready to be created, one
  // reconcile and one edit lead to a state from which no number of reconciles reaches agreement.
  lemma ServiceGetsStuck(s0: Sys, past: seq<Event>, k: Key) returns (future: seq<Event>)
    requires Init(s0) && Valid(s0, past) && ReadyToCreate(After(s0, past).w, k)
    requires SC.Svc(After(s0, past).w, k).description != ""
    ensures Valid(After(s0, past), future)
    ensures var w' := After(After(s0, past), future).w;
            SC.Ready(w', k) && forall os | os != [] && AllFresh(w', k, os) ::
              SC.Ready(Repeated(w', k, os), k) && SC.Rank(Repeated(w', k, os), k) == 1
  {
    var s := After(s0, past);
    var svc := SC.Svc(s.w, k);
    var id := SomeFreshId(s.w);
    var o := Oracle(id, []);
    SC.ClearedDescriptionSticks(s.w, k, o);
    future := ReconcileThenEdit(s, k, o, ServiceCR(svc.(description := "")));
    var w' := After(s, future).w;
    forall os | os != [] && AllFresh(w', k, os)
      ensures SC.Ready(Repeated(w', k, os), k) && SC.Rank(Repeated(w', k, os), k) == 1
    {
      SC.ServiceConvergence(w', k, os);
    }
  }

  // The same for a schedule whose name is free.
  lemma ScheduleGetsStuck(s0: Sys, past: seq<Event>, k: Key) returns (future: seq<Event>)
    requires Init(s0) && Valid(s0, past) && HC.Ready(After(s0, past).w, k) && Now(After(s0, past).w, k).id == ""
    requires HC.Sch(After(s0, past).w, k).description != ""
    requires !NameTaken(After(s0, past).w, Schedule, HC.Sch(After(s0, past).w, k).name)
    ensures Valid(After(s0, past), future)
    ensures var w' := After(After(s0, past), future).w;
            HC.Ready(w', k) && forall os | os != [] && AllFresh(w', k, os) ::
              HC.Ready(Repeated(w', k, os), k) && HC.Rank(Repeated(w', k, os), k) == 1
  {
    var s := After(s0, past);
    var c := HC.Sch(s.w, k);
    var id := SomeFreshId(s.w);
    var o := Oracle(id, []);
    HC.ClearedDescriptionSticks(s.w, k, o);
    future := ReconcileThenEdit(s, k, o, ScheduleCR(c.(description := "")));
    var w' := After(s, future).w;
    forall os | os != [] && AllFresh(w', k, os)
      ensures HC.Ready(Repeated(w', k, os), k) && HC.Rank(Repeated(w', k, os), k) == 1
    {
      HC.ScheduleConvergence(w', k, os);
    }
  }

  /** No reconcile is quiet as long as the remote shows recipient `i` under a name that is not its id. */
  ghost predicate KeepsWriting(w: World, k: Key, i: nat)
    requires EC.Ready(w, k)
  {
    && i < |EC.Esc(w, k).rules|
    && var rid := EC.Esc(w, k).rules[i].recipient.id;
       forall os, o | AllFresh(w, k, os) && (forall p :: p in os ==> Shown(p, i) != rid) ::
         !Quiet(Repeated(w, k, os), Begin(k), o)
  }

  // From any reachable state in which an escalation with a rule is ready to be created, one reconcile
  // may lead to a state that agrees with the spec and yet is rewritten by every later reconcile that
  // the remote answers with the same sort of name.
  lemma EscalationKeepsWriting(s0: Sys, past: seq<Event>, k: Key, i: nat) returns (future: seq<Event>)
    requires Init(s0) && Valid(s0, past) && EC.Ready(After(s0, past).w, k) && Now(After(s0, past).w, k).id == ""
    requires i < |EC.Esc(After(s0, past).w, k).rules|
    requires !NameTaken(After(s0, past).w, Escalation, EC.Esc(After(s0, past).w, k).name)
    ensures Valid(After(s0, past), future)
    ensures var w' := After(After(s0, past), future).w;
            EC.Ready(w', k) && EC.InAgreement(w', k) && KeepsWriting(w', k, i)
  {
    var s := After(s0, past);
    var rid := EC.Esc(s.w, k).rules[i].recipient.id;
    var id := SomeFreshId(s.w);
    var o := Oracle(id, if rid != "" then [] else seq(i + 1, _ => "name"));
    EC.AgreedYetRewritten(s.w, k, o, i, o);
    future := ReconcileIsARun(s, k, o);
    var w' := After(s, future).w;
    forall os, p | AllFresh(w', k, os) && forall q :: q in os ==> Shown(q, i) != rid
      ensures !Quiet(Repeated(w', k, os), Begin(k), p)
    {
      EC.NamedRecipientNeverQuiet(w', k, os, i, p);
    }
  }

  // ---- agreement undone ---------------------------------------------------------------

  // A reconcile that finds its service to differ comes to its update.
  lemma FetchService(s: Sys, pid: nat, snap: Snap, svc: ServiceSpec) returns (evs: seq<Event>)
    requires pid in s.procs && s.procs[pid] == OnService(snap, svc, SvcGet)
    requires RKey(Service, snap.id) in s.w.remote && s.w.remote[RKey(Service, snap.id)].ServiceObj?
    requires ServiceDiffers(svc, s.w.remote[RKey(Service, snap.id)].service)
    ensures Valid(s, evs) && After(s, evs) == s.(procs := s.procs[pid := OnService(snap, svc, SvcUpdate)])
  {
    var ev := Act(pid, GotObj(snap.id, s.w.remote[RKey(Service, snap.id)]), Nothing);
    assert RequestOf(s.procs[pid]) == GetById(RKey(Service, snap.id));
    evs := [ev];
    assert evs[1..] == [] && Valid(Next(s, ev), []);
    assert After(s, evs) == Next(s, ev);
  }

  lemma ReachUpdate(s: Sys, k: Key, pid: nat) returns (evs: seq<Event>)
    requires SC.Ready(s.w, k) && SC.Rank(s.w, k) == 1 && SC.Svc(s.w, k).teamID != "" && pid !in s.procs
    ensures Valid(s, evs)
    ensures After(s, evs) == s.(procs := s.procs[pid := OnService(SnapNow(s.w, k), SC.Svc(s.w, k), SvcUpdate)])
  {
    var first := ReadService(s, k, pid);
    assert SC.Target(s.w, k) in s.w.remote;
    var second := FetchService(After(s, first), pid, SnapNow(s.w, k), SC.Svc(s.w, k));
    RunsCompose(s, first, second);
    evs := first + second;
  }

  lemma OtherNameDiffers(w: World, k: Key, service: RemoteService)
    requires SC.Ready(w, k) && Now(w, k).id != "" && service.name != SC.Svc(w, k).name
    ensures var w' := Apply(w, Patched(SC.Target(w, k), ServiceObj(service)));
            SC.Ready(w', k) && SC.Rank(w', k) == 1
  {
    PatchedStaysOk(w, SC.Target(w, k), ServiceObj(service));
  }

  lemma UpdateIsApplied(w: World, id: string, svc: ServiceSpec)
    requires RKey(Service, id) in w.remote && w.remote[RKey(Service, id)].ServiceObj?
    ensures var rk, now := RKey(Service, id), SC.Brought(svc, w.remote[RKey(Service, id)].service);
            UpdateApplied(w, rk, ServiceObj(RemoteService(svc.name, svc.description, svc.tags, "")),
                          Patched(rk, ServiceObj(now)))
  {
  }

  // What an update of an older spec does to a service that a newer one has renamed.
  lemma OldUpdate(s: Sys, pid: nat, k: Key, snap: Snap, svc: ServiceSpec) returns (ev: Event)
    requires SC.Ready(s.w, k) && pid in s.procs && s.procs[pid] == OnService(snap, svc, SvcUpdate)
    requires snap.id == Now(s.w, k).id && snap.id != "" && svc.name != "" && SC.Svc(s.w, k).name != svc.name
    ensures Enabled(s, ev) && !ev.Edit? && SC.Ready(Next(s, ev).w, k) && SC.Rank(Next(s, ev).w, k) == 1
  {
    var rk, now := RKey(Service, snap.id), SC.Brought(svc, SC.Remote(s.w, k));
    ev := Act(pid, Updated, Patched(rk, ServiceObj(now)));
    assert RequestOf(s.procs[pid]) == Update(rk, ServiceObj(RemoteService(svc.name, svc.description, svc.tags, "")));
    UpdateIsApplied(s.w, snap.id, svc);
    assert Enabled(s, ev);
    OtherNameDiffers(s.w, k, now);
  }

  lemma EditThenReconcile(s: Sys, k: Key, spec: Spec, o: Oracle) returns (evs: seq<Event>)
    requires FreshId(s.w, o.newId) && SpecFits(k.kind, spec)
    ensures Valid(s, evs) && After(s, evs).procs == s.procs
    ensures After(s, evs).w == Reconcile(Edited(s.w, k, spec), k, o).0
  {
    var edit := Edit(k, spec);
    var rest := ReconcileIsARun(Next(s, edit), k, o);
    evs := [edit] + rest;
    assert evs[1..] == rest;
  }

  // A reconcile after the new name brings the service to agreement under its old id.
  lemma RenamedAgrees(w: World, k: Key, to: ServiceSpec, o: Oracle)
    requires SC.Ready(w, k) && Now(w, k).id != "" && FreshId(w, o.newId) && to.teamID != "" && to.name != ""
    requires !SC.Stuck(SC.Svc(w, k), SC.Remote(w, k)) && to == SC.Svc(w, k).(name := to.name)
    ensures var w' := Reconcile(Edited(w, k, ServiceCR(to)), k, o).0;
            SC.Ready(w', k) && SC.Rank(w', k) == 0 && Now(w', k) == CR(ServiceCR(to), Now(w, k).id)
  {
    var edited := Edited(w, k, ServiceCR(to));
    AppendedStaysOk(w, k, CR(ServiceCR(to), Now(w, k).id));
    assert SC.Ready(edited, k) && SC.Remote(edited, k) == SC.Remote(w, k);
    if SC.Rank(edited, k) == 1 {
      SC.UpdateSettlesOrSticks(edited, k, o);
    } else {
      SC.AgreementIsQuiet(edited, k, o);
    }
  }

  // A reconcile waits before its update while another one works from the spec that was edited meanwhile.
  lemma LeftBehind(s: Sys, k: Key, to: ServiceSpec, o: Oracle) returns (evs: seq<Event>, pid: nat)
    requires SC.Ready(s.w, k) && SC.Rank(s.w, k) == 1 && SC.Svc(s.w, k).teamID != "" && FreshId(s.w, o.newId)
    ensures Valid(s, evs) && After(s, evs).w == Reconcile(Edited(s.w, k, ServiceCR(to)), k, o).0
    ensures pid in After(s, evs).procs
    ensures After(s, evs).procs[pid] == OnService(SnapNow(s.w, k), SC.Svc(s.w, k), SvcUpdate)
  {
    pid := SomeFreePid(s.procs.Keys);
    assert pid !in s.procs;
    var first := ReachUpdate(s, k, pid);
    var second := EditThenReconcile(After(s, first), k, ServiceCR(to), o);
    RunsCompose(s, first, second);
    evs := first + second;
  }

  lemma UndoneFrom(s: Sys, k: Key, name: string) returns (evs: seq<Event>, ev: Event)
    requires SC.Ready(s.w, k) && SC.Rank(s.w, k) == 1 && !SC.Stuck(SC.Svc(s.w, k), SC.Remote(s.w, k))
    requires SC.Svc(s.w, k).teamID != "" && SC.Svc(s.w, k).name != "" && name != "" && name != SC.Svc(s.w, k).name
    ensures Valid(s, evs) && Enabled(After(s, evs), ev) && !ev.Edit?
    ensures SC.Ready(After(s, evs).w, k) && SC.Rank(After(s, evs).w, k) == 0
    ensures SC.Ready(Next(After(s, evs), ev).w, k) && SC.Rank(Next(After(s, evs), ev).w, k) == 1
  {
    var svc := SC.Svc(s.w, k);
    var to := svc.(name := name);
    var id := SomeFreshId(s.w);
    var run, pid := LeftBehind(s, k, to, Oracle(id, []));
    evs := run;
    RenamedAgrees(s.w, k, to, Oracle(id, []));
    ev := OldUpdate(After(s, evs), pid, k, SnapNow(s.w, k), svc);
  }

  // Agreement can be undone without any edit by a reconcile that still holds an older spec: in every
  // reachable state in which a service differs from its spec, such a reconcile may wait before its
  // update while the name is edited and another reconcile reaches agreement.
  lemma LeftoverUndoes(s0: Sys, past: seq<Event>, k: Key, name: string) returns (future: seq<Event>, ev: Event)
    requires Init(s0) && Valid(s0, past) && SC.Ready(After(s0, past).w, k) && SC.Rank(After(s0, past).w, k) == 1
    requires !SC.Stuck(SC.Svc(After(s0, past).w, k), SC.Remote(After(s0, past).w, k))
    requires var svc := SC.Svc(After(s0, past).w, k);
             svc.teamID != "" && svc.name != "" && name != "" && name != svc.name
    ensures Valid(After(s0, past), future) && Enabled(After(After(s0, past), future), ev) && !ev.Edit?
    ensures var s := After(After(s0, past), future);
            && SC.Ready(s.w, k) && SC.Rank(s.w, k) == 0
            && SC.Ready(Next(s, ev).w, k) && SC.Rank(Next(s, ev).w, k) == 1
  {
    future, ev := UndoneFrom(After(s0, past), k, name);
  }
}
