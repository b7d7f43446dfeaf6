/**
 Recovery: whatever has happened, the protocol can still reach agreement.

 The convergence results speak of stores on which reconciles run alone. Here those reconciles are
 steps of the protocol again, taken after any history of failed calls, crashes, lost ids, conflicts
 and edits, and beside the reconciles that the history has left unfinished.
 */
module Recovery {
  import opened Environment
  import opened Programs
  import opened Protocol
  import opened Ledger
  import opened Naming
  import opened Safety
  import opened Undisturbed
  import SC = ServiceConvergence
  import TC = TeamConvergence
  import HC = ScheduleConvergence
  import EC = EscalationConvergence

  lemma ReconcileIsARun(s: Sys, k: Key, o: Oracle) returns (evs: seq<Event>)
    requires FreshId(s.w, o.newId)
    ensures Valid(s, evs) && After(s, evs).w == Reconcile(s.w, k, o).0 && After(s, evs).procs == s.procs
  {
    var pid := SomeFreePid(s.procs.Keys);
    assert pid !in s.procs;
    var start := Spawn(pid, k);
    var rest := SoloIsARun(Next(s, start), pid, o);
    assert Next(s, start).procs - {pid} == s.procs;
    evs := [start] + rest;
    assert evs[1..] == rest;
  }

  // Reconciles that run one after the other are a run of the protocol.
  lemma {:induction false} RepeatedIsARun(s: Sys, k: Key, os: seq<Oracle>) returns (evs: seq<Event>)
    requires AllFresh(s.w, k, os)
    ensures Valid(s, evs) && After(s, evs).w == Repeated(s.w, k, os)
    decreases |os|
  {
    if os == [] {
      evs := [];
    } else {
      var first := ReconcileIsARun(s, k, os[0]);
      var rest := RepeatedIsARun(After(s, first), k, os[1..]);
      RunsCompose(s, first, rest);
      evs := first + rest;
    }
  }

  // New ids never run out.
  lemma {:induction false} SomeOracles(w: World, k: Key, n: nat) returns (os: seq<Oracle>)
    ensures |os| == n && AllFresh(w, k, os)
    decreases n
  {
    if n == 0 {
      os := [];
    } else {
      var id := SomeFreshId(w);
      var rest := SomeOracles(Reconcile(w, k, Oracle(id, [])).0, k, n - 1);
      os := [Oracle(id, [])] + rest;
      assert os[1..] == rest;
    }
  }

  /** No reconcile of the resource that runs alone from here on writes anything, here or remotely. */
  ghost predicate AtRest(w: World, k: Key) {
    forall o :: Quiet(w, Begin(k), o) && Reconcile(w, k, o).0 == w
  }

  // A team can be brought to agreement from any reachable state unless it is stuck there.
  lemma TeamRecovers(s0: Sys, past: seq<Event>, k: Key) returns (future: seq<Event>)
    requires Init(s0) && Valid(s0, past) && k.kind.Team? && k in After(s0, past).w.hist
    ensures Valid(After(s0, past), future)
    ensures var w, w' := After(s0, past).w, After(After(s0, past), future).w;
            && TC.Ready(w, k) && TC.Ready(w', k) && Now(w', k).spec == Now(w, k).spec
            && (!TC.Stuck(w, k) ==> TC.Rank(w', k) == 0 && AtRest(w', k))
  {
    Reachable(s0, past);
    var w := After(s0, past).w;
    var os := SomeOracles(w, k, 1);
    TC.TeamConvergence(w, k, os);
    future := RepeatedIsARun(After(s0, past), k, os);
  }

  // So can a service whose team resolves.
  lemma ServiceRecovers(s0: Sys, past: seq<Event>, k: Key) returns (future: seq<Event>)
    requires Init(s0) && Valid(s0, past) && SC.Ready(After(s0, past).w, k)
    ensures Valid(After(s0, past), future)
    ensures var w, w' := After(s0, past).w, After(After(s0, past), future).w;
            && SC.Ready(w', k) && Now(w', k).spec == Now(w, k).spec
            && (SC.Rank(w, k) != 1 || !SC.Stuck(SC.Svc(w, k), SC.Remote(w, k)) ==> SC.Rank(w', k) == 0 && AtRest(w', k))
  {
    var w := After(s0, past).w;
    var os := SomeOracles(w, k, 1);
    SC.ServiceConvergence(w, k, os);
    future := RepeatedIsARun(After(s0, past), k, os);
  }

  // So can a schedule whose rotations convert; it may take two reconciles.
  lemma ScheduleRecovers(s0: Sys, past: seq<Event>, k: Key) returns (future: seq<Event>)
    requires Init(s0) && Valid(s0, past) && HC.Ready(After(s0, past).w, k)
    ensures Valid(After(s0, past), future)
    ensures var w, w' := After(s0, past).w, After(After(s0, past), future).w;
            && HC.Ready(w', k) && Now(w', k).spec == Now(w, k).spec
            && (!HC.Stuck(w, k) ==> HC.Rank(w', k) == 0 && AtRest(w', k))
  {
    var w := After(s0, past).w;
    var os := SomeOracles(w, k, 2);
    HC.ScheduleConvergence(w, k, os);
    future := RepeatedIsARun(After(s0, past), k, os);
  }

  // An escalation whose references resolve is brought to agreement, as far as its fields are not stuck,
  // unless an update is held back by a name that is taken.
  lemma EscalationRecovers(s0: Sys, past: seq<Event>, k: Key) returns (future: seq<Event>)
    requires Init(s0) && Valid(s0, past) && EC.Ready(After(s0, past).w, k)
    ensures Valid(After(s0, past), future)
    ensures var w, w' := After(s0, past).w, After(After(s0, past), future).w;
            !EC.HeldBack(w, EC.Esc(w, k), Now(w, k).id) ==> EC.Agreed(w, k, EC.Esc(w, k), w')
  {
    var w := After(s0, past).w;
    var id := SomeFreshId(w);
    EC.EscalationAgreement(w, k, Oracle(id, []));
    future := ReconcileIsARun(After(s0, past), k, Oracle(id, []));
  }

  // ---- lost objects are found again ---------------------------------------------------

  /** The next reconcile of the resource looks for its remote object by name. */
  ghost predicate LooksByName(w: World, k: Key) {
    match k.kind
    case Team => TC.Ready(w, k)
    case Schedule => HC.Ready(w, k) && Now(w, k).id == ""
    case Escalation => EC.Ready(w, k) && Now(w, k).id == ""
    case _ => false
  }

  lemma BearerIsAdopted(w: World, k: Key, rk: RKey, o: Oracle)
    requires LooksByName(w, k) && rk.kind == k.kind && Bears(w, rk, SpecName(Now(w, k).spec))
    ensures var w' := Reconcile(w, k, o).0;
            k in w'.hist && w'.hist[k] != [] && Now(w', k).id == rk.id && w'.remote.Keys == w.remote.Keys
  {
    match k.kind
    case Team => TC.AdoptsByName(w, k, rk, o);
    case Schedule => HC.AdoptsByName(w, k, rk, o);
    case Escalation => EC.OrphanAdoption(w, k, rk, o);
  }

  lemma LostBears(s: Sys, names: Names, k: Key, rk: RKey)
    requires LedgerOk(s) && NamesOk(s, names) && Named(k.kind) && rk in LostFor(s, k)
    ensures rk.kind == k.kind && Bears(s.w, rk, names(k))
  {
    assert rk in BookOf(s).creator;
  }

  // With fixed names, an object that was created for a resource and whose id was lost is what the next
  // undisturbed reconcile puts into the status; nothing is created.
  lemma LostIsAdopted(s0: Sys, past: seq<Event>, names: Names, k: Key, rk: RKey, o: Oracle)
    requires Init(s0) && Valid(s0, past) && NamesFixed(After(s0, past).w, names)
    requires rk in LostFor(After(s0, past), k) && LooksByName(After(s0, past).w, k)
    ensures var w, w' := After(s0, past).w, Reconcile(After(s0, past).w, k, o).0;
            k in w'.hist && w'.hist[k] != [] && Now(w', k).id == rk.id && w'.remote.Keys == w.remote.Keys
  {
    ReachableNames(s0, past, names);
    var s := After(s0, past);
    LostBears(s, names, k, rk);
    assert SpecName(s.w.hist[k][|s.w.hist[k]| - 1].spec) == names(k);
    BearerIsAdopted(s.w, k, rk, o);
  }
}
