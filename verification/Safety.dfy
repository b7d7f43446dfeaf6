/** Safety over whole runs: any number of reconciles, failed calls, stale reads, crashes and edits. */
module Safety {
  import opened Environment
  import opened Programs
  import opened Protocol
  import opened Invariants
  import opened Ledger
  import opened Naming
  import Escalations

  ghost predicate Inv(s: Sys) {
    Base(s) && IdsKept(s.w) && LedgerOk(s)
  }

  lemma InitInv(s: Sys)
    requires Init(s)
    ensures Inv(s)
  {
  }

  lemma InvKept(s: Sys, ev: Event)
    requires Inv(s) && Enabled(s, ev)
    ensures Inv(Next(s, ev))
  {
    BaseKept(s, ev);
    IdsKeptByStep(s, ev);
    LedgerKept(s, ev);
  }

  lemma {:induction false} RunInv(s: Sys, evs: seq<Event>)
    requires Inv(s) && Valid(s, evs)
    ensures Inv(After(s, evs))
    decreases |evs|
  {
    if evs != [] {
      InvKept(s, evs[0]);
      RunInv(Next(s, evs[0]), evs[1..]);
    }
  }

  lemma Reachable(s0: Sys, evs: seq<Event>)
    requires Init(s0) && Valid(s0, evs)
    ensures Inv(After(s0, evs))
  {
    InitInv(s0);
    RunInv(s0, evs);
  }

  lemma {:induction false} RunNames(s: Sys, evs: seq<Event>, names: Names)
    requires Inv(s) && NamesOk(s, names) && Valid(s, evs) && NamesFixed(After(s, evs).w, names)
    ensures NamesOk(After(s, evs), names)
    decreases |evs|
  {
    if evs != [] {
      InvKept(s, evs[0]);
      RunGrows(Next(s, evs[0]), evs[1..]);
      NamesFixedBefore(Next(s, evs[0]).w, After(s, evs).w, names);
      NamesKept(s, evs[0], names);
      RunNames(Next(s, evs[0]), evs[1..], names);
    }
  }

  lemma ReachableNames(s0: Sys, evs: seq<Event>, names: Names)
    requires Init(s0) && Valid(s0, evs) && NamesFixed(After(s0, evs).w, names)
    ensures Inv(After(s0, evs)) && NamesOk(After(s0, evs), names)
  {
    Reachable(s0, evs);
    InitInv(s0);
    RunNames(s0, evs, names);
  }

  // ---- references ---------------------------------------------------------------------

  /** The remote objects that a pending request names through a reference of its spec. */
  function RefIds(pc: PC): set<RKey> {
    match pc
    case OnService(_, svc, SvcCreate(teamId)) => if svc.teamID == "" then {RKey(Team, teamId)} else {}
    case OnEscalation(_, e, EscUpdate(teamId, acc, _)) => EscalationRefIds(e, teamId, acc)
    case OnEscalation(_, e, EscCreate(teamId, acc)) => EscalationRefIds(e, teamId, acc)
    case OnRule(_, _, RuleList(service)) => {RKey(Service, service)}
    case OnRule(_, _, RuleUpdate(service)) => {RKey(Service, service)}
    case OnRule(_, _, RuleCreate(service)) => {RKey(Service, service)}
    case _ => {}
  }

  function EscalationRefIds(e: EscalationSpec, teamId: string, acc: seq<Escalations.RuleRequest>): set<RKey> {
    (if e.teamID == "" then {RKey(Team, teamId)} else {})
    + (set i | 0 <= i < |acc| && i < |e.rules| && Escalations.SourceOf(e.rules[i].recipient).FromTeam?
         :: RKey(Team, acc[i].recipient.id))
    + (set i | 0 <= i < |acc| && i < |e.rules| && Escalations.SourceOf(e.rules[i].recipient).FromSchedule?
         :: RKey(Schedule, acc[i].recipient.id))
  }

  lemma RefIdsExist(w: World, pc: PC, rk: RKey)
    requires PcOk(w, pc) && rk in RefIds(pc) && rk.id != ""
    ensures rk in w.remote
  {
  }

  // In every reachable state, even after stale reads, every non-empty status id of any version and
  // every non-empty id that a pending request takes from a reference names a remote object.
  lemma ReferenceIntegrity(s0: Sys, evs: seq<Event>)
    requires Init(s0) && Valid(s0, evs)
    ensures var s := After(s0, evs);
            && (forall k, v :: k in s.w.hist && 0 <= v < |s.w.hist[k]| && s.w.hist[k][v].id != "" ==>
                  RKey(k.kind, s.w.hist[k][v].id) in s.w.remote)
            && (forall pid, rk :: pid in s.procs && rk in RefIds(s.procs[pid]) && rk.id != "" ==> rk in s.w.remote)
  {
    Reachable(s0, evs);
    var s := After(s0, evs);
    forall pid, rk | pid in s.procs && rk in RefIds(s.procs[pid]) && rk.id != ""
      ensures rk in s.w.remote
    {
      RefIdsExist(s.w, s.procs[pid], rk);
    }
  }

  // ---- permanence ---------------------------------------------------------------------

  // Once a status holds an id it always holds one; for services, schedules and escalations the same one.
  lemma IdPermanence(s0: Sys, past: seq<Event>, future: seq<Event>, k: Key)
    requires Init(s0) && Valid(s0, past) && Valid(After(s0, past), future)
    requires CurrentId(After(s0, past).w, k) != ""
    ensures var before, now := CurrentId(After(s0, past).w, k), CurrentId(After(After(s0, past), future).w, k);
            now != "" && (SetOnce(k.kind) ==> now == before)
  {
    Reachable(s0, past);
    var s := After(s0, past);
    RunInv(s, future);
    RunGrows(s, future);
    var s' := After(s, future);
    var v := |s.w.hist[k]| - 1;
    assert s'.w.hist[k][v] == s.w.hist[k][v];
  }

  // Every update goes to the object that the reconcile's own version of the resource holds.
  lemma UpdateTarget(w: World, pc: PC)
    requires !pc.Done? && PcOk(w, pc) && RequestOf(pc).Update?
    ensures pc.s.id != "" && Held(w, pc.s) && pc.s.key == KeyOf(pc)
    ensures RequestOf(pc).rk == RKey(KeyOf(pc).kind, pc.s.id)
  {
  }

  // For kinds whose id is set once that is the id the status holds now, however stale the version.
  lemma UpdatesTargetCurrentId(s0: Sys, evs: seq<Event>, pid: nat)
    requires Init(s0) && Valid(s0, evs) && pid in After(s0, evs).procs
    requires RequestOf(After(s0, evs).procs[pid]).Update?
    ensures var s, pc := After(s0, evs), After(s0, evs).procs[pid];
            SetOnce(KeyOf(pc).kind) ==> RequestOf(pc).rk == RKey(KeyOf(pc).kind, CurrentId(s.w, KeyOf(pc)))
  {
    Reachable(s0, evs);
    var s, pc := After(s0, evs), After(s0, evs).procs[pid];
    UpdateTarget(s.w, pc);
    var last := |s.w.hist[KeyOf(pc)]| - 1;
    assert s.w.hist[KeyOf(pc)][pc.s.ver].id != "" && pc.s.ver <= last;
  }

  // ---- ownership ----------------------------------------------------------------------

  // No two services, and no two incident rules, ever hold the same remote id.
  lemma OwnershipByCreation(s0: Sys, evs: seq<Event>, k1: Key, k2: Key, id: string)
    requires Init(s0) && Valid(s0, evs) && k1.kind == k2.kind && Unnamed(k1.kind)
    requires (k1, id) in HeldIds(After(s0, evs).w) && (k2, id) in HeldIds(After(s0, evs).w)
    ensures k1 == k2
  {
    Reachable(s0, evs);
    var b := BookOf(After(s0, evs));
    assert (k1, id) in b.held && (k2, id) in b.held;
  }

  // Teams, schedules and escalations with fixed, different names never hold the same remote id.
  lemma OwnershipByName(s0: Sys, evs: seq<Event>, names: Names, k1: Key, k2: Key, id: string)
    requires Init(s0) && Valid(s0, evs) && NamesFixed(After(s0, evs).w, names)
    requires k1.kind == k2.kind && Named(k1.kind)
    requires (k1, id) in HeldIds(After(s0, evs).w) && (k2, id) in HeldIds(After(s0, evs).w)
    ensures names(k1) == names(k2)
  {
    ReachableNames(s0, evs, names);
    HeldBears(After(s0, evs), names, k1, id);
    HeldBears(After(s0, evs), names, k2, id);
  }

  lemma HeldBears(s: Sys, names: Names, k: Key, id: string)
    requires NamesOk(s, names) && Named(k.kind) && (k, id) in HeldIds(s.w)
    ensures Bears(s.w, RKey(k.kind, id), names(k))
  {
  }

  /** Two resources that cannot own the same object: by creation, or by name. */
  ghost predicate Separate(w: World, names: Names, k1: Key, k2: Key) {
    k1 != k2 && (Unnamed(k1.kind) || k1.kind != k2.kind || (NamesFixed(w, names) && names(k1) != names(k2)))
  }

  lemma SeparateHoldsApart(s0: Sys, evs: seq<Event>, names: Names, k: Key, k': Key, id: string)
    requires Init(s0) && Valid(s0, evs) && Separate(After(s0, evs).w, names, k, k') && k.kind == k'.kind
    requires (k, id) in HeldIds(After(s0, evs).w)
    ensures (k', id) !in HeldIds(After(s0, evs).w)
  {
    if (k', id) in HeldIds(After(s0, evs).w) {
      if Unnamed(k.kind) {
        OwnershipByCreation(s0, evs, k, k', id);
      } else {
        OwnershipByName(s0, evs, names, k, k', id);
      }
    }
  }

  // A call adds a new object, or changes the one that the reconcile's own resource holds.
  lemma CallHitsOwn(w: World, pc: PC, reply: Reply, eff: Effect)
    requires !pc.Done? && PcOk(w, pc) && Handles(w, RequestOf(pc), reply, eff) && StoresOk(w)
    ensures eff.Added? ==> eff.rk !in w.remote
    ensures eff.Patched? ==> eff.rk.kind == KeyOf(pc).kind && (KeyOf(pc), eff.rk.id) in HeldIds(w)
  {
  }

  // No call of one resource's reconcile changes the remote object that a separate resource holds.
  lemma NonInterference(s0: Sys, evs: seq<Event>, names: Names, pid: nat, reply: Reply, eff: Effect, k: Key, id: string)
    requires Init(s0) && Valid(s0, evs) && Enabled(After(s0, evs), Act(pid, reply, eff))
    requires (k, id) in HeldIds(After(s0, evs).w)
    requires Separate(After(s0, evs).w, names, k, KeyOf(After(s0, evs).procs[pid]))
    ensures var w := After(s0, evs).w;
            && RKey(k.kind, id) in w.remote
            && RKey(k.kind, id) in Apply(w, eff).remote
            && Apply(w, eff).remote[RKey(k.kind, id)] == w.remote[RKey(k.kind, id)]
  {
    Reachable(s0, evs);
    var s, own := After(s0, evs), KeyOf(After(s0, evs).procs[pid]);
    CallHitsOwn(s.w, s.procs[pid], reply, eff);
    if own.kind == k.kind {
      SeparateHoldsApart(s0, evs, names, k, own, id);
    }
    assert eff.Patched? ==> eff.rk != RKey(k.kind, id);
  }

  // ---- conservation of creates --------------------------------------------------------

  ghost function CreatedFor(s: Sys, k: Key): set<RKey> {
    set rk | rk in s.creator && s.creator[rk] == k
  }

  ghost function LostFor(s: Sys, k: Key): set<RKey> {
    set rk | rk in s.lost && rk in s.creator && s.creator[rk] == k
  }

  /** The reconciles of a resource that have created an object and not yet written its id. */
  ghost function WaitingFor(s: Sys, k: Key): set<nat> {
    set pid | pid in s.procs && s.procs[pid].SaveNew? && s.procs[pid].s.key == k
  }

  ghost function AwaitedFor(s: Sys, k: Key): set<RKey> {
    set pid | pid in WaitingFor(s, k) :: Awaited(s.procs[pid])
  }

  /** What some version of the status of a resource holds. */
  ghost function HeldFor(s: Sys, k: Key): set<RKey> {
    set e | e in HeldIds(s.w) && e.0 == k :: RKey(k.kind, e.1)
  }

  // As many ids are awaited as there are reconciles waiting.
  lemma {:induction false} AwaitedCount(s: Sys, pids: set<nat>)
    requires LedgerOk(s)
    requires forall p :: p in pids ==> p in s.procs && s.procs[p].SaveNew?
    ensures |set p | p in pids :: Awaited(s.procs[p])| == |pids|
    decreases |pids|
  {
    if pids != {} {
      var p :| p in pids;
      var rest := pids - {p};
      AwaitedCount(s, rest);
      var all, some := set q | q in pids :: Awaited(s.procs[q]), set q | q in rest :: Awaited(s.procs[q]);
      assert all == some + {Awaited(s.procs[p])};
      forall q | q in rest ensures Awaited(s.procs[q]) != Awaited(s.procs[p]) {
        var a := BookOf(s).awaits;
        assert a[q] == Awaited(s.procs[q]) && a[p] == Awaited(s.procs[p]);
      }
    }
  }

  lemma HeldWasCreated(s: Sys, k: Key, rk: RKey)
    requires LedgerOk(s) && Unnamed(k.kind)
    ensures rk in HeldFor(s, k) <==> rk in CreatedFor(s, k) && IsHeld(BookOf(s), rk)
  {
    assert rk in CreatedFor(s, k) ==> rk in BookOf(s).creator;
    if rk in HeldFor(s, k) {
      assert (k, rk.id) in BookOf(s).held;
    }
    if rk in CreatedFor(s, k) && IsHeld(BookOf(s), rk) {
      assert (k, rk.id) in HeldIds(s.w) && (k, rk.id).0 == k;
    }
  }

  lemma AwaitedWasCreated(s: Sys, k: Key, rk: RKey)
    requires LedgerOk(s)
    ensures rk in AwaitedFor(s, k) <==> rk in CreatedFor(s, k) && rk in Awaits(s.procs).Values
  {
    if rk in AwaitedFor(s, k) {
      var pid :| pid in WaitingFor(s, k) && Awaited(s.procs[pid]) == rk;
      assert Awaits(s.procs)[pid] == rk;
    }
    if rk in CreatedFor(s, k) && rk in Awaits(s.procs).Values {
      var pid :| pid in Awaits(s.procs) && Awaits(s.procs)[pid] == rk;
      assert pid in WaitingFor(s, k);
    }
  }

  /** The three columns of a book are disjoint and complete for one entry of a service or a rule. */
  lemma OneColumn(b: Book, rk: RKey)
    requires BookOk(b) && rk in b.creator && Unnamed(rk.kind)
    ensures IsHeld(b, rk) || rk in b.lost || rk in b.awaits.Values
    ensures !(IsHeld(b, rk) && rk in b.lost) && !(IsHeld(b, rk) && rk in b.awaits.Values)
    ensures !(rk in b.lost && rk in b.awaits.Values)
  {
  }

  lemma CreatesSplit(s: Sys, k: Key)
    requires LedgerOk(s) && Unnamed(k.kind)
    ensures CreatedFor(s, k) == HeldFor(s, k) + LostFor(s, k) + AwaitedFor(s, k)
    ensures HeldFor(s, k) !! LostFor(s, k) !! AwaitedFor(s, k)
  {
    forall rk
      ensures rk in HeldFor(s, k) <==> rk in CreatedFor(s, k) && IsHeld(BookOf(s), rk)
      ensures rk in AwaitedFor(s, k) <==> rk in CreatedFor(s, k) && rk in BookOf(s).awaits.Values
      ensures rk in LostFor(s, k) <==> rk in CreatedFor(s, k) && rk in BookOf(s).lost
    {
      HeldWasCreated(s, k, rk);
      AwaitedWasCreated(s, k, rk);
    }
    forall rk | rk in CreatedFor(s, k)
      ensures IsHeld(BookOf(s), rk) || rk in BookOf(s).lost || rk in BookOf(s).awaits.Values
      ensures !(IsHeld(BookOf(s), rk) && rk in BookOf(s).lost)
      ensures !(IsHeld(BookOf(s), rk) && rk in BookOf(s).awaits.Values)
      ensures !(rk in BookOf(s).lost && rk in BookOf(s).awaits.Values)
    {
      assert rk in BookOf(s).creator && rk.kind == k.kind;
      OneColumn(BookOf(s), rk);
    }
  }

  // Every version of a service's status holds the current id or none.
  lemma ServiceHoldsCurrent(s: Sys, k: Key)
    requires Inv(s) && k.kind.Service?
    ensures HeldFor(s, k) == if CurrentId(s.w, k) != "" then {RKey(k.kind, CurrentId(s.w, k))} else {}
  {
    forall e | e in HeldIds(s.w) && e.0 == k ensures e.1 == CurrentId(s.w, k) {
      var v :| 0 <= v < |s.w.hist[k]| && s.w.hist[k][v].id == e.1;
      assert s.w.hist[k][|s.w.hist[k]| - 1].id == e.1;
    }
    if CurrentId(s.w, k) != "" {
      var e := (k, CurrentId(s.w, k));
      assert s.w.hist[k][|s.w.hist[k]| - 1].id == e.1;
      assert e in HeldIds(s.w) && e.0 == k;
    }
  }

  // In every reachable state, the remote objects created for a service or an incident rule are those
  // whose id some version of its status held, those whose id was lost, and one for each reconcile that
  // is about to write its id.
  lemma ConservationOfCreates(s0: Sys, evs: seq<Event>, k: Key)
    requires Init(s0) && Valid(s0, evs) && Unnamed(k.kind)
    ensures var s := After(s0, evs);
            && |CreatedFor(s, k)| == |HeldFor(s, k)| + |LostFor(s, k)| + |WaitingFor(s, k)|
            && (k.kind.Service? ==> |HeldFor(s, k)| == if CurrentId(s.w, k) != "" then 1 else 0)
            && CreatedFor(s, k) <= s.w.remote.Keys
  {
    Reachable(s0, evs);
    var s := After(s0, evs);
    CreatesSplit(s, k);
    AwaitedCount(s, WaitingFor(s, k));
    if k.kind.Service? {
      ServiceHoldsCurrent(s, k);
    }
    assert CreatedFor(s, k) <= BookOf(s).known;
  }

  // While no reconcile is about to write an id, a service has at most one remote object exactly when
  // no created id was lost, or one was and the status holds none.
  lemma NoLossNoDuplicate(s0: Sys, evs: seq<Event>, k: Key)
    requires Init(s0) && Valid(s0, evs) && k.kind.Service?
    requires WaitingFor(After(s0, evs), k) == {}
    ensures var s := After(s0, evs);
            |CreatedFor(s, k)| <= 1 <==>
            LostFor(s, k) == {} || (|LostFor(s, k)| == 1 && CurrentId(s.w, k) == "")
  {
    ConservationOfCreates(s0, evs, k);
  }

  // With a fixed name, a team, schedule or escalation is created at most once, whatever is lost.
  lemma NamedCreatedOnce(s0: Sys, evs: seq<Event>, names: Names, k: Key)
    requires Init(s0) && Valid(s0, evs) && NamesFixed(After(s0, evs).w, names) && Named(k.kind)
    ensures |CreatedFor(After(s0, evs), k)| <= 1
  {
    ReachableNames(s0, evs, names);
    var s := After(s0, evs);
    var created := CreatedFor(s, k);
    if created != {} {
      var rk :| rk in created;
      forall r | r in created ensures r == rk {
        assert r in BookOf(s).creator && rk in BookOf(s).creator;
        assert Bears(s.w, r, names(k)) && Bears(s.w, rk, names(k));
      }
      assert created == {rk};
    }
  }

  // Two ids that versions of a status hold are one, where the kind has names.
  lemma OneBearer(s: Sys, names: Names, k: Key, v: nat, v': nat)
    requires Inv(s) && NamesOk(s, names) && Named(k.kind) && k in s.w.hist && v < |s.w.hist[k]| && v' < |s.w.hist[k]|
    requires s.w.hist[k][v].id != "" && s.w.hist[k][v'].id != ""
    ensures s.w.hist[k][v].id == s.w.hist[k][v'].id
  {
    assert Bears(s.w, RKey(k.kind, s.w.hist[k][v].id), names(k));
    assert Bears(s.w, RKey(k.kind, s.w.hist[k][v'].id), names(k));
  }

  // With a fixed name, the id of a team is as permanent as the others.
  lemma TeamIdPermanence(s0: Sys, past: seq<Event>, future: seq<Event>, names: Names, k: Key)
    requires Init(s0) && Valid(s0, past) && Valid(After(s0, past), future) && k.kind.Team?
    requires NamesFixed(After(After(s0, past), future).w, names)
    requires CurrentId(After(s0, past).w, k) != ""
    ensures CurrentId(After(After(s0, past), future).w, k) == CurrentId(After(s0, past).w, k)
  {
    IdPermanence(s0, past, future, k);
    var s := After(s0, past);
    var s' := After(s, future);
    RunGrows(s, future);
    NamesFixedBefore(s.w, s'.w, names);
    ReachableNames(s0, past, names);
    RunNames(s, future, names);
    RunInv(s, future);
    var v := |s.w.hist[k]| - 1;
    assert s'.w.hist[k][v] == s.w.hist[k][v];
    OneBearer(s', names, k, v, |s'.w.hist[k]| - 1);
  }
}
