/** Agreement stays, whatever else goes on. */
module Stability {
  import opened Environment
  import opened Programs
  import opened Protocol
  import opened Naming
  import opened Safety
  import opened Agreement
  import opened Interference
  import opened Undisturbed
  import opened Recovery
  import SC = ServiceConvergence
  import TC = TeamConvergence
  import HC = ScheduleConvergence

  // ---- agreement stays ----------------------------------------------------------------

  /** The status holds the id of an object that agrees with the spec. */
  ghost predicate Settled(w: World, k: Key, spec: Spec) {
    && k in w.hist && w.hist[k] != [] && Now(w, k).spec == spec && Now(w, k).id != ""
    && RKey(k.kind, Now(w, k).id) in w.remote && Agrees(spec, w.remote[RKey(k.kind, Now(w, k).id)])
  }

  lemma CurrentIsMine(s: Sys, names: Names, k: Key)
    requires Sound(s, names, k) && CurrentId(s.w, k) != ""
    ensures Mine(s, names, k, RKey(k.kind, CurrentId(s.w, k)))
  {
    assert s.w.hist[k][|s.w.hist[k]| - 1].id == CurrentId(s.w, k);
    HeldIsMine(s, names, k, CurrentId(s.w, k));
  }

  // Where names are unique, what is about to be imported is what the status holds already.
  lemma ImportIsCurrent(s: Sys, names: Names, k: Key, pid: nat)
    requires Sound(s, names, k) && CurrentId(s.w, k) != ""
    requires pid in s.procs && KeyOf(s.procs[pid]) == k && Importing(s.procs[pid])
    ensures ImportId(s.procs[pid]) == CurrentId(s.w, k)
  {
    CurrentIsMine(s, names, k);
    assert PcOk(s.w, s.procs[pid]) && PcNamesOk(s.w, s.procs[pid], names);
    assert Named(k.kind) && Bears(s.w, RKey(k.kind, ImportId(s.procs[pid])), names(k));
  }

  // A status write from the current version keeps the id, or stores one of an object made from the spec.
  lemma SavedAgrees(s: Sys, pid: nat, names: Names, k: Key, spec: Spec)
    requires Sound(s, names, k) && NoOlder(s, k, spec) && Settled(s.w, k, spec)
    requires pid in s.procs && KeyOf(s.procs[pid]) == k && RequestOf(s.procs[pid]).PutStatus?
    requires s.procs[pid].s.ver == |s.w.hist[k]| - 1
    ensures var rk := RKey(k.kind, SavedId(s.procs[pid])); rk in s.w.remote && Agrees(spec, s.w.remote[rk])
  {
    var pc := s.procs[pid];
    SavedShape(pc);
    if pc.SaveNew? {
      assert WorksFrom(s.w, pc, k, spec);
      MadeAgreesToo(spec, s.w.remote[RKey(k.kind, Now(s.w, k).id)], s.w.remote[Awaited(pc)]);
    } else if Importing(pc) {
      ImportIsCurrent(s, names, k, pid);
    } else {
      assert Held(s.w, pc.s);
    }
  }

  lemma WrittenIsSettled(w: World, k: Key, cr: CR)
    requires k in w.hist && cr.id != "" && RKey(k.kind, cr.id) in w.remote
    requires Agrees(cr.spec, w.remote[RKey(k.kind, cr.id)])
    ensures Settled(Apply(w, Appended(k, cr)), k, cr.spec)
  {
  }

  lemma SaveKeepsSettled(s: Sys, pid: nat, reply: Reply, cr: CR, names: Names, k: Key, spec: Spec)
    requires Sound(s, names, k) && NoOlder(s, k, spec) && Settled(s.w, k, spec)
    requires Enabled(s, Act(pid, reply, Appended(k, cr)))
    ensures Settled(Apply(s.w, Appended(k, cr)), k, spec)
  {
    CallShape(s.w, s.procs[pid], reply, Appended(k, cr));
    SavedAgrees(s, pid, names, k, spec);
    assert cr == CR(spec, SavedId(s.procs[pid]));
    WrittenIsSettled(s.w, k, cr);
  }

  // Nothing but a status write changes what a version of the resource says.
  lemma NowAfter(s: Sys, ev: Event, k: Key)
    requires Enabled(s, ev) && k in s.w.hist && s.w.hist[k] != [] && Steady(s, ev, k, Now(s.w, k).spec)
    requires !(ev.Act? && ev.eff.Appended? && ev.eff.key == k)
    ensures k in Next(s, ev).w.hist && Next(s, ev).w.hist[k] != [] && Now(Next(s, ev).w, k) == Now(s.w, k)
  {
  }

  lemma StillSettled(w: World, w': World, k: Key, spec: Spec)
    requires Settled(w, k, spec) && k in w'.hist && w'.hist[k] != [] && Now(w', k) == Now(w, k)
    requires var rk := RKey(k.kind, Now(w, k).id); rk in w'.remote && Evolves(spec, w.remote[rk], w'.remote[rk])
    ensures Settled(w', k, spec)
  {
  }

  lemma SettledKept(s: Sys, ev: Event, names: Names, k: Key, spec: Spec)
    requires Sound(s, names, k) && NoOlder(s, k, spec) && Enabled(s, ev) && Steady(s, ev, k, spec)
    requires Settled(s.w, k, spec)
    ensures Settled(Next(s, ev).w, k, spec)
  {
    if ev.Act? && ev.eff.Appended? && ev.eff.key == k {
      SaveKeepsSettled(s, ev.pid, ev.reply, ev.eff.cr, names, k, spec);
    } else {
      CurrentIsMine(s, names, k);
      StepDevelops(s, ev, names, k, spec);
      NowAfter(s, ev, k);
      StillSettled(s.w, Next(s, ev).w, k, spec);
    }
  }

  lemma AloneBefore(w: World, w': World, names: Names, k: Key)
    requires Grows(w, w') && Alone(w', names, k)
    ensures Alone(w, names, k)
  {
    if Named(k.kind) {
      NamesFixedBefore(w, w', names);
    }
  }

  lemma SoundKept(s: Sys, ev: Event, names: Names, k: Key)
    requires Sound(s, names, k) && Enabled(s, ev) && Alone(Next(s, ev).w, names, k)
    ensures Sound(Next(s, ev), names, k)
  {
    InvKept(s, ev);
    if Named(k.kind) {
      NamesKept(s, ev, names);
    }
  }

  lemma ReachableIsSound(s0: Sys, past: seq<Event>, names: Names, k: Key)
    requires Init(s0) && Valid(s0, past) && Alone(After(s0, past).w, names, k)
    ensures Sound(After(s0, past), names, k)
  {
    Reachable(s0, past);
    if Named(k.kind) {
      ReachableNames(s0, past, names);
    }
  }

  lemma {:induction false} RunKeepsSettled(s: Sys, evs: seq<Event>, names: Names, k: Key, spec: Spec)
    requires Valid(s, evs) && SteadyRun(s, evs, k, spec) && Alone(After(s, evs).w, names, k)
    requires Sound(s, names, k) && NoOlder(s, k, spec) && Settled(s.w, k, spec)
    ensures Settled(After(s, evs).w, k, spec) && NoOlder(After(s, evs), k, spec)
    decreases |evs|
  {
    if evs != [] {
      RunGrows(Next(s, evs[0]), evs[1..]);
      AloneBefore(Next(s, evs[0]).w, After(s, evs).w, names, k);
      SoundKept(s, evs[0], names, k);
      NoOlderKept(s, evs[0], names, k, spec);
      SettledKept(s, evs[0], names, k, spec);
      RunKeepsSettled(Next(s, evs[0]), evs[1..], names, k, spec);
    }
  }

  // From any reachable state in which a resource agrees with its spec and no unfinished reconcile of
  // it holds another one, agreement lasts through every run that leaves the spec alone.
  lemma AgreementIsStable(s0: Sys, past: seq<Event>, run: seq<Event>, names: Names, k: Key, spec: Spec)
    requires Init(s0) && Valid(s0, past) && Valid(After(s0, past), run)
    requires Alone(After(After(s0, past), run).w, names, k)
    requires SteadyRun(After(s0, past), run, k, spec) && NoOlder(After(s0, past), k, spec)
    requires Settled(After(s0, past).w, k, spec)
    ensures Settled(After(After(s0, past), run).w, k, spec)
  {
    RunGrows(After(s0, past), run);
    AloneBefore(After(s0, past).w, After(After(s0, past), run).w, names, k);
    ReachableIsSound(s0, past, names, k);
    RunKeepsSettled(After(s0, past), run, names, k, spec);
  }

  // A settled resource is at rest: reconciles that run alone from here on write nothing.
  lemma SettledIsAtRest(w: World, k: Key)
    requires k.kind.Service? || k.kind.Team? || k.kind.Schedule?
    requires if k.kind.Service? then SC.Ready(w, k) else if k.kind.Team? then TC.Ready(w, k) else HC.Ready(w, k)
    requires Settled(w, k, Now(w, k).spec)
    ensures AtRest(w, k)
  {
    forall o ensures Quiet(w, Begin(k), o) && Reconcile(w, k, o).0 == w {
      match k.kind
      case Service => SC.AgreementIsQuiet(w, k, o);
      case Team =>
        TC.BearerAfter(w, w, k, RKey(Team, Now(w, k).id));
        TC.AgreementIsQuiet(w, k, o);
      case Schedule => HC.AgreementIsQuiet(w, k, RKey(Schedule, Now(w, k).id), o);
    }
  }
}
