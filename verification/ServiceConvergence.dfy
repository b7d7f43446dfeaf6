/** What one undisturbed reconcile of a service achieves, and when repeating it reaches agreement. */
module ServiceConvergence {
  import opened Basics
  import opened Environment
  import opened Programs
  import opened Protocol
  import opened Undisturbed

  /** A current service whose team can be resolved. */
  ghost predicate Ready(w: World, k: Key) {
    && StoresOk(w) && k.kind.Service? && k in w.hist
    && TeamNow(w, k.namespace, Svc(w, k).teamID, Svc(w, k).teamRef).Some?
  }

  function Svc(w: World, k: Key): ServiceSpec
    requires k in w.hist && w.hist[k] != [] && SpecFits(Service, Now(w, k).spec)
  {
    Now(w, k).spec.service
  }

  function Target(w: World, k: Key): RKey
    requires k in w.hist && w.hist[k] != []
  {
    RKey(Service, Now(w, k).id)
  }

  ghost function Remote(w: World, k: Key): RemoteService
    requires StoresOk(w) && k.kind.Service? && k in w.hist && Now(w, k).id != ""
  {
    w.remote[Target(w, k)].service
  }

  lemma ResolvedSolo(w: World, k: Key, o: Oracle)
    requires Ready(w, k)
    ensures var s, svc := SnapNow(w, k), Svc(w, k);
            var pc := ServiceResolved(s, svc, TeamNow(w, k.namespace, svc.teamID, svc.teamRef).value);
            && Reconcile(w, k, o) == Solo(w, pc, o)
            && Quiet(w, Begin(k), o) == Quiet(w, pc, o)
  {
    BeginSolo(w, k, o);
    TeamStep(w, SnapNow(w, k), Svc(w, k), o);
  }

  lemma TeamStep(w: World, s: Snap, svc: ServiceSpec, o: Oracle)
    requires SpecsFit(w) && TeamNow(w, s.key.namespace, svc.teamID, svc.teamRef).Some?
    ensures var pc := ServiceResolved(s, svc, TeamNow(w, s.key.namespace, svc.teamID, svc.teamRef).value);
            Solo(w, ServiceStart(s, svc), o) == Solo(w, pc, o) && Quiet(w, ServiceStart(s, svc), o) == Quiet(w, pc, o)
  {
    if svc.teamID == "" {
      var target := Key(Team, s.key.namespace, svc.teamRef.value);
      SoloStep(w, ServiceStart(s, svc), o, GotCR(Now(w, target), |w.hist[target]| - 1), Nothing);
    }
  }

  // The first reconcile creates the service as its spec describes it and persists its id.
  lemma CreatesWhatIsWanted(w: World, k: Key, o: Oracle)
    requires Ready(w, k) && Now(w, k).id == "" && FreshId(w, o.newId)
    ensures var made := ServiceObj(RemoteService(Svc(w, k).name, Svc(w, k).description, Svc(w, k).tags,
                                                TeamNow(w, k.namespace, Svc(w, k).teamID, Svc(w, k).teamRef).value));
            Reconcile(w, k, o) == (WithId(Apply(w, Added(RKey(Service, o.newId), made)), k, o.newId), Requeue(5))
  {
    ResolvedSolo(w, k, o);
    var s, svc := SnapNow(w, k), Svc(w, k);
    var team := TeamNow(w, k.namespace, svc.teamID, svc.teamRef).value;
    CreateStep(w, s, svc, team, o);
  }

  lemma CreateStep(w: World, s: Snap, svc: ServiceSpec, team: string, o: Oracle)
    requires Fresh(w, s) && s.key.kind.Service?
    ensures var made := ServiceObj(RemoteService(svc.name, svc.description, svc.tags, team));
            Solo(w, OnService(s, svc, SvcCreate(team)), o)
            == (WithId(Apply(w, Added(RKey(Service, o.newId), made)), s.key, o.newId), Requeue(5))
  {
    var made := ServiceObj(RemoteService(svc.name, svc.description, svc.tags, team));
    assert Serve(w, Create(s.key, made), o) == (Created(o.newId), Added(RKey(Service, o.newId), made));
    CreateEnds(w, OnService(s, svc, SvcCreate(team)), o, made, Requeue(5));
  }

  // A service that agrees with its spec is left alone: no write is issued.
  lemma AgreementIsQuiet(w: World, k: Key, o: Oracle)
    requires Ready(w, k) && Now(w, k).id != "" && !ServiceDiffers(Svc(w, k), Remote(w, k))
    ensures Quiet(w, Begin(k), o) && Reconcile(w, k, o) == (w, Requeue(5))
  {
    ResolvedSolo(w, k, o);
    var s, svc := SnapNow(w, k), Svc(w, k);
    var pc := OnService(s, svc, SvcGet);
    assert Target(w, k) in w.remote;
    assert Solo(w, pc, o) == Solo(w, Done(Requeue(5)), o);
    assert Quiet(w, pc, o) == Quiet(w, Done(Requeue(5)), o);
  }

  // One that differs receives the fields that are sent; its team stays as it was created.
  lemma UpdatesWhatDiffers(w: World, k: Key, o: Oracle)
    requires Ready(w, k) && Now(w, k).id != "" && ServiceDiffers(Svc(w, k), Remote(w, k))
    ensures var now := ServiceObj(Brought(Svc(w, k), Remote(w, k)));
            Reconcile(w, k, o) == (WithId(Apply(w, Patched(Target(w, k), now)), k, Now(w, k).id), Requeue(5))
  {
    ResolvedSolo(w, k, o);
    var s, svc := SnapNow(w, k), Svc(w, k);
    assert Target(w, k) in w.remote;
    SoloStep(w, OnService(s, svc, SvcGet), o, GotObj(s.id, w.remote[Target(w, k)]), Nothing);
    UpdateStep(w, s, svc, o);
  }

  lemma UpdateStep(w: World, s: Snap, svc: ServiceSpec, o: Oracle)
    requires Fresh(w, s) && s.key.kind.Service? && RKey(Service, s.id) in w.remote
    requires w.remote[RKey(Service, s.id)].ServiceObj?
    ensures var now := ServiceObj(Brought(svc, w.remote[RKey(Service, s.id)].service));
            Solo(w, OnService(s, svc, SvcUpdate), o)
            == (WithId(Apply(w, Patched(RKey(Service, s.id), now)), s.key, s.id), Requeue(5))
  {
    var rk, sent := RKey(Service, s.id), ServiceObj(RemoteService(svc.name, svc.description, svc.tags, ""));
    var now := ServiceObj(Brought(svc, w.remote[rk].service));
    assert Serve(w, Update(rk, sent), o) == (Updated, Patched(rk, now));
    UpdateEnds(w, OnService(s, svc, SvcUpdate), o, now);
  }

  /** The remote service after an update. */
  function Brought(svc: ServiceSpec, was: RemoteService): RemoteService {
    RemoteService(Or(was.name, svc.name), Or(was.description, svc.description), OrSeq(was.tags, svc.tags), was.teamId)
  }

  // ---- convergence --------------------------------------------------------------------

  /** Some field cannot be brought into agreement: it is empty in the spec and set remotely. */
  predicate Stuck(svc: ServiceSpec, was: RemoteService) {
    || (svc.name == "" && was.name != "")
    || (svc.description == "" && was.description != "")
    || (svc.tags == [] && was.tags != [])
  }

  /** How far a service is from agreement: no id, fields that differ, none. */
  ghost function Rank(w: World, k: Key): nat
    requires Ready(w, k)
  {
    if Now(w, k).id == "" then 2 else if ServiceDiffers(Svc(w, k), Remote(w, k)) then 1 else 0
  }

  lemma UpdateSettles(svc: ServiceSpec, was: RemoteService)
    ensures ServiceDiffers(svc, Brought(svc, was)) <==> Stuck(svc, was)
    ensures Stuck(svc, Brought(svc, was)) <==> Stuck(svc, was)
  {
  }

  // The stores after a reconcile still hold a ready service with the same spec.
  lemma StaysReady(w: World, k: Key, o: Oracle)
    requires Ready(w, k) && FreshId(w, o.newId)
    requires var w' := Reconcile(w, k, o).0; k in w'.hist && w'.hist[k] != [] && Now(w', k).spec == Now(w, k).spec
    ensures Ready(Reconcile(w, k, o).0, k)
  {
    ReconcileKeepsStores(w, k, o);
    TeamNowGrows(w, Reconcile(w, k, o).0, k.namespace, Svc(w, k).teamID, Svc(w, k).teamRef);
  }

  lemma CreateSettles(w: World, k: Key, o: Oracle)
    requires Ready(w, k) && Rank(w, k) == 2 && FreshId(w, o.newId)
    ensures var w' := Reconcile(w, k, o).0;
            Ready(w', k) && Now(w', k).spec == Now(w, k).spec && Rank(w', k) == 0
  {
    CreatesWhatIsWanted(w, k, o);
    StaysReady(w, k, o);
    var w' := Reconcile(w, k, o).0;
    assert Target(w', k) == RKey(Service, o.newId);
  }

  lemma UpdateSettlesOrSticks(w: World, k: Key, o: Oracle)
    requires Ready(w, k) && Rank(w, k) == 1 && FreshId(w, o.newId)
    ensures var w' := Reconcile(w, k, o).0;
            && Ready(w', k) && Now(w', k) == Now(w, k)
            && Rank(w', k) == (if Stuck(Svc(w, k), Remote(w, k)) then 1 else 0)
            && Stuck(Svc(w', k), Remote(w', k)) == Stuck(Svc(w, k), Remote(w, k))
  {
    UpdatesWhatDiffers(w, k, o);
    StaysReady(w, k, o);
    UpdateSettles(Svc(w, k), Remote(w, k));
    var w' := Reconcile(w, k, o).0;
    assert Target(w', k) == Target(w, k);
    assert Remote(w', k) == Brought(Svc(w, k), Remote(w, k));
  }

  // From any state in which the service is ready, one undisturbed reconcile lowers the rank to zero
  // and further ones issue no write, unless a field is stuck; then no number of reconciles ever
  // reaches agreement.
  lemma {:induction false} ServiceConvergence(w: World, k: Key, os: seq<Oracle>)
    requires Ready(w, k) && AllFresh(w, k, os) && os != []
    ensures var w' := Repeated(w, k, os);
            && Ready(w', k) && Now(w', k).spec == Now(w, k).spec
            && (Rank(w', k) == 0 <==> Rank(w, k) != 1 || !Stuck(Svc(w, k), Remote(w, k)))
            && (Rank(w', k) != 0 ==> Rank(w', k) == 1 && Stuck(Svc(w', k), Remote(w', k)))
            && (Rank(w', k) == 0 ==> forall o :: Quiet(w', Begin(k), o) && Reconcile(w', k, o).0 == w')
    decreases |os|
  {
    var w1 := Reconcile(w, k, os[0]).0;
    if Rank(w, k) == 2 {
      CreateSettles(w, k, os[0]);
    } else if Rank(w, k) == 1 {
      UpdateSettlesOrSticks(w, k, os[0]);
    } else {
      AgreementIsQuiet(w, k, os[0]);
    }
    if |os| > 1 {
      ServiceConvergence(w1, k, os[1..]);
      assert Repeated(w, k, os) == Repeated(w1, k, os[1..]);
    } else {
      assert os[1..] == [] && Repeated(w1, k, []) == w1;
      if Rank(w1, k) == 0 {
        forall o ensures Quiet(w1, Begin(k), o) && Reconcile(w1, k, o).0 == w1 {
          AgreementIsQuiet(w1, k, o);
        }
      }
    }
  }

  // Stuck services are reached: one that was created with a description sticks once an edit clears it.
  lemma ClearedDescriptionSticks(w: World, k: Key, o: Oracle)
    requires Ready(w, k) && Now(w, k).id == "" && Svc(w, k).description != "" && FreshId(w, o.newId)
    ensures var w' := Edited(Reconcile(w, k, o).0, k, ServiceCR(Svc(w, k).(description := "")));
            Ready(w', k) && Rank(w', k) == 1 && Stuck(Svc(w', k), Remote(w', k))
  {
    CreatesWhatIsWanted(w, k, o);
    CreateSettles(w, k, o);
    ClearedSticks(Reconcile(w, k, o).0, k);
  }

  lemma ClearedSticks(w: World, k: Key)
    requires Ready(w, k) && Now(w, k).id != "" && Svc(w, k).description != ""
    requires Remote(w, k).description == Svc(w, k).description
    ensures var w' := Edited(w, k, ServiceCR(Svc(w, k).(description := "")));
            Ready(w', k) && Rank(w', k) == 1 && Stuck(Svc(w', k), Remote(w', k))
  {
    var spec := ServiceCR(Svc(w, k).(description := ""));
    AppendedStaysOk(w, k, CR(spec, Now(w, k).id));
    TeamNowGrows(w, Edited(w, k, spec), k.namespace, Svc(w, k).teamID, Svc(w, k).teamRef);
  }

  // ---- in the fields themselves -------------------------------------------------------

  // Rank zero says that the status holds an id, that name and description are the spec's, and that the
  // remote has as many tags as the spec and none that the spec does not list.
  lemma RankZeroExactly(w: World, k: Key)
    requires Ready(w, k)
    ensures Rank(w, k) == 0 <==>
            && Now(w, k).id != ""
            && var svc, seen := Svc(w, k), Remote(w, k);
               && svc.name == seen.name && svc.description == seen.description
               && |svc.tags| == |seen.tags| && forall x :: x in seen.tags ==> x in svc.tags
    ensures Rank(w, k) == 0 && NoDup(Remote(w, k).tags) ==> multiset(Remote(w, k).tags) == multiset(Svc(w, k).tags)
  {
    if Rank(w, k) == 0 && NoDup(Remote(w, k).tags) {
      SameLengthCover(Svc(w, k).tags, Remote(w, k).tags);
    }
  }

  // A reconcile of a service with an id writes nothing exactly when these fields agree.
  lemma QuietExactly(w: World, k: Key, o: Oracle)
    requires Ready(w, k) && Now(w, k).id != ""
    ensures var svc, seen := Svc(w, k), Remote(w, k);
            Quiet(w, Begin(k), o) <==>
            && svc.name == seen.name && svc.description == seen.description
            && |svc.tags| == |seen.tags| && forall x :: x in seen.tags ==> x in svc.tags
  {
    RankZeroExactly(w, k);
    if Rank(w, k) == 0 {
      AgreementIsQuiet(w, k, o);
    } else {
      ResolvedSolo(w, k, o);
      var get := OnService(SnapNow(w, k), Svc(w, k), SvcGet);
      assert Target(w, k) in w.remote;
      SoloStep(w, get, o, GotObj(Now(w, k).id, w.remote[Target(w, k)]), Nothing);
      assert !Quiet(w, OnService(SnapNow(w, k), Svc(w, k), SvcUpdate), o);
    }
  }

  // What any number of reconciles reaches, in the fields of the spec as it was before them.
  lemma ConvergesInFields(w: World, k: Key, os: seq<Oracle>)
    requires Ready(w, k) && AllFresh(w, k, os) && os != []
    requires Now(w, k).id == "" || !Stuck(Svc(w, k), Remote(w, k))
    ensures var w' := Repeated(w, k, os);
            && Ready(w', k) && Now(w', k).id != ""
            && var svc, seen := Svc(w, k), Remote(w', k);
               && svc.name == seen.name && svc.description == seen.description
               && |svc.tags| == |seen.tags| && (forall x :: x in seen.tags ==> x in svc.tags)
               && (NoDup(seen.tags) ==> multiset(seen.tags) == multiset(svc.tags))
  {
    ServiceConvergence(w, k, os);
    RankZeroExactly(Repeated(w, k, os), k);
  }
}
