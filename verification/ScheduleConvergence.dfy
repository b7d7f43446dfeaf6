/** What one undisturbed reconcile of a schedule achieves, and when repeating it reaches agreement. */
module ScheduleConvergence {
  import opened Basics
  import opened Environment
  import opened Programs
  import opened Protocol
  import opened Undisturbed
  import Rotations

  ghost predicate Ready(w: World, k: Key) {
    StoresOk(w) && k.kind.Schedule? && k in w.hist && Rotations.Convertible(Sch(w, k).rotations)
  }

  function Sch(w: World, k: Key): ScheduleSpec
    requires k in w.hist && w.hist[k] != [] && SpecFits(Schedule, Now(w, k).spec)
  {
    Now(w, k).spec.schedule
  }

  function Wanted(c: ScheduleSpec): seq<Rotations.Rotation>
    requires Rotations.Convertible(c.rotations)
  {
    Rotations.ToRotations(c.rotations)
  }

  /** The remote schedule after an update. */
  function Brought(c: ScheduleSpec, was: RemoteSchedule): RemoteSchedule
    requires Rotations.Convertible(c.rotations)
  {
    RemoteSchedule(Or(was.name, c.name), Or(was.description, c.description), Or(was.timeZone, c.timeZone),
                   Or(was.ownerTeam, c.ownerTeam), OrSeq(was.rotations, Wanted(c)))
  }

  /** The remote object a reconcile turns to: the one its status holds, else the one that bears its name. */
  ghost predicate Subject(w: World, k: Key, rk: RKey)
    requires Ready(w, k)
  {
    && rk.kind.Schedule? && rk in w.remote
    && if Now(w, k).id != "" then rk.id == Now(w, k).id else w.remote[rk].schedule.name == Sch(w, k).name
  }

  // A schedule that cannot be converted fails before any call but the first, and changes nothing.
  lemma FailedConversionChangesNothing(w: World, k: Key, o: Oracle)
    requires StoresOk(w) && k.kind.Schedule? && k in w.hist && !Rotations.Convertible(Sch(w, k).rotations)
    ensures Reconcile(w, k, o) == (w, Error) && Quiet(w, Begin(k), o)
  {
    BeginSolo(w, k, o);
  }

  lemma CreateStep(w: World, k: Key, o: Oracle)
    requires Ready(w, k) && Now(w, k).id == ""
    ensures var pc := OnSchedule(SnapNow(w, k), Sch(w, k), SchedCreate(Wanted(Sch(w, k))));
            Reconcile(w, k, o) == Solo(w, pc, o)
  {
  }

  // Adoption: a status without an id takes over the id of the remote schedule that bears the name;
  // nothing is created, and nothing remote changes.
  lemma AdoptsByName(w: World, k: Key, rk: RKey, o: Oracle)
    requires Ready(w, k) && Now(w, k).id == "" && Subject(w, k, rk)
    ensures Reconcile(w, k, o) == (WithId(w, k, rk.id), Stop)
  {
    CreateStep(w, k, o);
    LookupSolo(w, rk, o);
    var s, c := SnapNow(w, k), Sch(w, k);
    var pc, find := OnSchedule(s, c, SchedCreate(Wanted(c))), OnSchedule(s, c, SchedFind);
    assert rk == RKey(Schedule, rk.id) && NameTaken(w, Schedule, c.name);
    assert Solo(w, pc, o) == Solo(w, find, o);
    assert Solo(w, find, o) == Solo(w, SaveImport(s, rk.id), o);
    SaveSolo(w, SaveImport(s, rk.id), o);
  }

  // Without one, the schedule is created as its spec describes it.
  lemma CreatesWhatIsWanted(w: World, k: Key, o: Oracle)
    requires Ready(w, k) && Now(w, k).id == "" && !NameTaken(w, Schedule, Sch(w, k).name) && FreshId(w, o.newId)
    ensures var made := ScheduleFields(Sch(w, k), Wanted(Sch(w, k)));
            Reconcile(w, k, o)
            == (WithId(Apply(w, Added(RKey(Schedule, o.newId), made)), k, o.newId), Requeue(60))
  {
    CreateStep(w, k, o);
    var s, c := SnapNow(w, k), Sch(w, k);
    var made := ScheduleFields(c, Wanted(c));
    assert Serve(w, Create(k, made), o) == (Created(o.newId), Added(RKey(Schedule, o.newId), made));
    CreateEnds(w, OnSchedule(s, c, SchedCreate(Wanted(c))), o, made, Requeue(60));
  }

  lemma FetchStep(w: World, k: Key, rk: RKey, o: Oracle)
    requires Ready(w, k) && Now(w, k).id != "" && Subject(w, k, rk)
    ensures var s, c := SnapNow(w, k), Sch(w, k);
            var pc := if ScheduleDiffers(c, Wanted(c), w.remote[rk].schedule)
                      then OnSchedule(s, c, SchedUpdate(Wanted(c))) else Done(Requeue(5));
            Reconcile(w, k, o) == Solo(w, pc, o) && Quiet(w, Begin(k), o) == Quiet(w, pc, o)
  {
    BeginSolo(w, k, o);
    assert rk == RKey(Schedule, Now(w, k).id);
  }

  // A schedule that agrees with its spec on description, time zone and rotations is left alone.
  lemma AgreementIsQuiet(w: World, k: Key, rk: RKey, o: Oracle)
    requires Ready(w, k) && Now(w, k).id != "" && Subject(w, k, rk)
    requires !ScheduleDiffers(Sch(w, k), Wanted(Sch(w, k)), w.remote[rk].schedule)
    ensures Quiet(w, Begin(k), o) && Reconcile(w, k, o) == (w, Requeue(5))
  {
    FetchStep(w, k, rk, o);
  }

  lemma UpdateStep(w: World, s: Snap, c: ScheduleSpec, rk: RKey, o: Oracle)
    requires Fresh(w, s) && s.key.kind.Schedule?
    requires rk == RKey(Schedule, s.id) && rk in w.remote && w.remote[rk].ScheduleObj?
    requires Rotations.Convertible(c.rotations)
    ensures var now := Brought(c, w.remote[rk].schedule);
            Solo(w, OnSchedule(s, c, SchedUpdate(Wanted(c))), o)
            == if NameClash(w, rk, now.name) then (w, Error)
               else (WithId(Apply(w, Patched(rk, ScheduleObj(now))), s.key, s.id), Requeue(5))
  {
    var pc, now := OnSchedule(s, c, SchedUpdate(Wanted(c))), Brought(c, w.remote[rk].schedule);
    assert Merge(w.remote[rk], ScheduleFields(c, Wanted(c))) == ScheduleObj(now);
    if NameClash(w, rk, now.name) {
      SoloStep(w, pc, o, Failed, Nothing);
    } else {
      UpdateEnds(w, pc, o, ScheduleObj(now));
    }
  }

  // One that differs receives the fields that are sent, unless its name belongs to another schedule;
  // then the update fails and nothing changes.
  lemma UpdatesWhatDiffers(w: World, k: Key, rk: RKey, o: Oracle)
    requires Ready(w, k) && Now(w, k).id != "" && Subject(w, k, rk)
    requires ScheduleDiffers(Sch(w, k), Wanted(Sch(w, k)), w.remote[rk].schedule)
    ensures var now := Brought(Sch(w, k), w.remote[rk].schedule);
            Reconcile(w, k, o)
            == if NameClash(w, rk, now.name) then (w, Error)
               else (WithId(Apply(w, Patched(rk, ScheduleObj(now))), k, rk.id), Requeue(5))
  {
    FetchStep(w, k, rk, o);
    assert rk == RKey(Schedule, Now(w, k).id);
    UpdateStep(w, SnapNow(w, k), Sch(w, k), rk, o);
  }

  // ---- convergence --------------------------------------------------------------------

  /** A compared field is absent from the spec and set remotely. */
  predicate FieldsStuck(c: ScheduleSpec, was: RemoteSchedule) {
    || (c.description == "" && was.description != "")
    || (c.timeZone == "" && was.timeZone != "")
    || (c.rotations == [] && was.rotations != [])
  }

  /** Agreement cannot be reached: a field is stuck, or a difference is held back by a name clash. */
  ghost predicate Stuck(w: World, k: Key)
    requires Ready(w, k)
  {
    exists rk :: Subject(w, k, rk) && StuckAt(w, Sch(w, k), rk)
  }

  ghost predicate StuckAt(w: World, c: ScheduleSpec, rk: RKey)
    requires Rotations.Convertible(c.rotations) && rk in w.remote && w.remote[rk].ScheduleObj?
  {
    var was := w.remote[rk].schedule;
    FieldsStuck(c, was) || (ScheduleDiffers(c, Wanted(c), was) && NameClash(w, rk, Brought(c, was).name))
  }

  ghost function Rank(w: World, k: Key): nat
    requires Ready(w, k)
  {
    if Now(w, k).id == "" then 2
    else if ScheduleDiffers(Sch(w, k), Wanted(Sch(w, k)), w.remote[RKey(Schedule, Now(w, k).id)].schedule) then 1
    else 0
  }

  lemma BroughtAgrees(c: ScheduleSpec, was: RemoteSchedule)
    requires Rotations.Convertible(c.rotations)
    ensures ScheduleDiffers(c, Wanted(c), Brought(c, was)) <==> FieldsStuck(c, was)
    ensures FieldsStuck(c, Brought(c, was)) <==> FieldsStuck(c, was)
  {
  }

  // The only subject of a schedule is the one found first.
  lemma SubjectIsUnique(w: World, k: Key, rk: RKey)
    requires Ready(w, k) && Subject(w, k, rk)
    ensures forall r :: Subject(w, k, r) ==> r == rk
    ensures Stuck(w, k) <==> StuckAt(w, Sch(w, k), rk)
  {
  }

  lemma UpdateSettles(w: World, k: Key, o: Oracle)
    requires Ready(w, k) && Rank(w, k) == 1 && FreshId(w, o.newId)
    ensures var w' := Reconcile(w, k, o).0;
            && Ready(w', k) && Now(w', k) == Now(w, k)
            && Rank(w', k) == (if Stuck(w, k) then 1 else 0) && (Stuck(w', k) <==> Stuck(w, k))
  {
    var rk := RKey(Schedule, Now(w, k).id);
    UpdatesWhatDiffers(w, k, rk, o);
    ReconcileKeepsStores(w, k, o);
    var w' := Reconcile(w, k, o).0;
    BroughtAgrees(Sch(w, k), w.remote[rk].schedule);
    SubjectIsUnique(w, k, rk);
    SubjectIsUnique(w', k, rk);
  }

  lemma QuietSettles(w: World, k: Key, o: Oracle)
    requires Ready(w, k) && Rank(w, k) == 0
    ensures Quiet(w, Begin(k), o) && Reconcile(w, k, o).0 == w && !Stuck(w, k)
  {
    var rk := RKey(Schedule, Now(w, k).id);
    AgreementIsQuiet(w, k, rk, o);
    SubjectIsUnique(w, k, rk);
  }

  lemma AdoptionReaches(w: World, k: Key, rk: RKey, o: Oracle)
    requires Ready(w, k) && Rank(w, k) == 2 && Subject(w, k, rk) && FreshId(w, o.newId)
    ensures var w' := Reconcile(w, k, o).0;
            && Ready(w', k) && Now(w', k).spec == Now(w, k).spec
            && Rank(w', k) <= 1 && (Stuck(w', k) <==> Stuck(w, k))
  {
    AdoptsByName(w, k, rk, o);
    ReconcileKeepsStores(w, k, o);
    SubjectIsUnique(w, k, rk);
    SubjectIsUnique(Reconcile(w, k, o).0, k, rk);
  }

  lemma CreateReaches(w: World, k: Key, o: Oracle)
    requires Ready(w, k) && Rank(w, k) == 2 && !NameTaken(w, Schedule, Sch(w, k).name) && FreshId(w, o.newId)
    ensures var w' := Reconcile(w, k, o).0;
            && Ready(w', k) && Now(w', k).spec == Now(w, k).spec
            && Rank(w', k) == 0 && !Stuck(w', k) && !Stuck(w, k)
  {
    CreatesWhatIsWanted(w, k, o);
    ReconcileKeepsStores(w, k, o);
    var w' := Reconcile(w, k, o).0;
    var rk := RKey(Schedule, o.newId);
    assert w'.remote[rk] == ScheduleFields(Sch(w, k), Wanted(Sch(w, k)));
    SubjectIsUnique(w', k, rk);
    SubjectMeansTaken(w, k);
  }

  lemma SubjectMeansTaken(w: World, k: Key)
    requires Ready(w, k) && Now(w, k).id == ""
    ensures (exists rk :: Subject(w, k, rk)) <==> NameTaken(w, Schedule, Sch(w, k).name)
  {
    if rk :| Subject(w, k, rk) {
      assert rk == RKey(Schedule, rk.id);
    }
    if NameTaken(w, Schedule, Sch(w, k).name) {
      var id :| RKey(Schedule, id) in w.remote && ObjName(w.remote[RKey(Schedule, id)]) == Sch(w, k).name;
      assert Subject(w, k, RKey(Schedule, id));
    }
  }

  // Each reconcile lowers the rank, and whether a schedule is stuck never changes.
  lemma RankFalls(w: World, k: Key, o: Oracle)
    requires Ready(w, k) && FreshId(w, o.newId)
    ensures var w' := Reconcile(w, k, o).0;
            && Ready(w', k) && Now(w', k).spec == Now(w, k).spec
            && (Stuck(w', k) <==> Stuck(w, k))
            && (Rank(w, k) == 2 ==> Rank(w', k) <= 1)
            && (Rank(w, k) == 1 ==> Rank(w', k) == if Stuck(w, k) then 1 else 0)
            && (Rank(w, k) == 0 ==> w' == w)
            && (Rank(w', k) == 0 ==> !Stuck(w', k))
  {
    if Rank(w, k) == 2 {
      SubjectMeansTaken(w, k);
      if rk :| Subject(w, k, rk) {
        AdoptionReaches(w, k, rk, o);
      } else {
        CreateReaches(w, k, o);
      }
    } else if Rank(w, k) == 1 {
      UpdateSettles(w, k, o);
    }
    var w' := Reconcile(w, k, o).0;
    if Rank(w, k) == 0 {
      QuietSettles(w, k, o);
    } else if Rank(w', k) == 0 {
      QuietSettles(w', k, o);
    }
  }

  // From any state with convertible rotations, two undisturbed reconciles reach agreement and further
  // ones issue no write, unless the schedule is stuck; then no number of them does.
  lemma {:induction false} ScheduleConvergence(w: World, k: Key, os: seq<Oracle>)
    requires Ready(w, k) && AllFresh(w, k, os) && |os| >= (if Rank(w, k) == 2 then 2 else 1)
    ensures var w' := Repeated(w, k, os);
            && Ready(w', k) && Now(w', k).spec == Now(w, k).spec
            && (Rank(w', k) == 0 <==> !Stuck(w, k)) && Rank(w', k) <= 1
            && (Rank(w', k) == 0 ==> forall o :: Quiet(w', Begin(k), o) && Reconcile(w', k, o).0 == w')
    decreases |os|
  {
    var w1 := Reconcile(w, k, os[0]).0;
    RankFalls(w, k, os[0]);
    if |os| > 1 {
      ScheduleConvergence(w1, k, os[1..]);
      assert Repeated(w, k, os) == Repeated(w1, k, os[1..]);
    } else {
      assert os[1..] == [] && Repeated(w1, k, []) == w1;
      if Rank(w, k) == 0 {
        QuietSettles(w, k, os[0]);
      }
      if Rank(w1, k) == 0 {
        forall o ensures Quiet(w1, Begin(k), o) && Reconcile(w1, k, o).0 == w1 {
          QuietSettles(w1, k, o);
        }
      }
    }
  }

  // Stuck schedules are reached: one that was created with a description sticks once an edit clears it.
  lemma ClearedDescriptionSticks(w: World, k: Key, o: Oracle)
    requires Ready(w, k) && Now(w, k).id == "" && Sch(w, k).description != "" && FreshId(w, o.newId)
    requires !NameTaken(w, Schedule, Sch(w, k).name)
    ensures var w' := Edited(Reconcile(w, k, o).0, k, ScheduleCR(Sch(w, k).(description := "")));
            Ready(w', k) && Rank(w', k) == 1 && Stuck(w', k)
  {
    CreatesWhatIsWanted(w, k, o);
    ReconcileKeepsStores(w, k, o);
    var spec, w1 := ScheduleCR(Sch(w, k).(description := "")), Reconcile(w, k, o).0;
    assert Now(w1, k).id == o.newId;
    assert w1.remote[RKey(Schedule, o.newId)] == ScheduleFields(Sch(w, k), Wanted(Sch(w, k)));
    AppendedStaysOk(w1, k, CR(spec, o.newId));
    SubjectIsUnique(Edited(w1, k, spec), k, RKey(Schedule, o.newId));
  }

  // ---- in the fields themselves -------------------------------------------------------

  // The decision to update, in the fields of the spec and the remote.
  lemma DiffersExactly(c: ScheduleSpec, seen: RemoteSchedule)
    requires Rotations.Convertible(c.rotations)
    ensures !ScheduleDiffers(c, Wanted(c), seen) <==>
            && c.description == seen.description && c.timeZone == seen.timeZone
            && |seen.rotations| == |c.rotations|
            && forall i :: 0 <= i < |c.rotations| ==>
                 && seen.rotations[i].name == c.rotations[i].name
                 && seen.rotations[i].kind == c.rotations[i].kind
                 && Some(seen.rotations[i].startDate) == c.rotations[i].startDate.instant
                 && seen.rotations[i].length == c.rotations[i].length % 0x1_0000_0000
  {
    Rotations.ComparedWithSpec(seen.rotations, c.rotations);
  }

  // A reconcile of a schedule with an id writes nothing exactly when description and time zone agree and
  // so do, rotation by rotation, name, type, start and length modulo 2^32.
  lemma QuietExactly(w: World, k: Key, o: Oracle)
    requires Ready(w, k) && Now(w, k).id != ""
    ensures var c, seen := Sch(w, k), w.remote[RKey(Schedule, Now(w, k).id)].schedule;
            Quiet(w, Begin(k), o) <==>
            && c.description == seen.description && c.timeZone == seen.timeZone
            && |seen.rotations| == |c.rotations|
            && forall i :: 0 <= i < |c.rotations| ==>
                 && seen.rotations[i].name == c.rotations[i].name
                 && seen.rotations[i].kind == c.rotations[i].kind
                 && Some(seen.rotations[i].startDate) == c.rotations[i].startDate.instant
                 && seen.rotations[i].length == c.rotations[i].length % 0x1_0000_0000
  {
    var rk := RKey(Schedule, Now(w, k).id);
    FetchStep(w, k, rk, o);
    DiffersExactly(Sch(w, k), w.remote[rk].schedule);
  }

  // What reconciles reach, in the fields of the spec as it was before them.
  lemma ConvergesInFields(w: World, k: Key, os: seq<Oracle>)
    requires Ready(w, k) && AllFresh(w, k, os) && |os| >= (if Rank(w, k) == 2 then 2 else 1) && !Stuck(w, k)
    ensures var w' := Repeated(w, k, os);
            && Ready(w', k) && Now(w', k).id != ""
            && var c, seen := Sch(w, k), w'.remote[RKey(Schedule, Now(w', k).id)].schedule;
               && c.description == seen.description && c.timeZone == seen.timeZone
               && |seen.rotations| == |c.rotations|
               && forall i :: 0 <= i < |c.rotations| ==>
                    && seen.rotations[i].name == c.rotations[i].name
                    && seen.rotations[i].kind == c.rotations[i].kind
                    && Some(seen.rotations[i].startDate) == c.rotations[i].startDate.instant
                    && seen.rotations[i].length == c.rotations[i].length % 0x1_0000_0000
  {
    ScheduleConvergence(w, k, os);
    var w' := Repeated(w, k, os);
    DiffersExactly(Sch(w, k), w'.remote[RKey(Schedule, Now(w', k).id)].schedule);
  }

  // A schedule that was created carries everything the spec says, participants and restrictions included.
  lemma CreatedFollowsSpec(w: World, k: Key, o: Oracle)
    requires Ready(w, k) && Now(w, k).id == "" && !NameTaken(w, Schedule, Sch(w, k).name) && FreshId(w, o.newId)
    ensures var (w', rk) := (Reconcile(w, k, o).0, RKey(Schedule, o.newId));
            && rk in w'.remote && w'.remote[rk].ScheduleObj?
            && var c, seen := Sch(w, k), w'.remote[rk].schedule;
               && seen.name == c.name && seen.description == c.description && seen.timeZone == c.timeZone
               && seen.ownerTeam == c.ownerTeam && Rotations.RotationsFollow(c.rotations, seen.rotations)
  {
    CreatesWhatIsWanted(w, k, o);
    Rotations.ConversionFollows(Sch(w, k).rotations);
  }

  // One that was updated carries every field that the spec has and keeps the others.
  lemma UpdatedFollowsSpec(w: World, k: Key, o: Oracle)
    requires Ready(w, k) && Now(w, k).id != "" && FreshId(w, o.newId)
    requires !Quiet(w, Begin(k), o) && Reconcile(w, k, o).1 != Error
    ensures var (w', rk) := (Reconcile(w, k, o).0, RKey(Schedule, Now(w, k).id));
            && rk in w'.remote && w'.remote[rk].ScheduleObj?
            && var c, was, now := Sch(w, k), w.remote[rk].schedule, w'.remote[rk].schedule;
               && now.name == (if c.name == "" then was.name else c.name)
               && now.description == (if c.description == "" then was.description else c.description)
               && now.timeZone == (if c.timeZone == "" then was.timeZone else c.timeZone)
               && now.ownerTeam == (if c.ownerTeam == "" then was.ownerTeam else c.ownerTeam)
               && if c.rotations == [] then now.rotations == was.rotations
                  else Rotations.RotationsFollow(c.rotations, now.rotations)
  {
    var rk := RKey(Schedule, Now(w, k).id);
    FetchStep(w, k, rk, o);
    UpdatesWhatDiffers(w, k, rk, o);
    Rotations.ConversionFollows(Sch(w, k).rotations);
    assert |Wanted(Sch(w, k))| == |Sch(w, k).rotations|;
  }
}
