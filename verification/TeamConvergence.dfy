/** What one undisturbed reconcile of a team achieves, and when repeating it reaches agreement. */
module TeamConvergence {
  import opened Environment
  import opened Programs
  import opened Protocol
  import opened Undisturbed
  import Members

  ghost predicate Ready(w: World, k: Key) {
    StoresOk(w) && k.kind.Team? && k in w.hist
  }

  function Tm(w: World, k: Key): TeamSpec
    requires k in w.hist && w.hist[k] != [] && SpecFits(Team, Now(w, k).spec)
  {
    Now(w, k).spec.team
  }

  /** `rk` is the remote team that bears the spec's name. */
  ghost predicate Bearer(w: World, k: Key, rk: RKey)
    requires Ready(w, k)
  {
    rk.kind.Team? && rk in w.remote && w.remote[rk].team.name == Tm(w, k).name
  }

  /** The members after both partial updates. */
  function MembersAfter(team: TeamSpec, was: RemoteTeam): seq<Members.Member> {
    if Members.MembersDiffer(team.members, was.members)
    then OrSeq(was.members, Members.ToMembers(team.members))
    else was.members
  }

  function Brought(team: TeamSpec, was: RemoteTeam): RemoteTeam {
    RemoteTeam(was.name, Or(was.description, team.description), MembersAfter(team, was))
  }

  /** Nothing but resource `k` and object `rk` has changed. */
  ghost predicate OnlyThese(w: World, w': World, k: Key, rk: RKey) {
    && w'.hist.Keys == w.hist.Keys && w'.remote.Keys == w.remote.Keys && (k in w'.hist ==> w'.hist[k] != [])
    && (forall k' :: k' in w.hist && k' != k ==> w'.hist[k'] == w.hist[k'])
    && (forall r :: r in w.remote && r != rk ==> w'.remote[r] == w.remote[r])
  }

  // The second half of a reconcile: members are rewritten if the earlier read showed a difference,
  // and nothing else is touched.
  lemma DescribedSolo(w: World, s: Snap, team: TeamSpec, seen: RemoteTeam, cur: RemoteTeam, o: Oracle)
    requires StoresOk(w) && Fresh(w, s) && s.key.kind.Team? && s.id != ""
    requires RKey(Team, s.id) in w.remote && w.remote[RKey(Team, s.id)] == TeamObj(cur)
    ensures var (w', outcome) := Solo(w, TeamDescribed(s, team, seen), o);
            && outcome == Requeue(5) && OnlyThese(w, w', s.key, RKey(Team, s.id))
            && Now(w', s.key) == Now(w, s.key)
            && w'.remote[RKey(Team, s.id)] == TeamObj(cur.(members :=
                 if Members.MembersDiffer(team.members, seen.members)
                 then OrSeq(cur.members, Members.ToMembers(team.members)) else cur.members))
  {
    if Members.MembersDiffer(team.members, seen.members) {
      MembersStep(w, s, team, cur, o);
      SavedTouchesOnly(w, s, TeamObj(cur.(members := OrSeq(cur.members, Members.ToMembers(team.members)))));
    }
  }

  // A change of one object and a status write touch nothing else.
  lemma SavedTouchesOnly(w: World, s: Snap, obj: Obj)
    requires Fresh(w, s) && RKey(Team, s.id) in w.remote
    ensures var w' := WithId(Apply(w, Patched(RKey(Team, s.id), obj)), s.key, s.id);
            && OnlyThese(w, w', s.key, RKey(Team, s.id)) && Now(w', s.key) == Now(w, s.key)
            && w'.remote[RKey(Team, s.id)] == obj
  {
  }

  lemma MembersStep(w: World, s: Snap, team: TeamSpec, cur: RemoteTeam, o: Oracle)
    requires StoresOk(w) && Fresh(w, s) && s.key.kind.Team?
    requires RKey(Team, s.id) in w.remote && w.remote[RKey(Team, s.id)] == TeamObj(cur)
    ensures var now := TeamObj(cur.(members := OrSeq(cur.members, Members.ToMembers(team.members))));
            Solo(w, OnTeam(s, team, TeamMembers), o)
            == (WithId(Apply(w, Patched(RKey(Team, s.id), now)), s.key, s.id), Requeue(5))
  {
    NoClash(w, RKey(Team, s.id));
    UpdateEnds(w, OnTeam(s, team, TeamMembers), o,
               TeamObj(cur.(members := OrSeq(cur.members, Members.ToMembers(team.members)))));
  }

  lemma MetaStep(w: World, s: Snap, team: TeamSpec, was: RemoteTeam, o: Oracle)
    requires StoresOk(w) && Fresh(w, s) && s.key.kind.Team?
    requires RKey(Team, s.id) in w.remote && w.remote[RKey(Team, s.id)] == TeamObj(was) && was.name == team.name
    ensures var cur := was.(description := Or(was.description, team.description));
            var w1 := Apply(w, Patched(RKey(Team, s.id), TeamObj(cur)));
            && Solo(w, OnTeam(s, team, TeamMeta(was)), o) == Solo(w1, OnTeam(s, team, TeamMetaSave(was)), o)
            && StoresOk(w1) && Fresh(w1, s)
  {
    var rk, obj := RKey(Team, s.id), TeamObj(was.(description := Or(was.description, team.description)));
    NoClash(w, rk);
    assert Serve(w, TeamRequest(s, team, TeamMeta(was)), o) == (Updated, Patched(rk, obj));
    SoloStep(w, OnTeam(s, team, TeamMeta(was)), o, Updated, Patched(rk, obj));
    PatchedStaysOk(w, rk, obj);
  }

  // The whole update of a known team: name and description first, then the members.
  lemma KnownSolo(w: World, s: Snap, team: TeamSpec, was: RemoteTeam, o: Oracle)
    requires StoresOk(w) && Fresh(w, s) && s.key.kind.Team? && s.id != ""
    requires RKey(Team, s.id) in w.remote && w.remote[RKey(Team, s.id)] == TeamObj(was) && was.name == team.name
    ensures var (w', outcome) := Solo(w, TeamKnown(s, team, was), o);
            && outcome == Requeue(5) && OnlyThese(w, w', s.key, RKey(Team, s.id))
            && Now(w', s.key) == Now(w, s.key)
            && w'.remote[RKey(Team, s.id)] == TeamObj(Brought(team, was))
  {
    if MetaDiffers(team, was) {
      MetaThenMembers(w, s, team, was, o);
    } else {
      DescribedSolo(w, s, team, was, was, o);
    }
  }

  // Each half is followed by a status write; the second half sees what the first one left.
  lemma MetaThenMembers(w: World, s: Snap, team: TeamSpec, was: RemoteTeam, o: Oracle)
    requires StoresOk(w) && Fresh(w, s) && s.key.kind.Team? && s.id != ""
    requires RKey(Team, s.id) in w.remote && w.remote[RKey(Team, s.id)] == TeamObj(was) && was.name == team.name
    ensures var cur := was.(description := Or(was.description, team.description));
            var w1 := WithId(Apply(w, Patched(RKey(Team, s.id), TeamObj(cur))), s.key, s.id);
            var (w', outcome) := Solo(w, OnTeam(s, team, TeamMeta(was)), o);
            && outcome == Requeue(5) && OnlyThese(w1, w', s.key, RKey(Team, s.id)) && Now(w', s.key) == Now(w, s.key)
            && w'.remote[RKey(Team, s.id)] == TeamObj(Brought(team, was))
  {
    MetaStep(w, s, team, was, o);
    var cur := was.(description := Or(was.description, team.description));
    var w1 := Apply(w, Patched(RKey(Team, s.id), TeamObj(cur)));
    SaveStep(w1, s, team, was, o);
    AppendedStaysOk(w1, s.key, CR(Now(w1, s.key).spec, s.id));
    DescribedSolo(WithId(w1, s.key, s.id), s.(ver := s.ver + 1), team, was, cur, o);
  }

  lemma SaveStep(w: World, s: Snap, team: TeamSpec, seen: RemoteTeam, o: Oracle)
    requires Fresh(w, s)
    ensures Solo(w, OnTeam(s, team, TeamMetaSave(seen)), o)
         == Solo(WithId(w, s.key, s.id), TeamDescribed(s.(ver := s.ver + 1), team, seen), o)
    ensures Fresh(WithId(w, s.key, s.id), s.(ver := s.ver + 1))
  {
  }

  lemma ImportStep(w: World, s: Snap, team: TeamSpec, id: string, seen: RemoteTeam, o: Oracle)
    requires Fresh(w, s)
    ensures Solo(w, OnTeam(s, team, TeamImport(id, seen)), o)
         == Solo(WithId(w, s.key, id), TeamKnown(Snap(s.key, id, s.ver + 1), team, seen), o)
    ensures Fresh(WithId(w, s.key, id), Snap(s.key, id, s.ver + 1))
  {
  }

  lemma FoundStep(w: World, k: Key, rk: RKey, o: Oracle)
    requires Ready(w, k) && Bearer(w, k, rk)
    ensures var next := TeamFound(SnapNow(w, k), Tm(w, k), rk.id, w.remote[rk].team);
            Reconcile(w, k, o) == Solo(w, next, o) && Quiet(w, Begin(k), o) == Quiet(w, next, o)
    ensures rk.id != ""
  {
    BeginSolo(w, k, o);
    LookupSolo(w, rk, o);
    SoloStep(w, OnTeam(SnapNow(w, k), Tm(w, k), TeamGet), o, GotObj(rk.id, w.remote[rk]), Nothing);
  }

  // Adoption: whatever the status holds, the reconcile ends with the id of the remote team that bears
  // the name, creates nothing, and brings that team as far as its two partial updates can.
  lemma AdoptsByName(w: World, k: Key, rk: RKey, o: Oracle)
    requires Ready(w, k) && Bearer(w, k, rk)
    ensures var (w', outcome) := Reconcile(w, k, o);
            && outcome == Requeue(5) && OnlyThese(w, w', k, rk)
            && Now(w', k) == CR(Now(w, k).spec, rk.id)
            && w'.remote[rk] == TeamObj(Brought(Tm(w, k), w.remote[rk].team))
  {
    FoundStep(w, k, rk, o);
    var s, team, was := SnapNow(w, k), Tm(w, k), w.remote[rk].team;
    assert rk == RKey(Team, rk.id) && w.remote[rk] == TeamObj(was);
    if s.id != rk.id {
      ImportStep(w, s, team, rk.id, was, o);
      AppendedStaysOk(w, k, CR(Now(w, k).spec, rk.id));
      KnownSolo(WithId(w, k, rk.id), Snap(k, rk.id, s.ver + 1), team, was, o);
    } else {
      KnownSolo(w, s, team, was, o);
    }
  }

  // A name that no remote team bears leads to one create with everything the spec says.
  lemma CreatesWhatIsWanted(w: World, k: Key, o: Oracle)
    requires Ready(w, k) && !NameTaken(w, Team, Tm(w, k).name) && FreshId(w, o.newId)
    ensures var made := TeamObj(RemoteTeam(Tm(w, k).name, Tm(w, k).description, Members.ToMembers(Tm(w, k).members)));
            Reconcile(w, k, o) == (WithId(Apply(w, Added(RKey(Team, o.newId), made)), k, o.newId), Requeue(5))
  {
    BeginSolo(w, k, o);
    CreateStep(w, SnapNow(w, k), Tm(w, k), o);
  }

  lemma CreateStep(w: World, s: Snap, team: TeamSpec, o: Oracle)
    requires Fresh(w, s) && s.key.kind.Team? && !NameTaken(w, Team, team.name)
    ensures var made := TeamObj(RemoteTeam(team.name, team.description, Members.ToMembers(team.members)));
            Solo(w, OnTeam(s, team, TeamGet), o)
            == (WithId(Apply(w, Added(RKey(Team, o.newId), made)), s.key, o.newId), Requeue(5))
  {
    var made := TeamObj(RemoteTeam(team.name, team.description, Members.ToMembers(team.members)));
    SoloStep(w, OnTeam(s, team, TeamGet), o, NotFound, Nothing);
    CreateEnds(w, OnTeam(s, team, TeamCreate), o, made, Requeue(5));
  }

  // The two updates decide on one earlier read, yet together they leave exactly the wanted team,
  // provided that no field they send is absent while the remote one is set.
  lemma PartialUpdatesCompose(team: TeamSpec, was: RemoteTeam)
    requires was.name == team.name && Members.DistinctUsers(team.members)
    ensures var now := Brought(team, was);
            && now.name == team.name
            && (now.description == team.description <==> team.description != "" || was.description == "")
            && (multiset(now.members) == multiset(Members.ToMembers(team.members))
                <==> team.members != [] || was.members == [])
  {
    var want := Members.ToMembers(team.members);
    if !Members.MembersDiffer(team.members, was.members) {
      Members.NoDifferenceMeansSameMembers(team.members, was.members);
      assert |was.members| == |team.members|;
    } else if team.members == [] {
      assert want == [] && was.members != [];
      assert was.members[0] in multiset(was.members);
    }
  }

  // ---- convergence --------------------------------------------------------------------

  /** Agreement cannot be reached: a user has two roles, or an absent field is set remotely. */
  ghost predicate Stuck(w: World, k: Key)
    requires Ready(w, k)
  {
    || !Members.RolesConsistent(Tm(w, k).members)
    || exists rk :: Bearer(w, k, rk) && FieldsStuck(Tm(w, k), w.remote[rk].team)
  }

  /** A user has two roles, or a field is absent from the spec and set remotely. */
  predicate FieldsStuck(team: TeamSpec, was: RemoteTeam) {
    || !Members.RolesConsistent(team.members)
    || (team.description == "" && was.description != "")
    || (team.members == [] && was.members != [])
  }

  predicate Agrees(team: TeamSpec, id: string, rk: RKey, seen: RemoteTeam) {
    id == rk.id && !MetaDiffers(team, seen) && !Members.MembersDiffer(team.members, seen.members)
  }

  /** How far a team is from agreement: no such team, a different id or field, nothing. */
  ghost function Rank(w: World, k: Key): nat
    requires Ready(w, k)
  {
    if !NameTaken(w, Team, Tm(w, k).name) then 2
    else if exists rk :: Bearer(w, k, rk) && Agrees(Tm(w, k), Now(w, k).id, rk, w.remote[rk].team) then 0
    else 1
  }

  lemma BearerExists(w: World, k: Key) returns (rk: RKey)
    requires Ready(w, k) && NameTaken(w, Team, Tm(w, k).name)
    ensures Bearer(w, k, rk)
    ensures forall r :: Bearer(w, k, r) ==> r == rk
  {
    var id :| RKey(Team, id) in w.remote && ObjName(w.remote[RKey(Team, id)]) == Tm(w, k).name;
    rk := RKey(Team, id);
  }

  // A member list without differences shows every user in one role.
  lemma NoDifferenceMeansConsistent(spec: seq<Members.MemberSpec>, existing: seq<Members.Member>)
    requires !Members.MembersDiffer(spec, existing)
    ensures Members.RolesConsistent(spec)
  {
    forall i, j | 0 <= i < j < |spec| && spec[i].userID == spec[j].userID
      ensures spec[i].role == spec[j].role
    {
      assert spec[i] in spec && spec[j] in spec;
    }
  }

  // A remote team that was brought along agrees unless it was stuck, and stays stuck if it was.
  lemma BroughtAgrees(team: TeamSpec, was: RemoteTeam)
    requires was.name == team.name
    ensures var now := Brought(team, was);
            && (!MetaDiffers(team, now) && !Members.MembersDiffer(team.members, now.members)
                <==> !FieldsStuck(team, was))
            && (FieldsStuck(team, now) <==> FieldsStuck(team, was))
  {
    Members.SelfDifference(team.members);
    if !Members.MembersDiffer(team.members, was.members) {
      assert |was.members| == |team.members|;
      NoDifferenceMeansConsistent(team.members, was.members);
    }
  }

  lemma BearerAfter(w: World, w': World, k: Key, rk: RKey)
    requires Ready(w, k) && Ready(w', k) && Bearer(w', k, rk)
    ensures NameTaken(w', Team, Tm(w', k).name)
    ensures Rank(w', k) == (if Agrees(Tm(w', k), Now(w', k).id, rk, w'.remote[rk].team) then 0 else 1)
    ensures Stuck(w', k) <==> FieldsStuck(Tm(w', k), w'.remote[rk].team)
  {
  }

  lemma BearerMeansTaken(w: World, k: Key)
    requires Ready(w, k)
    ensures (exists rk :: Bearer(w, k, rk)) <==> NameTaken(w, Team, Tm(w, k).name)
  {
    if rk :| Bearer(w, k, rk) {
      assert rk == RKey(Team, rk.id);
    }
    if NameTaken(w, Team, Tm(w, k).name) {
      var rk := BearerExists(w, k);
    }
  }

  lemma AdoptionSettles(w: World, k: Key, rk: RKey, o: Oracle)
    requires Ready(w, k) && Bearer(w, k, rk) && FreshId(w, o.newId)
    ensures var w' := Reconcile(w, k, o).0;
            && Ready(w', k) && Now(w', k).spec == Now(w, k).spec
            && Rank(w', k) == (if Stuck(w, k) then 1 else 0) && Stuck(w', k) == Stuck(w, k)
  {
    AdoptsByName(w, k, rk, o);
    ReconcileKeepsStores(w, k, o);
    var w' := Reconcile(w, k, o).0;
    BroughtAgrees(Tm(w, k), w.remote[rk].team);
    BearerAfter(w, w, k, rk);
    BearerAfter(w, w', k, rk);
  }

  lemma CreateSettles(w: World, k: Key, o: Oracle)
    requires Ready(w, k) && Rank(w, k) == 2 && FreshId(w, o.newId)
    ensures var w' := Reconcile(w, k, o).0;
            && Ready(w', k) && Now(w', k).spec == Now(w, k).spec
            && Rank(w', k) == (if Stuck(w, k) then 1 else 0) && Stuck(w', k) == Stuck(w, k)
  {
    CreatesWhatIsWanted(w, k, o);
    ReconcileKeepsStores(w, k, o);
    var w' := Reconcile(w, k, o).0;
    Members.SelfDifference(Tm(w, k).members);
    BearerAfter(w, w', k, RKey(Team, o.newId));
    BearerMeansTaken(w, k);
  }

  // A team that agrees with its spec is left alone: no write is issued.
  lemma AgreementIsQuiet(w: World, k: Key, o: Oracle)
    requires Ready(w, k) && Rank(w, k) == 0
    ensures Quiet(w, Begin(k), o) && Reconcile(w, k, o).0 == w
  {
    var rk :| Bearer(w, k, rk) && Agrees(Tm(w, k), Now(w, k).id, rk, w.remote[rk].team);
    FoundStep(w, k, rk, o);
    QuietChangesNothing(w, Begin(k), o);
  }

  // From any state one undisturbed reconcile reaches agreement and further ones issue no write,
  // unless the team is stuck; then it stays stuck however often it is reconciled.
  lemma {:induction false} TeamConvergence(w: World, k: Key, os: seq<Oracle>)
    requires Ready(w, k) && AllFresh(w, k, os) && os != []
    ensures var w' := Repeated(w, k, os);
            && Ready(w', k) && Now(w', k).spec == Now(w, k).spec
            && (Rank(w', k) == 0 <==> !Stuck(w, k)) && (Rank(w', k) != 0 ==> Rank(w', k) == 1)
            && (Rank(w', k) == 0 ==> forall o :: Quiet(w', Begin(k), o) && Reconcile(w', k, o).0 == w')
    decreases |os|
  {
    var w1 := Reconcile(w, k, os[0]).0;
    if NameTaken(w, Team, Tm(w, k).name) {
      var rk := BearerExists(w, k);
      AdoptionSettles(w, k, rk, os[0]);
    } else {
      CreateSettles(w, k, os[0]);
    }
    if |os| > 1 {
      TeamConvergence(w1, k, os[1..]);
      assert Repeated(w, k, os) == Repeated(w1, k, os[1..]);
    } else {
      assert os[1..] == [] && Repeated(w1, k, []) == w1;
      if Rank(w1, k) == 0 {
        forall o ensures Quiet(w1, Begin(k), o) && Reconcile(w1, k, o).0 == w1 {
          AgreementIsQuiet(w1, k, o);
        }
      }
    }
  }

  // Stuck teams are reached: one that was created with a description sticks once an edit clears it.
  lemma ClearedDescriptionSticks(w: World, k: Key, o: Oracle)
    requires Ready(w, k) && Tm(w, k).description != "" && FreshId(w, o.newId) && !NameTaken(w, Team, Tm(w, k).name)
    ensures var w' := Edited(Reconcile(w, k, o).0, k, TeamCR(Tm(w, k).(description := "")));
            Ready(w', k) && Rank(w', k) == 1 && Stuck(w', k)
  {
    CreatesWhatIsWanted(w, k, o);
    ReconcileKeepsStores(w, k, o);
    var spec, w1 := TeamCR(Tm(w, k).(description := "")), Reconcile(w, k, o).0;
    AppendedStaysOk(w1, k, CR(spec, o.newId));
    BearerAfter(w1, Edited(w1, k, spec), k, RKey(Team, o.newId));
  }

  // ---- in the fields themselves -------------------------------------------------------

  /** The remote team of that name has the id in the status, the spec's description, as many members, and
      for every spec member a last entry with its role. */
  ghost predicate InAgreement(w: World, k: Key, rk: RKey)
    requires Ready(w, k)
  {
    && rk.kind.Team? && rk in w.remote && rk.id == Now(w, k).id
    && var team, seen := Tm(w, k), w.remote[rk].team;
       && seen.name == team.name && seen.description == team.description
       && |seen.members| == |team.members|
       && forall m :: m in team.members ==> exists n :: Members.LastEntryIs(seen.members, n, m)
  }

  lemma RankZeroExactly(w: World, k: Key)
    requires Ready(w, k)
    ensures Rank(w, k) == 0 <==> exists rk :: InAgreement(w, k, rk)
  {
    forall rk | Bearer(w, k, rk)
      ensures Agrees(Tm(w, k), Now(w, k).id, rk, w.remote[rk].team) <==> InAgreement(w, k, rk)
    {
      Members.DifferenceExactly(Tm(w, k).members, w.remote[rk].team.members);
    }
    BearerMeansTaken(w, k);
    if rk :| InAgreement(w, k, rk) {
      assert Bearer(w, k, rk);
    }
  }

  // A reconcile of a team writes nothing exactly when it is in agreement in these fields.
  lemma QuietExactly(w: World, k: Key, o: Oracle)
    requires Ready(w, k)
    ensures Quiet(w, Begin(k), o) <==> exists rk :: InAgreement(w, k, rk)
  {
    RankZeroExactly(w, k);
    if Rank(w, k) == 0 {
      AgreementIsQuiet(w, k, o);
    } else if NameTaken(w, Team, Tm(w, k).name) {
      var rk := BearerExists(w, k);
      BearerAfter(w, w, k, rk);
      FoundStep(w, k, rk, o);
      var next := TeamFound(SnapNow(w, k), Tm(w, k), rk.id, w.remote[rk].team);
      assert !next.Done? && IsWrite(RequestOf(next));
    } else {
      AbsentIsCreated(w, k, o);
    }
  }

  lemma AbsentIsCreated(w: World, k: Key, o: Oracle)
    requires Ready(w, k) && !NameTaken(w, Team, Tm(w, k).name)
    ensures !Quiet(w, Begin(k), o)
  {
    BeginSolo(w, k, o);
    SoloStep(w, OnTeam(SnapNow(w, k), Tm(w, k), TeamGet), o, NotFound, Nothing);
    assert !Quiet(w, OnTeam(SnapNow(w, k), Tm(w, k), TeamCreate), o);
  }
}
