/** Team members: their translation and the comparison that decides whether they are rewritten. */
module Members {
  import opened Basics

  /** A member as a team resource lists it. */
  datatype MemberSpec = MemberSpec(userID: string, role: string)

  /** A member as the remote team stores it. */
  datatype Member = Member(username: string, role: string)

  function ToMember(m: MemberSpec): Member {
    Member(m.userID, m.role)
  }

  function ToMembers(ms: seq<MemberSpec>): seq<Member> {
    seq(|ms|, i requires 0 <= i < |ms| => ToMember(ms[i]))
  }

  method MapTeamMembers(members: seq<MemberSpec>) returns (r: seq<Member>)
    ensures r == ToMembers(members)
    ensures |r| == |members|
    ensures forall i :: 0 <= i < |r| ==> r[i].username == members[i].userID && r[i].role == members[i].role
  {
    r := [];
    for i := 0 to |members|
      invariant r == ToMembers(members[..i])
    {
      r := r + [Member(members[i].userID, members[i].role)];
    }
    assert members[..|members|] == members;
  }

  /** The role of the last entry for a user, as a map filled front to back retains it. */
  function LastRole(ms: seq<Member>, user: string): Option<string> {
    if ms == [] then None
    else if ms[|ms| - 1].username == user then Some(ms[|ms| - 1].role)
    else LastRole(ms[..|ms| - 1], user)
  }

  /** Whether the members are rewritten. */
  predicate MembersDiffer(spec: seq<MemberSpec>, existing: seq<Member>) {
    |spec| != |existing| ||
    exists m :: m in spec && LastRole(existing, m.userID) != Some(m.role)
  }

  /** Entry `n` is the last one for its user, and it is the one that the spec wants. */
  predicate LastEntryIs(ms: seq<Member>, n: int, m: MemberSpec) {
    && 0 <= n < |ms| && ms[n].username == m.userID && ms[n].role == m.role
    && forall j :: n < j < |ms| ==> ms[j].username != m.userID
  }

  // The comparison in terms of the entries alone: no member is to be rewritten exactly when the lists are
  // equally long and the last remote entry for each spec user has the wanted role.
  lemma DifferenceExactly(spec: seq<MemberSpec>, existing: seq<Member>)
    ensures !MembersDiffer(spec, existing) <==>
            |spec| == |existing| && forall m :: m in spec ==> exists n :: LastEntryIs(existing, n, m)
  {
    forall m | m in spec
      ensures LastRole(existing, m.userID) == Some(m.role) <==> exists n :: LastEntryIs(existing, n, m)
    {
      if LastRole(existing, m.userID).Some? {
        var i := LastRoleIsAnEntry(existing, m.userID);
        assert LastRole(existing, m.userID) == Some(m.role) ==> LastEntryIs(existing, i, m);
      }
      if n :| LastEntryIs(existing, n, m) {
        LastRoleAt(existing, n);
      }
    }
  }

  method IsMembersUpdateRequired(spec: seq<MemberSpec>, existing: seq<Member>) returns (r: bool)
    ensures r == MembersDiffer(spec, existing)
    ensures !r <==> |spec| == |existing| && forall m :: m in spec ==> exists n :: LastEntryIs(existing, n, m)
  {
    DifferenceExactly(spec, existing);
    if |spec| != |existing| {
      return true;
    }
    var existingMembersMap: map<string, string> := map[];
    for i := 0 to |existing|
      invariant forall u :: LastRole(existing[..i], u)
                            == if u in existingMembersMap then Some(existingMembersMap[u]) else None
    {
      assert existing[..i + 1][..i] == existing[..i];
      existingMembersMap := existingMembersMap[existing[i].username := existing[i].role];
    }
    assert existing[..|existing|] == existing;
    for i := 0 to |spec|
      invariant forall m :: m in spec[..i] ==> LastRole(existing, m.userID) == Some(m.role)
    {
      var m := spec[i];
      if m.userID !in existingMembersMap || existingMembersMap[m.userID] != m.role {
        assert m in spec && LastRole(existing, m.userID) != Some(m.role);
        return true;
      }
    }
    assert spec[..|spec|] == spec;
    return false;
  }

  /** No user is listed twice. */
  predicate DistinctUsers(ms: seq<MemberSpec>) {
    forall i, j :: 0 <= i < j < |ms| ==> ms[i].userID != ms[j].userID
  }

  /** No user is listed with two different roles. */
  predicate RolesConsistent(ms: seq<MemberSpec>) {
    forall i, j :: 0 <= i < j < |ms| && ms[i].userID == ms[j].userID ==> ms[i].role == ms[j].role
  }

  lemma {:induction false} LastRoleIsAnEntry(ms: seq<Member>, user: string) returns (i: int)
    requires LastRole(ms, user).Some?
    ensures 0 <= i < |ms| && ms[i] == Member(user, LastRole(ms, user).value)
    ensures forall j :: i < j < |ms| ==> ms[j].username != user
  {
    if ms[|ms| - 1].username == user {
      i := |ms| - 1;
    } else {
      i := LastRoleIsAnEntry(ms[..|ms| - 1], user);
    }
  }

  // The last entry for a user is found, whatever entries precede it.
  lemma {:induction false} LastRoleAt(ms: seq<Member>, i: nat)
    requires i < |ms|
    requires forall j :: i < j < |ms| ==> ms[j].username != ms[i].username
    ensures LastRole(ms, ms[i].username) == Some(ms[i].role)
  {
    if i < |ms| - 1 {
      LastRoleAt(ms[..|ms| - 1], i);
    }
  }

  // Users with one role each: every entry of the list speaks for its user.
  lemma {:induction false} LastRoleOfConsistent(ms: seq<Member>, i: nat)
    requires i < |ms|
    requires forall j :: 0 <= j < |ms| && ms[j].username == ms[i].username ==> ms[j].role == ms[i].role
    ensures LastRole(ms, ms[i].username) == Some(ms[i].role)
  {
    if ms[|ms| - 1].username != ms[i].username {
      LastRoleOfConsistent(ms[..|ms| - 1], i);
    }
  }

  // When no member is reported as different, distinct spec users force the two lists
  // to hold the same entries, by pigeonhole.
  lemma NoDifferenceMeansSameMembers(spec: seq<MemberSpec>, existing: seq<Member>)
    requires DistinctUsers(spec) && !MembersDiffer(spec, existing)
    ensures multiset(existing) == multiset(ToMembers(spec))
  {
    var want := ToMembers(spec);
    assert NoDup(want) by {
      forall i, j | 0 <= i < j < |want| ensures want[i] != want[j] {
        assert spec[i].userID != spec[j].userID;
      }
    }
    forall x | x in want ensures x in existing {
      var i :| 0 <= i < |want| && want[i] == x;
      assert spec[i] in spec;
      var n := LastRoleIsAnEntry(existing, spec[i].userID);
    }
    SameLengthCover(existing, want);
  }

  lemma SameMembersMeansNoDifference(spec: seq<MemberSpec>, existing: seq<Member>)
    requires DistinctUsers(spec) && multiset(existing) == multiset(ToMembers(spec))
    ensures !MembersDiffer(spec, existing)
  {
    var want := ToMembers(spec);
    assert |existing| == |multiset(existing)| == |want|;
    forall m | m in spec ensures LastRole(existing, m.userID) == Some(m.role) {
      var i :| 0 <= i < |spec| && spec[i] == m;
      assert want[i] in multiset(existing);
      var n :| 0 <= n < |existing| && existing[n] == want[i];
      forall j | 0 <= j < |existing| && existing[j].username == m.userID ensures existing[j].role == m.role {
        assert existing[j] in multiset(want);
        var k :| 0 <= k < |want| && want[k] == existing[j];
        assert spec[k].userID == spec[i].userID;
      }
      LastRoleOfConsistent(existing, n);
    }
  }

  // The comparison decides equality of the two lists as multisets of (user, role), for every
  // remote list, exactly when the spec lists no user twice.
  lemma MemberCheckExact(spec: seq<MemberSpec>)
    ensures (forall e: seq<Member> :: !MembersDiffer(spec, e) <==> multiset(e) == multiset(ToMembers(spec)))
       <==> DistinctUsers(spec)
  {
    if DistinctUsers(spec) {
      forall e: seq<Member>
        ensures !MembersDiffer(spec, e) <==> multiset(e) == multiset(ToMembers(spec))
      {
        if !MembersDiffer(spec, e) {
          NoDifferenceMeansSameMembers(spec, e);
        }
        if multiset(e) == multiset(ToMembers(spec)) {
          SameMembersMeansNoDifference(spec, e);
        }
      }
    } else {
      var e := FooledComparison(spec);
      assert MembersDiffer(spec, e) <==> multiset(e) == multiset(ToMembers(spec));
    }
  }

  // A remote list on which the comparison errs, for a spec that lists some user twice: with two
  // roles the wanted list itself is rejected; with one role an outdated entry goes unnoticed.
  lemma FooledComparison(spec: seq<MemberSpec>) returns (e: seq<Member>)
    requires !DistinctUsers(spec)
    ensures MembersDiffer(spec, e) <==> multiset(e) == multiset(ToMembers(spec))
  {
    var want := ToMembers(spec);
    var i, j :| 0 <= i < j < |spec| && spec[i].userID == spec[j].userID;
    if RolesConsistent(spec) {
      var other := Member(spec[i].userID, spec[i].role + "#");
      e := want[i := other];
      assert other !in want;
      assert e[i] == other && other in multiset(e) && other !in multiset(want);
      forall m | m in spec ensures LastRole(e, m.userID) == Some(m.role) {
        var n := LastListing(spec, m);
        assert n != i;
        assert e[n] == ToMember(m);
        LastRoleAt(e, n);
      }
    } else {
      e := want;
      SelfDifference(spec);
    }
  }

  // The last place where the user of `m` is listed.
  lemma LastListing(spec: seq<MemberSpec>, m: MemberSpec) returns (n: nat)
    requires m in spec && RolesConsistent(spec)
    ensures n < |spec| && spec[n] == m
    ensures forall j :: n < j < |spec| ==> spec[j].userID != m.userID
  {
    n :| 0 <= n < |spec| && spec[n] == m;
    if j :| n < j < |spec| && spec[j].userID == m.userID {
      assert spec[j].role == spec[n].role;
      var rest := LastListing(spec[j..], m);
      n := j + rest;
      forall k | n < k < |spec| ensures spec[k].userID != m.userID {
        assert spec[j..][k - j] == spec[k];
      }
    }
  }

  // A remote list that was just written is reported as different exactly when the spec
  // gives one user two roles.
  lemma SelfDifference(spec: seq<MemberSpec>)
    ensures MembersDiffer(spec, ToMembers(spec)) <==> !RolesConsistent(spec)
  {
    var want := ToMembers(spec);
    if RolesConsistent(spec) {
      forall m | m in spec ensures LastRole(want, m.userID) == Some(m.role) {
        var i :| 0 <= i < |spec| && spec[i] == m;
        assert want[i] == ToMember(m);
        LastRoleOfConsistent(want, i);
      }
    } else {
      var i, j :| 0 <= i < j < |spec| && spec[i].userID == spec[j].userID && spec[i].role != spec[j].role;
      assert spec[i] in spec && spec[j] in spec;
      assert || LastRole(want, spec[i].userID) != Some(spec[i].role)
             || LastRole(want, spec[j].userID) != Some(spec[j].role);
    }
  }
}
