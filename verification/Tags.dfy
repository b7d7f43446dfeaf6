/** The tag comparison that decides whether a service is rewritten. */
module Tags {
  import opened Basics

  /** The verdict of the comparison: equal lengths, and every remote tag is a spec tag. */
  predicate TagsAgree(spec: seq<string>, remote: seq<string>) {
    |spec| == |remote| && forall x :: x in remote ==> x in spec
  }

  method EqualStringSlices(a: seq<string>, b: seq<string>) returns (r: bool)
    ensures r == TagsAgree(a, b)
    ensures r <==> |a| == |b| && forall x :: x in b ==> x in a
  {
    if |a| != |b| {
      return false;
    }
    var aMap: map<string, bool> := map[];
    for i := 0 to |a|
      invariant forall x :: x in aMap <==> x in a[..i]
      invariant forall x :: x in aMap ==> aMap[x]
    {
      aMap := aMap[a[i] := true];
    }
    assert a[..|a|] == a;
    for i := 0 to |b|
      invariant forall x :: x in b[..i] ==> x in a
    {
      if b[i] !in aMap {
        assert b[i] in b;
        return false;
      }
    }
    assert b[..|b|] == b;
    return true;
  }

  // Reordered tags are never reported as a difference.
  lemma PermutationsAgree(a: seq<string>, b: seq<string>)
    requires multiset(a) == multiset(b)
    ensures TagsAgree(a, b)
  {
    assert |multiset(a)| == |multiset(b)|;
    forall x | x in b ensures x in a {
      assert x in multiset(b);
    }
  }

  // For remote tags `b`, the verdict is multiset equality against every spec
  // exactly when the remote tags are pairwise distinct.
  lemma TagCheckExactForRemote(b: seq<string>)
    ensures (forall a: seq<string> :: TagsAgree(a, b) <==> multiset(a) == multiset(b)) <==> NoDup(b)
  {
    if NoDup(b) {
      forall a: seq<string> ensures TagsAgree(a, b) <==> multiset(a) == multiset(b) {
        if TagsAgree(a, b) {
          SameLengthCover(a, b);
        }
        if multiset(a) == multiset(b) {
          PermutationsAgree(a, b);
        }
      }
    } else {
      var i, j :| 0 <= i < j < |b| && b[i] == b[j];
      var a := MaskedSpec(b, i, j);
      assert TagsAgree(a, b) && multiset(a) != multiset(b);
    }
  }

  // A spec that hides behind repeated remote tags: one of two equal tags is replaced by a new one.
  lemma MaskedSpec(b: seq<string>, i: nat, j: nat) returns (a: seq<string>)
    requires i < j < |b| && b[i] == b[j]
    ensures TagsAgree(a, b) && multiset(a) != multiset(b)
  {
    var x := Unlike(b);
    UnlikeIsFresh(b);
    a := b[i := x];
    forall y | y in b ensures y in a {
      var n :| 0 <= n < |b| && b[n] == y;
      assert a[if n == i then j else n] == y;
    }
    assert a[i] == x;
    assert x in multiset(a) && x !in multiset(b);
  }

  // For spec tags `a`, the verdict is multiset equality against every remote list
  // exactly when the spec does not hold two different tags.
  lemma TagCheckExactForSpec(a: seq<string>)
    ensures (forall b: seq<string> :: TagsAgree(a, b) <==> multiset(a) == multiset(b))
       <==> (forall i, j :: 0 <= i < j < |a| ==> a[i] == a[j])
  {
    if i, j :| 0 <= i < j < |a| && a[i] != a[j] {
      var b := a[j := a[i]];
      MultisetUpdate(a, j, a[i]);
      forall y | y in b ensures y in a {
      }
      assert multiset(b)[a[i]] == multiset(a)[a[i]] + 1;
      assert TagsAgree(a, b) && multiset(a) != multiset(b);
    } else {
      forall b: seq<string> ensures TagsAgree(a, b) <==> multiset(a) == multiset(b) {
        if TagsAgree(a, b) {
          forall n | 0 <= n < |a| ensures a[n] == b[n] {
            assert b[n] in b;
          }
          assert a == b;
        }
        if multiset(a) == multiset(b) {
          PermutationsAgree(a, b);
        }
      }
    }
  }
}
