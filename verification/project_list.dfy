/** The pure list operations behind the CMS editor's buttons: upsert by id
    on save, delete by id, and appending a before/after comparison to the
    projects with a given id. */
module ProjectList {
  import opened Seqs
  import opened Portfolio

  /** `findIndex(p => p.id === id)`: the first position holding `id`, or -1. */
  function IndexOfId(ps: seq<Project>, id: string): (k: int)
    ensures -1 <= k < |ps|
    ensures k >= 0 ==> ps[k].id == id
    ensures k >= 0 ==> forall j :: 0 <= j < k ==> ps[j].id != id
    ensures k == -1 <==> forall j :: 0 <= j < |ps| ==> ps[j].id != id
  {
    if |ps| == 0 then -1
    else if ps[0].id == id then 0
    else
      var k := IndexOfId(ps[1..], id);
      if k == -1 then -1 else k + 1
  }

  /** The list `saveProject` builds: the record replaces the first one
      with its id, or is appended when no record has that id. */
  function Upsert(ps: seq<Project>, p: Project): seq<Project>
  {
    var k := IndexOfId(ps, p.id);
    if k >= 0 then ps[k := p] else ps + [p]
  }

  /** Upserting a record whose id is at position k replaces position k and nothing else. */
  lemma UpsertExisting(ps: seq<Project>, p: Project, k: nat)
    requires k < |ps| && ps[k].id == p.id
    requires forall j :: 0 <= j < k ==> ps[j].id != p.id
    ensures |Upsert(ps, p)| == |ps|
    ensures Upsert(ps, p)[k] == p
    ensures forall j :: 0 <= j < |ps| && j != k ==> Upsert(ps, p)[j] == ps[j]
  {
    var i := IndexOfId(ps, p.id);
    assert i == k;
  }

  /** Upserting a record whose id is absent appends it. */
  lemma UpsertAbsent(ps: seq<Project>, p: Project)
    requires forall j :: 0 <= j < |ps| ==> ps[j].id != p.id
    ensures Upsert(ps, p) == ps + [p]
    ensures |Upsert(ps, p)| == |ps| + 1
    ensures Upsert(ps, p)[..|ps|] == ps
  {
    assert (ps + [p])[..|ps|] == ps;
  }

  /** Upsert keeps ids pairwise distinct. */
  lemma UpsertKeepsUniqueIds(ps: seq<Project>, p: Project)
    requires UniqueIds(ps)
    ensures UniqueIds(Upsert(ps, p))
  {
    var k := IndexOfId(ps, p.id);
    var r := Upsert(ps, p);
    if k >= 0 {
      forall i, j | 0 <= i < j < |r|
        ensures r[i].id != r[j].id
      {
        assert r[i].id == ps[i].id && r[j].id == ps[j].id;
      }
    } else {
      forall i, j | 0 <= i < j < |r|
        ensures r[i].id != r[j].id
      {
        if j == |ps| {
          assert r[i] == ps[i];
        } else {
          assert r[i] == ps[i] && r[j] == ps[j];
        }
      }
    }
  }

  /** `filter(p => p.id !== id)`: every record except those with `id`, in order. */
  function RemoveId(ps: seq<Project>, id: string): (r: seq<Project>)
    ensures |r| <= |ps|
  {
    if |ps| == 0 then []
    else if ps[0].id == id then RemoveId(ps[1..], id)
    else [ps[0]] + RemoveId(ps[1..], id)
  }

  /** Deletion removes exactly the records carrying `id` and keeps the rest
      in order, every copy of a duplicated record included: the result is
      as long as the number of records whose id differs. */
  lemma {:induction false} RemoveIdExact(ps: seq<Project>, id: string)
    ensures forall p :: p in RemoveId(ps, id) <==> p in ps && p.id != id
    ensures IsSubsequence(RemoveId(ps, id), ps)
    ensures |RemoveId(ps, id)| == Count(ps, (p: Project) => p.id != id)
  {
    if |ps| > 0 {
      RemoveIdExact(ps[1..], id);
      var rest := RemoveId(ps[1..], id);
      assert ps == [ps[0]] + ps[1..];
      if ps[0].id != id {
        assert ([ps[0]] + rest)[1..] == rest;
      }
    }
  }

  /** Deleting an id no record carries changes nothing. */
  lemma {:induction false} RemoveAbsentId(ps: seq<Project>, id: string)
    requires forall j :: 0 <= j < |ps| ==> ps[j].id != id
    ensures RemoveId(ps, id) == ps
  {
    if |ps| > 0 {
      RemoveAbsentId(ps[1..], id);
      assert ps == [ps[0]] + ps[1..];
    }
  }

  /** With distinct ids, deleting the id at position k removes exactly position k. */
  lemma {:induction false} RemoveUniqueId(ps: seq<Project>, k: nat)
    requires UniqueIds(ps) && k < |ps|
    ensures RemoveId(ps, ps[k].id) == ps[..k] + ps[k + 1..]
    ensures |RemoveId(ps, ps[k].id)| == |ps| - 1
  {
    var id := ps[k].id;
    if k == 0 {
      RemoveAbsentId(ps[1..], id);
    } else {
      assert UniqueIds(ps[1..]);
      RemoveUniqueId(ps[1..], k - 1);
      assert ps[1..][k - 1] == ps[k];
      assert ps[1..][..k - 1] + ps[1..][k..] == ps[1..k] + ps[k + 1..];
      assert [ps[0]] + ps[1..k] == ps[..k];
    }
  }

  /** Putting a record in front of a list keeps ids distinct when its id is new. */
  lemma ConsKeepsUniqueIds(p: Project, rest: seq<Project>)
    requires UniqueIds(rest)
    requires forall j :: 0 <= j < |rest| ==> rest[j].id != p.id
    ensures UniqueIds([p] + rest)
  {
    var r := [p] + rest;
    forall i, j | 0 <= i < j < |r|
      ensures r[i].id != r[j].id
    {
      if i > 0 {
        assert r[i] == rest[i - 1] && r[j] == rest[j - 1];
      } else {
        assert r[j] == rest[j - 1];
      }
    }
  }

  /** Deletion keeps ids pairwise distinct. */
  lemma {:induction false} RemoveKeepsUniqueIds(ps: seq<Project>, id: string)
    requires UniqueIds(ps)
    ensures UniqueIds(RemoveId(ps, id))
  {
    if |ps| > 0 {
      assert UniqueIds(ps[1..]);
      RemoveKeepsUniqueIds(ps[1..], id);
      if ps[0].id != id {
        var rest := RemoveId(ps[1..], id);
        forall j | 0 <= j < |rest|
          ensures rest[j].id != ps[0].id
        {
          RemoveIdExact(ps[1..], id);
          assert rest[j] in ps[1..];
        }
        ConsKeepsUniqueIds(ps[0], rest);
      }
    }
  }

  /** `saveBeforeAfterImage`: every record with `id` gets `image` appended
      to its comparisons and `updatedAt` set to `now`; the others are kept. */
  function AddComparison(ps: seq<Project>, id: string, image: BeforeAfterImage, now: string): (r: seq<Project>)
    ensures |r| == |ps|
  {
    seq(|ps|, i requires 0 <= i < |ps| =>
      if ps[i].id == id
      then ps[i].(beforeAfterImages := ps[i].beforeAfterImages + [image], updatedAt := now)
      else ps[i])
  }

  /** Only matching records change, and in them only the comparisons (one
      appended at the end) and `updatedAt`. */
  lemma AddComparisonEffect(ps: seq<Project>, id: string, image: BeforeAfterImage, now: string)
    ensures var r := AddComparison(ps, id, image, now);
      forall i :: 0 <= i < |ps| ==>
        && (ps[i].id != id ==> r[i] == ps[i])
        && (ps[i].id == id ==>
              && r[i].beforeAfterImages == ps[i].beforeAfterImages + [image]
              && r[i].updatedAt == now
              && r[i].(beforeAfterImages := ps[i].beforeAfterImages, updatedAt := ps[i].updatedAt) == ps[i])
  {
  }

  /** Adding a comparison keeps ids pairwise distinct. */
  lemma AddComparisonKeepsUniqueIds(ps: seq<Project>, id: string, image: BeforeAfterImage, now: string)
    requires UniqueIds(ps)
    ensures UniqueIds(AddComparison(ps, id, image, now))
  {
    var r := AddComparison(ps, id, image, now);
    assert forall i :: 0 <= i < |ps| ==> r[i].id == ps[i].id;
  }
}
