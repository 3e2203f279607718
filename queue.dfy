/** The job-URL queue of the dashboard page: its entries and the list transforms
    behind adding a batch of URLs (a `map` into fresh pending entries followed by
    an append) and removing one by id (an order-preserving `filter`). */
module Queue {

  /** Processing state of a queued job. */
  datatype Status = Pending | Processing | Completed | Failed

  /** One queued job. `addedAt` is the creation time in milliseconds. */
  datatype JobUrl = JobUrl(id: string, url: string, title: string, status: Status, addedAt: int)

  /** The entry `handleAddUrls` builds for `url` from a fresh id and the current time. */
  function NewEntry(url: string, id: string, stamp: int): JobUrl {
    JobUrl(id, url, [], Pending, stamp)
  }

  /** `urls.map(url => ({ id, url, title: "", status: "pending", addedAt }))`, the ids
      and times being the values the id source and the clock hand out, one per URL. */
  function NewEntries(urls: seq<string>, ids: seq<string>, stamps: seq<int>): (r: seq<JobUrl>)
    requires |ids| == |urls| && |stamps| == |urls|
    ensures |r| == |urls|
  {
    if urls == [] then []
    else [NewEntry(urls[0], ids[0], stamps[0])] + NewEntries(urls[1..], ids[1..], stamps[1..])
  }

  /** Entry `i` of a new batch carries URL `i` verbatim, id `i`, time `i`, no title
      and the pending status. */
  lemma {:induction false} NewEntriesAt(urls: seq<string>, ids: seq<string>, stamps: seq<int>, i: nat)
    requires |ids| == |urls| && |stamps| == |urls|
    requires i < |urls|
    ensures NewEntries(urls, ids, stamps)[i] == JobUrl(ids[i], urls[i], [], Pending, stamps[i])
  {
    if i > 0 {
      NewEntriesAt(urls[1..], ids[1..], stamps[1..], i - 1);
    }
  }

  /** The ids of the queue, in queue order. */
  function Ids(q: seq<JobUrl>): (r: seq<string>)
    ensures |r| == |q|
  {
    if q == [] then [] else [q[0].id] + Ids(q[1..])
  }

  lemma {:induction false} IdsAt(q: seq<JobUrl>, i: nat)
    requires i < |q|
    ensures Ids(q)[i] == q[i].id
  {
    if i > 0 {
      IdsAt(q[1..], i - 1);
    }
  }

  /** No two entries share an id. */
  predicate UniqueIds(q: seq<JobUrl>) {
    forall i, j :: 0 <= i < j < |q| ==> q[i].id != q[j].id
  }

  /** Every entry is pending: the only status the page ever creates. */
  predicate AllPending(q: seq<JobUrl>) {
    forall i :: 0 <= i < |q| ==> q[i].status == Pending
  }

  /** `ids` are pairwise distinct and none of them is already in the queue: what
      `crypto.randomUUID` is relied on to give. */
  predicate FreshIds(q: seq<JobUrl>, ids: seq<string>) {
    (forall i, j :: 0 <= i < j < |ids| ==> ids[i] != ids[j])
    && (forall i, k :: 0 <= i < |ids| && 0 <= k < |q| ==> ids[i] != q[k].id)
  }

  /** Appending a batch keeps every entry pending. */
  lemma AddKeepsAllPending(q: seq<JobUrl>, urls: seq<string>, ids: seq<string>, stamps: seq<int>)
    requires |ids| == |urls| && |stamps| == |urls|
    requires AllPending(q)
    ensures AllPending(q + NewEntries(urls, ids, stamps))
  {
    var b := NewEntries(urls, ids, stamps);
    forall i | 0 <= i < |b| ensures b[i].status == Pending {
      NewEntriesAt(urls, ids, stamps, i);
    }
  }

  /** Appending a batch with fresh ids keeps the ids unique. */
  lemma AddKeepsUnique(q: seq<JobUrl>, urls: seq<string>, ids: seq<string>, stamps: seq<int>)
    requires |ids| == |urls| && |stamps| == |urls|
    requires UniqueIds(q) && FreshIds(q, ids)
    ensures UniqueIds(q + NewEntries(urls, ids, stamps))
  {
    var b := NewEntries(urls, ids, stamps);
    forall i | 0 <= i < |b| ensures b[i].id == ids[i] {
      NewEntriesAt(urls, ids, stamps, i);
    }
  }

  /** `q.filter(e => e.id !== id)`. */
  function RemoveById(q: seq<JobUrl>, id: string): (r: seq<JobUrl>)
    ensures |r| <= |q|
  {
    if q == [] then []
    else if q[0].id == id then RemoveById(q[1..], id)
    else [q[0]] + RemoveById(q[1..], id)
  }

  /** The filter keeps exactly the entries whose id differs from `id`. */
  lemma {:induction false} RemoveByIdMembers(q: seq<JobUrl>, id: string, e: JobUrl)
    ensures e in RemoveById(q, id) <==> e in q && e.id != id
  {
    if q != [] {
      RemoveByIdMembers(q[1..], id, e);
      assert e in q <==> e == q[0] || e in q[1..];
    }
  }

  /** The filter is order preserving: it distributes over concatenation. */
  lemma {:induction false} RemoveByIdConcat(a: seq<JobUrl>, b: seq<JobUrl>, id: string)
    ensures RemoveById(a + b, id) == RemoveById(a, id) + RemoveById(b, id)
  {
    if a == [] {
      assert a + b == b;
    } else {
      assert (a + b)[0] == a[0];
      assert (a + b)[1..] == a[1..] + b;
      RemoveByIdConcat(a[1..], b, id);
    }
  }

  /** Removing an id that no entry carries leaves the queue unchanged. */
  lemma {:induction false} RemoveAbsent(q: seq<JobUrl>, id: string)
    requires id !in Ids(q)
    ensures RemoveById(q, id) == q
  {
    if q != [] {
      assert Ids(q) == [q[0].id] + Ids(q[1..]);
      RemoveAbsent(q[1..], id);
      assert [q[0]] + q[1..] == q;
    }
  }

  /** With unique ids, removing the id of entry `k` removes that entry and no other,
      so the queue shrinks by exactly one. */
  lemma RemovePresentUnique(q: seq<JobUrl>, k: nat)
    requires UniqueIds(q) && k < |q|
    ensures RemoveById(q, q[k].id) == q[..k] + q[k + 1..]
    ensures |RemoveById(q, q[k].id)| == |q| - 1
  {
    var id := q[k].id;
    assert q == q[..k] + ([q[k]] + q[k + 1..]);
    RemoveByIdConcat(q[..k], [q[k]] + q[k + 1..], id);
    RemoveByIdConcat([q[k]], q[k + 1..], id);
    assert [q[k]][1..] == [];
    forall i | 0 <= i < k ensures Ids(q[..k])[i] != id {
      IdsAt(q[..k], i);
    }
    RemoveAbsent(q[..k], id);
    var after := q[k + 1..];
    forall i | 0 <= i < |after| ensures Ids(after)[i] != id {
      IdsAt(after, i);
    }
    RemoveAbsent(after, id);
  }

  /** Removing an entry keeps the remaining ids unique. */
  lemma {:induction false} RemoveKeepsUnique(q: seq<JobUrl>, id: string)
    requires UniqueIds(q)
    ensures UniqueIds(RemoveById(q, id))
  {
    if q != [] {
      RemoveKeepsUnique(q[1..], id);
      var rest := RemoveById(q[1..], id);
      if q[0].id != id {
        forall e | e in rest ensures e.id != q[0].id {
          RemoveByIdMembers(q[1..], id, e);
        }
        UniqueCons(q[0], rest);
      }
    }
  }

  lemma UniqueCons(e: JobUrl, q: seq<JobUrl>)
    requires UniqueIds(q)
    requires forall x :: x in q ==> x.id != e.id
    ensures UniqueIds([e] + q)
  {
  }

  /** Removing an entry keeps every remaining entry pending. */
  lemma RemoveKeepsAllPending(q: seq<JobUrl>, id: string)
    requires AllPending(q)
    ensures AllPending(RemoveById(q, id))
  {
  }

  /** Removing the same id twice is removing it once. */
  lemma RemoveIdempotent(q: seq<JobUrl>, id: string)
    ensures RemoveById(RemoveById(q, id), id) == RemoveById(q, id)
  {
  }
}
