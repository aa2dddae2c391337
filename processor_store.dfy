/**
 * The processor-list store: a list of records mirrored from the server, a
 * loading flag and a single error slot, changed by four operations once
 * their remote request has settled.
 */
module ProcessorStore {
  import opened Options
  import opened Processor

  const FetchFailed := "Failed to fetch processor rankings"
  const AddFailed := "Failed to add processor"
  const UpdateFailed := "Failed to update processor"
  const DeleteFailed := "Failed to delete processor"

  /** Whether some entry of `ps` carries identifier `id`. */
  predicate HasId(ps: seq<Processor>, id: Option<int>) {
    exists i :: 0 <= i < |ps| && ps[i].id == id
  }

  /**
   * `findIndex(p => p.id === id)`: the first position holding `id`, or -1
   * when there is none. `null` matches `null`, as with `===`.
   */
  function FindIndex(ps: seq<Processor>, id: Option<int>): (r: int)
    ensures -1 <= r < |ps|
    ensures r == -1 <==> !HasId(ps, id)
    ensures 0 <= r ==> ps[r].id == id && forall j :: 0 <= j < r ==> ps[j].id != id
  {
    if ps == [] then -1
    else if ps[0].id == id then 0
    else
      var k := FindIndex(ps[1..], id);
      if k == -1 then -1 else k + 1
  }

  /**
   * The list after a successful update: the first entry with the argument's
   * id is overwritten by the argument; without such an entry nothing changes.
   */
  function ReplaceFirst(ps: seq<Processor>, p: Processor): (r: seq<Processor>)
    ensures |r| == |ps|
    ensures !HasId(ps, p.id) ==> r == ps
    ensures forall k :: 0 <= k < |ps| && ps[k].id == p.id && (forall j :: 0 <= j < k ==> ps[j].id != p.id) ==>
      r[k] == p && forall j :: 0 <= j < |ps| && j != k ==> r[j] == ps[j]
  {
    var i := FindIndex(ps, p.id);
    if i == -1 then ps else ps[i := p]
  }

  /** The updated record is in the list afterwards exactly when its id was present before. */
  lemma ReplaceFirstContains(ps: seq<Processor>, p: Processor)
    ensures p in ReplaceFirst(ps, p) <==> HasId(ps, p.id)
  {
    var i := FindIndex(ps, p.id);
    if i != -1 {
      assert ReplaceFirst(ps, p)[i] == p;
    }
  }

  /** Repeating an update with the same record changes nothing more. */
  lemma ReplaceFirstIdempotent(ps: seq<Processor>, p: Processor)
    ensures ReplaceFirst(ReplaceFirst(ps, p), p) == ReplaceFirst(ps, p)
  {
    var i := FindIndex(ps, p.id);
    if i != -1 {
      var r := ReplaceFirst(ps, p);
      assert r[i] == p;
      assert FindIndex(r, p.id) == i by {
        forall j | 0 <= j < i ensures r[j].id != p.id {
          assert r[j] == ps[j];
        }
      }
    }
  }

  /** `filter(p => p.id !== id)`: every entry whose id is not `id`, in order. */
  function RemoveId(ps: seq<Processor>, id: int): (r: seq<Processor>)
    ensures |r| <= |ps|
    ensures forall x :: x in r <==> x in ps && x.id != Some(id)
  {
    if ps == [] then []
    else if ps[0].id == Some(id) then RemoveId(ps[1..], id)
    else [ps[0]] + RemoveId(ps[1..], id)
  }

  /** The number of entries of `ps` that carry identifier `id`. */
  function Occurrences(ps: seq<Processor>, id: int): nat {
    if ps == [] then 0
    else (if ps[0].id == Some(id) then 1 else 0) + Occurrences(ps[1..], id)
  }

  /** Removing splits over concatenation: survivors of each part keep their relative order. */
  lemma {:induction false} RemoveIdAppend(a: seq<Processor>, b: seq<Processor>, id: int)
    ensures RemoveId(a + b, id) == RemoveId(a, id) + RemoveId(b, id)
  {
    if a == [] {
      assert a + b == b;
    } else {
      assert (a + b)[1..] == a[1..] + b;
      RemoveIdAppend(a[1..], b, id);
    }
  }

  /** No entry with the id left means the filter keeps the list exactly. */
  lemma {:induction false} RemoveIdAbsent(ps: seq<Processor>, id: int)
    requires forall i :: 0 <= i < |ps| ==> ps[i].id != Some(id)
    ensures RemoveId(ps, id) == ps
  {
    if ps != [] {
      RemoveIdAbsent(ps[1..], id);
    }
  }

  /** Deleting the same id twice is the same as deleting it once. */
  lemma RemoveIdIdempotent(ps: seq<Processor>, id: int)
    ensures RemoveId(RemoveId(ps, id), id) == RemoveId(ps, id)
  {
    var r := RemoveId(ps, id);
    forall i | 0 <= i < |r| ensures r[i].id != Some(id) {
      assert r[i] in r;
    }
    RemoveIdAbsent(r, id);
  }

  /** Exactly the entries carrying the id are dropped. */
  lemma {:induction false} RemoveIdLength(ps: seq<Processor>, id: int)
    ensures |RemoveId(ps, id)| + Occurrences(ps, id) == |ps|
  {
    if ps != [] {
      RemoveIdLength(ps[1..], id);
    }
  }

  /** With the id held by exactly one entry, the list shrinks by exactly one. */
  lemma RemoveIdUnique(ps: seq<Processor>, id: int, k: nat)
    requires k < |ps| && ps[k].id == Some(id)
    requires forall j :: 0 <= j < |ps| && j != k ==> ps[j].id != Some(id)
    ensures RemoveId(ps, id) == ps[..k] + ps[k + 1..]
    ensures |RemoveId(ps, id)| == |ps| - 1
  {
    var before, after := ps[..k], ps[k + 1..];
    assert ps == before + ([ps[k]] + after);
    forall j | 0 <= j < |before| ensures before[j].id != Some(id) {
      assert before[j] == ps[j];
    }
    forall j | 0 <= j < |after| ensures after[j].id != Some(id) {
      assert after[j] == ps[k + 1 + j];
    }
    RemoveIdAbsent(before, id);
    RemoveIdAbsent(after, id);
    RemoveIdAppend(before, [ps[k]] + after, id);
    assert RemoveId([ps[k]] + after, id) == RemoveId(after, id);
  }

  /** Removing a record that was just added by a successful add undoes the add. */
  lemma AddThenDelete(ps: seq<Processor>, p: Processor, id: int)
    requires p.id == Some(id)
    ensures RemoveId(ps + [p], id) == RemoveId(ps, id)
  {
    RemoveIdAppend(ps, [p], id);
  }

  /** Once an id is deleted, updating a record with that id leaves the list as it is. */
  lemma DeleteThenUpdate(ps: seq<Processor>, p: Processor, id: int)
    requires p.id == Some(id)
    ensures ReplaceFirst(RemoveId(ps, id), p) == RemoveId(ps, id)
  {
    var r := RemoveId(ps, id);
    forall i | 0 <= i < |r| ensures r[i].id != p.id {
      assert r[i] in r;
    }
  }

  /**
   * The state of one `useProcessors()` instance. The methods model each
   * operation from the moment its request settles, as one atomic step.
   */
  class Store {
    var processors: seq<Processor>
    var loading: bool
    var error: Option<string>

    /** The state before the mount-time fetch: empty, loading, no error. */
    constructor ()
      ensures processors == [] && loading && error == None
    {
      processors := [];
      loading := true;
      error := None;
    }

    /**
     * `fetchProcessors`: on success the list becomes the mapped response and
     * the error slot is left as it was; on failure the list is kept and the
     * error slot gets the fetch message. Either way loading ends false.
     */
    method Fetch(response: Response<seq<RawProcessor>>)
      modifies this
      ensures !loading
      ensures response.Success? ==> processors == FromRawAll(response.payload) && error == old(error)
      ensures response.Failure? ==> processors == old(processors) && error == Some(FetchFailed)
    {
      loading := true;
      match response {
        case Success(raws) =>
          processors := FromRawAll(raws);
        case Failure =>
          error := Some(FetchFailed);
      }
      loading := false;
    }

    /**
     * `addProcessor`: on success the server's record is appended as it was
     * returned; on failure the error slot gets the add message.
     */
    method Add(response: Response<Processor>)
      modifies this
      ensures loading == old(loading)
      ensures response.Success? ==>
        processors == old(processors) + [response.payload] && error == old(error)
      ensures response.Failure? ==> processors == old(processors) && error == Some(AddFailed)
    {
      match response {
        case Success(created) =>
          processors := processors + [created];
        case Failure =>
          error := Some(AddFailed);
      }
    }

    /**
     * `updateProcessor`: on success the first entry with the argument's id is
     * overwritten in place, and nothing happens when no entry matches; on
     * failure the error slot gets the update message.
     */
    method Update(updated: Processor, response: Response<()>)
      modifies this
      ensures loading == old(loading)
      ensures response.Success? ==>
        processors == ReplaceFirst(old(processors), updated) && error == old(error)
      ensures response.Failure? ==> processors == old(processors) && error == Some(UpdateFailed)
    {
      match response {
        case Success(_) =>
          var index := FindIndex(processors, updated.id);
          if index != -1 {
            processors := processors[index := updated];
          }
        case Failure =>
          error := Some(UpdateFailed);
      }
    }

    /**
     * `deleteProcessor`: on success every entry with that id is filtered
     * out; on failure the error slot gets the delete message.
     */
    method Delete(id: int, response: Response<()>)
      modifies this
      ensures loading == old(loading)
      ensures response.Success? ==> processors == RemoveId(old(processors), id) && error == old(error)
      ensures response.Failure? ==> processors == old(processors) && error == Some(DeleteFailed)
    {
      match response {
        case Success(_) =>
          processors := RemoveId(processors, id);
        case Failure =>
          error := Some(DeleteFailed);
      }
    }
  }
}
