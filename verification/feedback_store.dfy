/**
 * The backend's feedback collection and the handlers that write to it:
 * CreateFeedback, DeleteFeedback and DeleteManyFeedback. The collection is
 * an opaque store of documents keyed by id: creating under an id that is
 * already taken fails, and so does deleting an id that is not there.
 */
module FeedbackStore {
  import opened Wrappers
  import opened JsValues
  import opened FeedbackCreation

  /** The `{success, message}` envelope a handler returns. */
  datatype Response = Response(success: bool, message: string)

  const CreatedMessage := "Feedback created successfully"
  const CreateFallbackMessage := "Error creating feedback"
  const DeletedMessage := "Delete the feedback"
  const DeleteFailedMessage := "Failed to Delete the feedback"

  /** `error.message || "Error creating feedback"` in CreateFeedback's catch block. */
  function CaughtMessage(errorMessage: string): string {
    OrString(Some(errorMessage), CreateFallbackMessage)
  }

  /**
   * The backend's answers to a run of delete calls: `Refused(refusals, i)`
   * says that it refused the i-th call for a reason of its own (network,
   * permission, rate limit), whether or not the document exists. Calls past
   * the end of the list are not refused.
   */
  predicate Refused(refusals: seq<bool>, i: nat) {
    i < |refusals| && refusals[i]
  }

  /** The answers to the calls from the n-th on. */
  function Drop(refusals: seq<bool>, n: nat): seq<bool> {
    if n <= |refusals| then refusals[n..] else []
  }

  /** The i-th answer after dropping n is the (n + i)-th answer. */
  lemma DropRefused(refusals: seq<bool>, n: nat, i: nat)
    ensures Refused(Drop(refusals, n), i) == Refused(refusals, n + i)
  {
  }

  /** The outcome of deleting a list of ids one by one: the final store, and the index whose delete failed. */
  datatype DeleteRun<D> = DeleteRun(store: map<string, D>, failedAt: Option<nat>)

  /** A run over a suffix that starts at index `k` of the full list. */
  function Shift<D>(run: DeleteRun<D>, k: nat): DeleteRun<D> {
    DeleteRun(run.store, if run.failedAt.Some? then Some(run.failedAt.value + k) else None)
  }

  /**
   * Delete `ids` in index order, stopping at the first delete that fails:
   * the id is not in the store at the moment its turn comes, or the backend
   * refuses that call.
   */
  function DeleteInOrder<D>(store: map<string, D>, ids: seq<string>, refusals: seq<bool>): (r: DeleteRun<D>)
    ensures r.failedAt.Some? ==> r.failedAt.value < |ids|
    ensures r.store.Keys <= store.Keys
    decreases |ids|
  {
    if ids == [] then DeleteRun(store, None)
    else if ids[0] !in store || Refused(refusals, 0) then DeleteRun(store, Some(0))
    else Shift(DeleteInOrder(store - {ids[0]}, ids[1..], Drop(refusals, 1)), 1)
  }

  /** No id occurs twice. */
  predicate Distinct(ids: seq<string>) {
    forall i, j :: 0 <= i < j < |ids| ==> ids[i] != ids[j]
  }

  /** The store with the ids in `ids` removed. */
  function RemoveAll<D>(store: map<string, D>, ids: seq<string>): map<string, D> {
    map x | x in store && x !in ids :: store[x]
  }

  /** How many deletes of the run succeeded: the failing index, or the whole list. */
  function Completed<D>(r: DeleteRun<D>, ids: seq<string>): nat {
    if r.failedAt.Some? then r.failedAt.value else |ids|
  }

  /** The deletes before the failing index removed exactly their ids and nothing else. */
  lemma {:induction false} DeleteRunStore<D>(store: map<string, D>, ids: seq<string>, refusals: seq<bool>)
    ensures var r := DeleteInOrder(store, ids, refusals);
      Completed(r, ids) <= |ids| && r.store == RemoveAll(store, ids[..Completed(r, ids)])
    decreases |ids|
  {
    if ids != [] && ids[0] in store && !Refused(refusals, 0) {
      var rest := store - {ids[0]};
      DeleteRunStore(rest, ids[1..], Drop(refusals, 1));
      var k' := Completed(DeleteInOrder(rest, ids[1..], Drop(refusals, 1)), ids[1..]);
      assert ids[..k' + 1] == [ids[0]] + ids[1..][..k'];
      assert RemoveAll(store, ids[..k' + 1]) == RemoveAll(rest, ids[1..][..k']);
    } else {
      assert RemoveAll(store, ids[..0]) == store;
    }
  }

  /** The deletes before the failing index were of distinct, stored ids, none refused. */
  lemma {:induction false} DeleteRunPrefix<D>(store: map<string, D>, ids: seq<string>, refusals: seq<bool>)
    ensures var k := Completed(DeleteInOrder(store, ids, refusals), ids);
      && Distinct(ids[..k])
      && (forall i :: 0 <= i < k ==> ids[i] in store && !Refused(refusals, i))
    decreases |ids|
  {
    if ids != [] && ids[0] in store && !Refused(refusals, 0) {
      var rest := store - {ids[0]};
      var tail := Drop(refusals, 1);
      DeleteRunPrefix(rest, ids[1..], tail);
      var k' := Completed(DeleteInOrder(rest, ids[1..], tail), ids[1..]);
      forall i | 0 < i <= k'
        ensures ids[i] == ids[1..][i - 1] && Refused(tail, i - 1) == Refused(refusals, i)
      {
        DropRefused(refusals, 1, i - 1);
      }
      assert ids[..k' + 1] == [ids[0]] + ids[1..][..k'];
    }
  }

  /** A failure at k means the backend refused that call or ids[k] was no longer stored. */
  lemma {:induction false} DeleteRunFailure<D>(store: map<string, D>, ids: seq<string>, refusals: seq<bool>)
    ensures var r := DeleteInOrder(store, ids, refusals);
      r.failedAt.Some? ==>
        var k := r.failedAt.value;
        Refused(refusals, k) || ids[k] !in store || ids[k] in ids[..k]
    decreases |ids|
  {
    if ids != [] && ids[0] in store && !Refused(refusals, 0) {
      var rest := store - {ids[0]};
      var tail := Drop(refusals, 1);
      DeleteRunFailure(rest, ids[1..], tail);
      var r' := DeleteInOrder(rest, ids[1..], tail);
      if r'.failedAt.Some? {
        var k' := r'.failedAt.value;
        DropRefused(refusals, 1, k');
        assert ids[1..][k'] == ids[k' + 1];
        assert ids[..k' + 1] == [ids[0]] + ids[1..][..k'];
      }
    }
  }

  /**
   * The whole outcome of a bulk delete. With `k` the failing index (or the
   * length of the list when none fails): ids 0..k-1 were all present, once
   * each, and not refused, and are gone; nothing else changed, so ids after
   * k were never touched; and a failure at k means the backend refused that
   * call or ids[k] was absent by then, either never stored or already
   * deleted earlier in the same list.
   */
  lemma DeleteInOrderOutcome<D>(store: map<string, D>, ids: seq<string>, refusals: seq<bool>)
    ensures var r := DeleteInOrder(store, ids, refusals);
            var k := if r.failedAt.Some? then r.failedAt.value else |ids|;
      && k <= |ids|
      && Distinct(ids[..k])
      && (forall i :: 0 <= i < k ==> ids[i] in store && !Refused(refusals, i))
      && r.store == RemoveAll(store, ids[..k])
      && (r.failedAt.Some? ==> Refused(refusals, k) || ids[k] !in store || ids[k] in ids[..k])
  {
    DeleteRunStore(store, ids, refusals);
    DeleteRunPrefix(store, ids, refusals);
    DeleteRunFailure(store, ids, refusals);
  }

  /** A bulk delete succeeds exactly when the ids are distinct, all stored, and no call is refused. */
  lemma {:induction false} DeleteSucceedsIff<D>(store: map<string, D>, ids: seq<string>, refusals: seq<bool>)
    ensures DeleteInOrder(store, ids, refusals).failedAt.None? <==>
              Distinct(ids) && forall i :: 0 <= i < |ids| ==> ids[i] in store && !Refused(refusals, i)
  {
    DeleteInOrderOutcome(store, ids, refusals);
    var r := DeleteInOrder(store, ids, refusals);
    if r.failedAt.Some? {
      var k := r.failedAt.value;
      if ids[k] in store && !Refused(refusals, k) {
        var j :| 0 <= j < k && ids[..k][j] == ids[k];
        assert ids[j] == ids[k];
      }
    } else {
      assert ids[..|ids|] == ids;
    }
  }

  /** On success every listed id is gone and every other document is untouched. */
  lemma DeleteSuccessRemovesExactly<D>(store: map<string, D>, ids: seq<string>, refusals: seq<bool>)
    requires DeleteInOrder(store, ids, refusals).failedAt.None?
    ensures DeleteInOrder(store, ids, refusals).store == RemoveAll(store, ids)
    ensures |DeleteInOrder(store, ids, refusals).store| == |store| - |ids|
  {
    DeleteInOrderOutcome(store, ids, refusals);
    assert ids[..|ids|] == ids;
    DeletedCount(store, ids);
  }

  /** Removing distinct stored ids shrinks the store by their number. */
  lemma {:induction false} DeletedCount<D>(store: map<string, D>, ids: seq<string>)
    requires Distinct(ids)
    requires forall i :: 0 <= i < |ids| ==> ids[i] in store
    ensures |RemoveAll(store, ids)| == |store| - |ids|
    decreases |ids|
  {
    if ids != [] {
      var rest := store - {ids[0]};
      assert rest.Keys == store.Keys - {ids[0]};
      assert |rest.Keys| == |store.Keys| - 1;
      DeletedCount(rest, ids[1..]);
      assert forall x :: x in ids <==> x == ids[0] || x in ids[1..] by {
        assert ids == [ids[0]] + ids[1..];
      }
      assert RemoveAll(store, ids) == RemoveAll(rest, ids[1..]);
    } else {
      assert RemoveAll(store, ids) == store;
    }
  }

  /** An empty list succeeds and changes nothing, whatever the backend would have answered. */
  lemma DeleteNothing<D>(store: map<string, D>, refusals: seq<bool>)
    ensures DeleteInOrder(store, [], refusals) == DeleteRun(store, None)
  {
  }

  /**
   * Deleting [a, b, c] when a is deleted and the delete of b fails (b is not
   * stored, or the backend refuses it): a is gone, the call fails at index 1,
   * and every other document, c included, is as it was.
   */
  lemma MiddleDeleteFails<D>(store: map<string, D>, a: string, b: string, c: string, refusals: seq<bool>)
    requires a in store && !Refused(refusals, 0)
    requires b !in store || b == a || Refused(refusals, 1)
    ensures var r := DeleteInOrder(store, [a, b, c], refusals);
      r.failedAt == Some(1) && r.store == store - {a}
  {
    assert [a, b, c][1..] == [b, c];
    DropRefused(refusals, 1, 0);
    assert DeleteInOrder(store - {a}, [b, c], Drop(refusals, 1)) == DeleteRun(store - {a}, Some(0));
    DeleteInOrderOutcome(store, [a, b, c], refusals);
    assert [a, b, c][..1] == [a];
    assert RemoveAll(store, [a]) == store - {a};
  }

  /**
   * The backend's feedback collection, with the handlers that change it.
   * `errorMessage` is the message the backend puts on the exception it
   * raises when it refuses a write.
   */
  class FeedbackCollection {
    var docs: map<string, FeedbackRecord>
    const errorMessage: string

    constructor (initial: map<string, FeedbackRecord>, refusal: string)
      ensures docs == initial && errorMessage == refusal
    {
      docs := initial;
      errorMessage := refusal;
    }

    /**
     * `databases.createDocument`: fails, changing nothing, when the backend
     * refuses the call (`refused`) or the id is already taken.
     */
    method CreateDocument(id: string, rec: FeedbackRecord, refused: bool) returns (ok: bool)
      modifies this
      ensures ok <==> !refused && id !in old(docs)
      ensures docs == if ok then old(docs)[id := rec] else old(docs)
    {
      ok := !refused && id !in docs;
      if ok {
        docs := docs[id := rec];
      }
    }

    /**
     * `databases.deleteDocument`: fails, changing nothing, when the backend
     * refuses the call (`refused`) or the id is not stored.
     */
    method DeleteDocument(id: string, refused: bool) returns (ok: bool)
      modifies this
      ensures ok <==> !refused && id in old(docs)
      ensures docs == if ok then old(docs) - {id} else old(docs)
    {
      ok := !refused && id in docs;
      if ok {
        docs := docs - {id};
      }
    }

    /**
     * CreateFeedback, with `id` the identifier ID.unique() produced and
     * `refused` the backend's answer to the write. A failed check reports its
     * own message and writes nothing; otherwise exactly one document, the
     * prepared record, is written under `id`, unless the write fails.
     */
    method CreateFeedback(input: FeedbackInput, id: string, refused: bool) returns (r: Response)
      modifies this
      ensures PrepareFeedback(input).Failure? ==>
                r == Response(false, PrepareFeedback(input).error) && docs == old(docs)
      ensures PrepareFeedback(input).Success? && !refused && id !in old(docs) ==>
                r == Response(true, CreatedMessage) && docs == old(docs)[id := PrepareFeedback(input).value]
      ensures PrepareFeedback(input).Success? && (refused || id in old(docs)) ==>
                r == Response(false, CaughtMessage(errorMessage)) && docs == old(docs)
    {
      match PrepareFeedback(input)
      case Failure(e) =>
        ValidationMessagesDistinct();
        r := Response(false, CaughtMessage(e));
      case Success(rec) =>
        var ok := CreateDocument(id, rec, refused);
        if ok {
          r := Response(true, CreatedMessage);
        } else {
          r := Response(false, CaughtMessage(errorMessage));
        }
    }

    /** DeleteFeedback: one delete, reported as success or failure. */
    method DeleteFeedback(id: string, refused: bool) returns (r: Response)
      modifies this
      ensures r.success <==> !refused && id in old(docs)
      ensures r.message == if r.success then DeletedMessage else DeleteFailedMessage
      ensures docs == if r.success then old(docs) - {id} else old(docs)
    {
      var ok := DeleteDocument(id, refused);
      r := if ok then Response(true, DeletedMessage) else Response(false, DeleteFailedMessage);
    }

    /**
     * DeleteManyFeedback: delete the ids one at a time in index order and stop
     * at the first delete that fails; `refusals` are the backend's answers to
     * the successive calls. The new collection is exactly what DeleteInOrder
     * says; the call succeeds only if no delete failed.
     */
    method DeleteManyFeedback(ids: seq<string>, refusals: seq<bool>) returns (r: Response)
      modifies this
      ensures docs == DeleteInOrder(old(docs), ids, refusals).store
      ensures r.success <==> DeleteInOrder(old(docs), ids, refusals).failedAt.None?
      ensures r.message == if r.success then DeletedMessage else DeleteFailedMessage
    {
      var i := 0;
      while i < |ids|
        invariant 0 <= i <= |ids|
        invariant DeleteInOrder(old(docs), ids, refusals) == Shift(DeleteInOrder(docs, ids[i..], Drop(refusals, i)), i)
      {
        DropRefused(refusals, i, 0);
        var ok := DeleteDocument(ids[i], Refused(refusals, i));
        if !ok {
          r := Response(false, DeleteFailedMessage);
          return;
        }
        assert ids[i..][1..] == ids[i + 1..];
        assert Drop(Drop(refusals, i), 1) == Drop(refusals, i + 1);
        i := i + 1;
      }
      r := Response(true, DeletedMessage);
    }
  }
}
