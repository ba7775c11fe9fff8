/**
 * The pending queue and the process state of the bot: the global
 * `transactions_list`, the remote cache holding the pending list, the
 * dialogues in flight, and the requests made of the two endpoints.
 * The dispatcher, the cache writer and the fetch are external: what they
 * answer is passed in as a parameter.
 */
module Queue {

  import opened Wrappers
  import opened Taxonomy
  import opened Records
  import Dialogue

  /** One dialogue in flight, attached to the dictionary it categorises. */
  datatype Session = Session(tx: Transaction, machine: Dialogue.Machine)

  /** How save_category ends: confirmed, or which endpoint raised. */
  datatype CommitOutcome = Confirmed | DispatchError | CacheWriteError

  /**
   * The list comprehension of remove_transaction_from_transaction_list: the
   * entries whose uuid differs from the committed one, in their order.
   */
  function Remaining(txs: seq<TxData>, uuid: string): (r: seq<TxData>)
    ensures |r| <= |txs|
    ensures forall x :: x in r <==> x in txs && x.uuid != uuid
    decreases |txs|
  {
    if txs == [] then []
    else (if txs[0].uuid != uuid then [txs[0]] else []) + Remaining(txs[1..], uuid)
  }

  /** The filter works entry by entry, so it keeps the relative order of what it keeps. */
  lemma {:induction false} RemainingAppend(a: seq<TxData>, b: seq<TxData>, uuid: string)
    ensures Remaining(a + b, uuid) == Remaining(a, uuid) + Remaining(b, uuid)
    decreases |a|
  {
    if a == [] {
      assert a + b == b;
    } else {
      assert (a + b)[0] == a[0] && (a + b)[1..] == a[1..] + b;
      RemainingAppend(a[1..], b, uuid);
    }
  }

  /** When no entry carries the uuid, every entry is kept, in place. */
  lemma {:induction false} RemainingKeepsOthers(txs: seq<TxData>, uuid: string)
    requires forall i :: 0 <= i < |txs| ==> txs[i].uuid != uuid
    ensures Remaining(txs, uuid) == txs
    decreases |txs|
  {
    if txs != [] {
      RemainingKeepsOthers(txs[1..], uuid);
    }
  }

  /** The number of entries removed is the number that carry the uuid. */
  function CountWith(txs: seq<TxData>, uuid: string): nat
    decreases |txs|
  {
    if txs == [] then 0 else (if txs[0].uuid == uuid then 1 else 0) + CountWith(txs[1..], uuid)
  }

  lemma {:induction false} RemainingLength(txs: seq<TxData>, uuid: string)
    ensures |Remaining(txs, uuid)| == |txs| - CountWith(txs, uuid)
    decreases |txs|
  {
    if txs != [] {
      RemainingLength(txs[1..], uuid);
    }
  }

  /** Removing the same uuid twice removes nothing more. */
  lemma RemainingIdempotent(txs: seq<TxData>, uuid: string)
    ensures Remaining(Remaining(txs, uuid), uuid) == Remaining(txs, uuid)
  {
    var r := Remaining(txs, uuid);
    forall i | 0 <= i < |r| ensures r[i].uuid != uuid {
      assert r[i] in r;
    }
    RemainingKeepsOthers(r, uuid);
  }

  /** The current contents of a list of dictionaries, as they would be serialised. */
  function Snapshots(txs: seq<Transaction>): (r: seq<TxData>)
    reads txs
    ensures |r| == |txs|
    ensures forall i :: 0 <= i < |txs| ==> r[i] == txs[i].Snapshot()
    decreases |txs|
  {
    if txs == [] then [] else [txs[0].Snapshot()] + Snapshots(txs[1..])
  }

  /** One fresh dialogue per transaction, in list order. */
  function Presented(txs: seq<Transaction>): seq<Session>
  {
    seq(|txs|, i requires 0 <= i < |txs| => Session(txs[i], Dialogue.Start()))
  }

  /** The JSON decoding in get_transactions: one new dictionary per fetched object. */
  method Decode(data: seq<TxData>) returns (txs: seq<Transaction>)
    ensures |txs| == |data|
    ensures forall i :: 0 <= i < |txs| ==> fresh(txs[i])
    ensures forall i, j :: 0 <= i < j < |txs| ==> txs[i] != txs[j]
    ensures Snapshots(txs) == data
  {
    txs := [];
    var i := 0;
    while i < |data|
      invariant 0 <= i <= |data| && |txs| == i
      invariant forall j :: 0 <= j < i ==> fresh(txs[j]) && txs[j].Snapshot() == data[j]
      invariant forall j, k :: 0 <= j < k < i ==> txs[j] != txs[k]
    {
      var t := new Transaction(data[i]);
      txs := txs + [t];
      i := i + 1;
    }
  }

  class Bot {
    /** The global `transactions_list`: the dictionaries fetched by the latest cycle. */
    var transactionsList: seq<Transaction>
    /** The pending list held by the remote cache. */
    var cacheValue: seq<TxData>
    /** Every value sent to the cache writer, accepted or not, oldest first. */
    var cacheWrites: seq<seq<TxData>>
    /** Every record sent to the dispatcher, oldest first. */
    var dispatched: seq<TxData>
    /** Every dialogue attached so far, oldest first; none is ever detached. */
    var sessions: seq<Session>
    /** Whether the on_ready loop is still running. */
    var polling: bool

    /** Every dialogue is a well-formed machine, and none is stopped half-way through a save. */
    ghost predicate Valid()
      reads this
    {
      forall i :: 0 <= i < |sessions| ==>
        Dialogue.Valid(sessions[i].machine) && !sessions[i].machine.state.Committing?
    }

    /** Start-up: the list is empty; the remote cache holds whatever it held. */
    constructor (cache: seq<TxData>)
      ensures Valid() && polling
      ensures transactionsList == [] && sessions == []
      ensures cacheValue == cache && cacheWrites == [] && dispatched == []
    {
      transactionsList := [];
      cacheValue := cache;
      cacheWrites := [];
      dispatched := [];
      sessions := [];
      polling := true;
    }

    /** send_transaction_to_n8n: posts the record; `accepted` is false when raise_for_status raises. */
    method Dispatch(tx: Transaction, accepted: bool) returns (ok: bool)
      modifies this`dispatched
      ensures dispatched == old(dispatched) + [tx.Snapshot()]
      ensures ok == accepted
    {
      dispatched := dispatched + [tx.Snapshot()];
      ok := accepted;
    }

    /** update_transaction_cache: overwrites the cache only when the request is accepted. */
    method UpdateCache(value: seq<TxData>, accepted: bool) returns (ok: bool)
      modifies this`cacheValue, this`cacheWrites
      ensures cacheWrites == old(cacheWrites) + [value]
      ensures cacheValue == if accepted then value else old(cacheValue)
      ensures ok == accepted
    {
      cacheWrites := cacheWrites + [value];
      if accepted {
        cacheValue := value;
      }
      ok := accepted;
    }

    /**
     * remove_transaction_from_transaction_list: writes the global list without
     * the transaction's uuid to the cache; the global list itself is not
     * reassigned.
     */
    method RemoveTransaction(tx: Transaction, accepted: bool) returns (ok: bool)
      modifies this`cacheValue, this`cacheWrites
      ensures transactionsList == old(transactionsList)
      ensures cacheWrites == old(cacheWrites) + [Remaining(Snapshots(transactionsList), tx.uuid)]
      ensures cacheValue == if accepted then Remaining(Snapshots(transactionsList), tx.uuid) else old(cacheValue)
      ensures ok == accepted
    {
      var remaining := Remaining(Snapshots(transactionsList), tx.uuid);
      ok := UpdateCache(remaining, accepted);
    }

    /**
     * save_category: writes the choice into the dictionary, dispatches it, and
     * only if the dispatch succeeded removes it from the cached pending list.
     */
    method SaveCategory(tx: Transaction, category: string, subcategory: string, remarks: Option<string>,
                        accepted: bool, cacheAccepted: bool) returns (outcome: CommitOutcome)
      modifies this`dispatched, this`cacheValue, this`cacheWrites, tx
      ensures tx.Snapshot() == Saved(old(tx.Snapshot()), category, subcategory, remarks)
      ensures dispatched == old(dispatched) + [tx.Snapshot()]
      ensures cacheWrites ==
                if accepted then old(cacheWrites) + [Remaining(Snapshots(transactionsList), tx.uuid)]
                else old(cacheWrites)
      ensures cacheValue ==
                if accepted && cacheAccepted then Remaining(Snapshots(transactionsList), tx.uuid)
                else old(cacheValue)
      ensures outcome == if !accepted then DispatchError else if !cacheAccepted then CacheWriteError else Confirmed
    {
      tx.Save(category, subcategory, remarks);
      var sent := Dispatch(tx, accepted);
      if !sent {
        return DispatchError;
      }
      var written := RemoveTransaction(tx, cacheAccepted);
      outcome := if written then Confirmed else CacheWriteError;
    }

    /** process_transactions: posts each transaction, in list order, with a fresh dialogue. */
    method ProcessTransactions(txs: seq<Transaction>)
      requires Valid()
      modifies this`sessions
      ensures Valid()
      ensures sessions == old(sessions) + Presented(txs)
    {
      var i := 0;
      while i < |txs|
        invariant 0 <= i <= |txs|
        invariant sessions == old(sessions) + Presented(txs[..i])
        invariant Valid()
      {
        assert Presented(txs[..i + 1]) == Presented(txs[..i]) + [Session(txs[i], Dialogue.Start())];
        sessions := sessions + [Session(txs[i], Dialogue.Start())];
        i := i + 1;
      }
      assert txs[..i] == txs;
    }

    /**
     * One pass of the on_ready loop. A fetch that fails raises out of the
     * loop, which then stops for good; otherwise the global list is replaced
     * by the fetched dictionaries and each gets a fresh dialogue.
     */
    method SyncCycle(fetched: Option<seq<TxData>>)
      requires Valid() && polling
      modifies this
      ensures Valid()
      ensures cacheValue == old(cacheValue) && cacheWrites == old(cacheWrites) && dispatched == old(dispatched)
      ensures fetched.None? ==>
                !polling && transactionsList == old(transactionsList) && sessions == old(sessions)
      ensures fetched.Some? ==>
                && polling
                && Snapshots(transactionsList) == fetched.value
                && (forall i :: 0 <= i < |transactionsList| ==> fresh(transactionsList[i]))
                && (forall i, j :: 0 <= i < j < |transactionsList| ==> transactionsList[i] != transactionsList[j])
                && sessions == old(sessions) + Presented(transactionsList)
    {
      if fetched.None? {
        polling := false;
        return;
      }
      var txs := Decode(fetched.value);
      transactionsList := txs;
      ProcessTransactions(transactionsList);
    }

    /**
     * An interaction on dialogue `k` that only moves its views along (a
     * category, a subcategory, "Yes", or any ignored event): only that
     * dialogue changes.
     */
    method Deliver(k: nat, e: Dialogue.Event)
      requires Valid() && k < |sessions|
      requires !Dialogue.Step(sessions[k].machine, e).state.Committing?
      modifies this`sessions
      ensures Valid()
      ensures sessions == old(sessions)[k := old(sessions[k]).(machine := Dialogue.Step(old(sessions[k].machine), e))]
    {
      Dialogue.StepPreservesValid(sessions[k].machine, Dialogue.Delivery(e, true));
      sessions := sessions[k := sessions[k].(machine := Dialogue.Step(sessions[k].machine, e))];
    }

    /**
     * An interaction that completes dialogue `k` ("No", or a submitted
     * remark): save_category runs on the dialogue's dictionary, with
     * `accepted` and `cacheAccepted` as the two endpoints' answers, and the
     * dialogue ends Committed or DispatchFailed.
     */
    method Commit(k: nat, e: Dialogue.Event, accepted: bool, cacheAccepted: bool)
      requires Valid() && k < |sessions|
      requires Dialogue.Step(sessions[k].machine, e).state.Committing?
      modifies this, sessions[k].tx
      ensures Valid()
      ensures transactionsList == old(transactionsList) && polling == old(polling)
      ensures sessions == old(sessions)[k := old(sessions[k]).(machine := Dialogue.Advance(old(sessions[k].machine), Dialogue.Delivery(e, accepted)))]
      ensures var next := Dialogue.Step(old(sessions[k].machine), e);
              var tx := sessions[k].tx;
              && tx.Snapshot() == Saved(old(tx.Snapshot()), Name(next.state.cat), next.state.sub, next.state.remarks)
              && dispatched == old(dispatched) + [tx.Snapshot()]
              && cacheWrites ==
                   (if accepted then old(cacheWrites) + [Remaining(Snapshots(transactionsList), tx.uuid)]
                    else old(cacheWrites))
              && cacheValue ==
                   (if accepted && cacheAccepted then Remaining(Snapshots(transactionsList), tx.uuid)
                    else old(cacheValue))
    {
      var s := sessions[k];
      var next := Dialogue.Step(s.machine, e);
      Dialogue.StepPreservesValid(s.machine, Dialogue.Delivery(e, accepted));
      sessions := sessions[k := Session(s.tx, Dialogue.Settle(next, accepted))];
      // The dialogue is settled from `accepted` alone: SaveCategory's outcome is
      // DispatchError exactly when the dispatcher raised, and a failed cache write
      // after a successful dispatch still ends the dialogue Committed.
      var outcome := SaveCategory(s.tx, Name(next.state.cat), next.state.sub, next.state.remarks,
                                  accepted, cacheAccepted);
      assert (outcome == DispatchError) == !accepted;
    }

    /** Delivers one interaction to dialogue `k`, running save_category when it completes the dialogue. */
    method Interact(k: nat, e: Dialogue.Event, accepted: bool, cacheAccepted: bool)
      requires Valid() && k < |sessions|
      modifies this, sessions[k].tx
      ensures Valid()
      ensures transactionsList == old(transactionsList) && polling == old(polling)
      ensures sessions == old(sessions)[k := old(sessions[k]).(machine := Dialogue.Advance(old(sessions[k].machine), Dialogue.Delivery(e, accepted)))]
      ensures var next := Dialogue.Step(old(sessions[k].machine), e);
              var tx := sessions[k].tx;
              if next.state.Committing? then
                && tx.Snapshot() == Saved(old(tx.Snapshot()), Name(next.state.cat), next.state.sub, next.state.remarks)
                && dispatched == old(dispatched) + [tx.Snapshot()]
                && cacheWrites ==
                     (if accepted then old(cacheWrites) + [Remaining(Snapshots(transactionsList), tx.uuid)]
                      else old(cacheWrites))
                && cacheValue ==
                     (if accepted && cacheAccepted then Remaining(Snapshots(transactionsList), tx.uuid)
                      else old(cacheValue))
              else
                && unchanged(tx)
                && dispatched == old(dispatched) && cacheWrites == old(cacheWrites) && cacheValue == old(cacheValue)
    {
      if Dialogue.Step(sessions[k].machine, e).state.Committing? {
        Commit(k, e, accepted, cacheAccepted);
      } else {
        Deliver(k, e);
      }
    }
  }
}
