/**
 * End-to-end runs of the bot, as a client of the Bot class sees them: what is
 * dispatched, what the cache holds, and which dialogues exist afterwards.
 */
module Scenarios {

  import opened Wrappers
  import opened Taxonomy
  import opened Records
  import opened Dialogue
  import opened Queue

  // The machines a dialogue passes through, written out.

  function Chosen(c: Category): Machine
  {
    Machine(AwaitingSubcategory(c),
            [Prompt(CategoryButtons, true), Prompt(SubcategoryButtons(Subcategories(c)), false)])
  }

  function Picked(c: Category, sub: string): Machine
  {
    Machine(AwaitingRemarkChoice(c, sub),
            [Prompt(CategoryButtons, true), Prompt(SubcategoryButtons(Subcategories(c)), true),
             Prompt(RemarkButtons, false)])
  }

  function Declined(c: Category, sub: string): Machine
  {
    Machine(Committing(c, sub, None),
            [Prompt(CategoryButtons, true), Prompt(SubcategoryButtons(Subcategories(c)), true),
             Prompt(RemarkButtons, true)])
  }

  function Asked(c: Category, sub: string): Machine
  {
    Machine(AwaitingRemarkText(c, sub),
            [Prompt(CategoryButtons, true), Prompt(SubcategoryButtons(Subcategories(c)), true),
             Prompt(RemarkButtons, true), Prompt(RemarkInput, false)])
  }

  function Remarked(c: Category, sub: string, text: string): Machine
  {
    Machine(Committing(c, sub, Some(text)),
            [Prompt(CategoryButtons, true), Prompt(SubcategoryButtons(Subcategories(c)), true),
             Prompt(RemarkButtons, true), Prompt(RemarkInput, true)])
  }

  lemma Steps(c: Category, sub: string, text: string)
    requires sub in Subcategories(c)
    ensures Step(Start(), Event(0, PressCategory(c))) == Chosen(c)
    ensures Step(Chosen(c), Event(1, PressSubcategory(sub))) == Picked(c, sub)
    ensures Step(Picked(c, sub), Event(2, PressNo)) == Declined(c, sub)
    ensures Step(Picked(c, sub), Event(2, PressYes)) == Asked(c, sub)
    ensures Step(Asked(c, sub), Event(3, SubmitRemark(text))) == Remarked(c, sub, text)
  {
    StepChoose(c);
    StepPick(c, sub);
    StepAnswer(c, sub);
    StepRemark(c, sub, text);
  }

  lemma StepChoose(c: Category)
    ensures Step(Start(), Event(0, PressCategory(c))) == Chosen(c)
  {
  }

  lemma StepPick(c: Category, sub: string)
    requires sub in Subcategories(c)
    ensures Step(Chosen(c), Event(1, PressSubcategory(sub))) == Picked(c, sub)
  {
  }

  lemma StepAnswer(c: Category, sub: string)
    ensures Step(Picked(c, sub), Event(2, PressNo)) == Declined(c, sub)
    ensures Step(Picked(c, sub), Event(2, PressYes)) == Asked(c, sub)
  {
  }

  lemma StepRemark(c: Category, sub: string, text: string)
    ensures Step(Asked(c, sub), Event(3, SubmitRemark(text))) == Remarked(c, sub, text)
  {
  }

  /** Drives dialogue `k` from its first prompt to the remark choice; no endpoint is called. */
  method Choose(bot: Bot, k: nat, c: Category, sub: string)
    requires bot.Valid() && k < |bot.sessions| && bot.sessions[k].machine == Start()
    requires sub in Subcategories(c)
    modifies bot`sessions
    ensures bot.Valid() && |bot.sessions| == |old(bot.sessions)|
    ensures bot.sessions == old(bot.sessions)[k := Session(old(bot.sessions[k].tx), Picked(c, sub))]
    ensures unchanged(bot`transactionsList, bot`polling, bot`dispatched, bot`cacheValue, bot`cacheWrites)
  {
    Steps(c, sub, "");
    bot.Deliver(k, Event(0, PressCategory(c)));
    bot.Deliver(k, Event(1, PressSubcategory(sub)));
  }

  /** One cycle that fetched `d`, with its dialogue driven to the remark choice. */
  method PickedOne(d: TxData, c: Category, sub: string) returns (bot: Bot)
    requires sub in Subcategories(c)
    ensures fresh(bot) && bot.Valid() && bot.polling
    ensures bot.cacheValue == [d] && bot.cacheWrites == [] && bot.dispatched == []
    ensures |bot.sessions| == 1 && bot.transactionsList == [bot.sessions[0].tx] && fresh(bot.sessions[0].tx)
    ensures bot.sessions[0].machine == Picked(c, sub) && bot.sessions[0].tx.Snapshot() == d
  {
    bot := new Bot([d]);
    bot.SyncCycle(Some([d]));
    Choose(bot, 0, c, sub);
  }

  /**
   * One fetched transaction; the operator picks a category, one of its
   * subcategories, then "No" (for example Food, Lunch, "No"). The record is
   * dispatched with the choice and its remarks untouched, and the cache no
   * longer holds it.
   */
  method SaveWithoutRemark(d: TxData, c: Category, sub: string) returns (sent: seq<TxData>, cache: seq<TxData>, final: State)
    requires sub in Subcategories(c)
    ensures sent == [d.(category := Some(Name(c)), subcategory := Some(sub))]
    ensures cache == []
    ensures final == Committed
  {
    Steps(c, sub, "");
    var bot := PickedOne(d, c, sub);
    bot.Commit(0, Event(2, PressNo), true, true);
    sent, cache, final := bot.dispatched, bot.cacheValue, bot.sessions[0].machine.state;
  }

  /**
   * "Yes" and a non-empty remark (for example Shopping, Gadgets, "Yes",
   * "headphones"): the record is dispatched with the remark.
   */
  method SaveWithRemark(d: TxData, c: Category, sub: string, text: string) returns (sent: seq<TxData>, cache: seq<TxData>)
    requires sub in Subcategories(c) && text != ""
    ensures sent == [d.(category := Some(Name(c)), subcategory := Some(sub), remarks := Some(text))]
    ensures cache == []
  {
    Steps(c, sub, text);
    var bot := PickedOne(d, c, sub);
    bot.Deliver(0, Event(2, PressYes));
    bot.Commit(0, Event(3, SubmitRemark(text)), true, true);
    sent, cache := bot.dispatched, bot.cacheValue;
  }

  /** An empty remark is falsy: the record is dispatched as if "No" had been pressed. */
  method SaveWithEmptyRemark(d: TxData, c: Category, sub: string) returns (sent: seq<TxData>)
    requires sub in Subcategories(c)
    ensures sent == [d.(category := Some(Name(c)), subcategory := Some(sub))]
  {
    Steps(c, sub, "");
    var bot := PickedOne(d, c, sub);
    bot.Deliver(0, Event(2, PressYes));
    bot.Commit(0, Event(3, SubmitRemark("")), true, true);
    sent := bot.dispatched;
  }

  /** A fetch of nothing posts nothing, and the loop keeps running. */
  method EmptyFetch(cache: seq<TxData>) returns (presented: nat, polling: bool)
    ensures presented == 0 && polling
  {
    var bot := new Bot(cache);
    bot.SyncCycle(Some([]));
    presented, polling := |bot.sessions|, bot.polling;
  }

  /**
   * The dispatcher rejects the record: nothing is written to the cache, the
   * transaction is still pending there, and the next cycle attaches a second,
   * fresh dialogue to it; the first dialogue's dictionary keeps the choice.
   */
  method DispatchFailureStaysPending(d: TxData, c: Category, sub: string)
    returns (cache: seq<TxData>, writes: nat, first: State, second: Machine, firstRecord: TxData, secondRecord: TxData)
    requires sub in Subcategories(c)
    ensures cache == [d] && writes == 0
    ensures first == DispatchFailed
    ensures second == Start() && secondRecord == d
    ensures firstRecord == d.(category := Some(Name(c)), subcategory := Some(sub))
  {
    var bot := RejectedSave(d, c, sub);
    bot.SyncCycle(Some(bot.cacheValue));
    cache, writes := bot.cacheValue, |bot.cacheWrites|;
    first, second := bot.sessions[0].machine.state, bot.sessions[1].machine;
    firstRecord, secondRecord := bot.sessions[0].tx.Snapshot(), bot.sessions[1].tx.Snapshot();
  }

  /** One cycle whose only dialogue ends with a dispatch the dispatcher rejects. */
  method RejectedSave(d: TxData, c: Category, sub: string) returns (bot: Bot)
    requires sub in Subcategories(c)
    ensures fresh(bot) && bot.Valid() && bot.polling
    ensures bot.cacheValue == [d] && bot.cacheWrites == [] && |bot.sessions| == 1
    ensures bot.sessions[0].machine.state == DispatchFailed
    ensures bot.sessions[0].tx.Snapshot() == d.(category := Some(Name(c)), subcategory := Some(sub))
  {
    Steps(c, sub, "");
    bot := PickedOne(d, c, sub);
    bot.Commit(0, Event(2, PressNo), false, true);
  }

  /**
   * Two transactions in one cycle, both saved. The global list is never
   * shrunk, so the second cache write still holds the first transaction,
   * now carrying its category.
   */
  method SecondSaveKeepsFirst(d1: TxData, d2: TxData, cat1: string, sub1: string, cat2: string, sub2: string)
    returns (firstWrite: seq<TxData>, secondWrite: seq<TxData>)
    requires d1.uuid != d2.uuid
    ensures firstWrite == [d2]
    ensures secondWrite == [Saved(d1, cat1, sub1, None)]
  {
    var bot := new Bot([d1, d2]);
    bot.SyncCycle(Some([d1, d2]));
    var t1, t2 := bot.transactionsList[0], bot.transactionsList[1];
    SnapshotsPair(bot.transactionsList);
    assert t1.Snapshot() == d1 && t2.Snapshot() == d2;
    assert t1 != t2;
    ghost var saved1, saved2 := Saved(d1, cat1, sub1, None), Saved(d2, cat2, sub2, None);
    var outcome := bot.SaveCategory(t1, cat1, sub1, None, true, true);
    assert t2.Snapshot() == d2;
    SnapshotsPair(bot.transactionsList);
    RemainingPair(saved1, d2);
    firstWrite := bot.cacheValue;
    assert firstWrite == Remaining([saved1, d2], d1.uuid);
    outcome := bot.SaveCategory(t2, cat2, sub2, None, true, true);
    assert t1.Snapshot() == saved1;
    SnapshotsPair(bot.transactionsList);
    RemainingPair(saved1, saved2);
    secondWrite := bot.cacheValue;
  }

  /** Filtering a list of two records with distinct keys by either key leaves the other. */
  lemma RemainingPair(a: TxData, b: TxData)
    requires a.uuid != b.uuid
    ensures Remaining([a, b], a.uuid) == [b] && Remaining([a, b], b.uuid) == [a]
  {
    assert [a, b][1..] == [b];
    assert [b][1..] == [];
  }

  /** The serialised contents of a list of two dictionaries. */
  lemma SnapshotsPair(txs: seq<Transaction>)
    requires |txs| == 2
    ensures Snapshots(txs) == [txs[0].Snapshot(), txs[1].Snapshot()]
  {
  }
}
