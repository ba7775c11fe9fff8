# Transaction categorisation bot — Dafny model

The bot polls a remote cache for a list of uncategorised bank transactions. It
posts each one to a Discord channel and walks an operator through a short
dialogue: pick a category, pick one of that category's subcategories, and
optionally add a remark. The categorised record then goes to a webhook (the
dispatcher). The cache is then overwritten with the pending list minus that
record.

This project models the core of `bot.py`:

- `taxonomy.dfy`: the fixed taxonomy of four categories with four subcategories
  each, and the order of the category buttons.
- `dialogue.dfy`: the dialogue as an explicit state machine. Its states are
  `AwaitingCategory`, `AwaitingSubcategory`, `AwaitingRemarkChoice`,
  `AwaitingRemarkText`, `Committing`, `Committed` and `DispatchFailed`.
  - It keeps every prompt the dialogue has posted, and each prompt has one
    "disabled" flag.
  - `Step` is the pure transition function. It dispatches on the state and on
    the control pressed, as the views and the modal do.
  - `Settle` ends a save according to the dispatcher's answer.
  - The membership test of a subcategory view's `interaction_check` is the
    `in` test of `InteractionCheck`. The loop that performs it
    (bot.py:105-107) is proved on its own, as `MatchSubcategory`: it finds
    a match exactly when that test holds.
- `records.dfy`: the transaction record. `Transaction` is the mutable
  dictionary that the global list and the dialogue's views share. `TxData` is
  its value at one moment, as the endpoints receive it. `Saved` is what
  `save_category` writes into it.
- `queue.dfy`: the process state, as a class `Bot`. Its fields are:
  - `transactionsList`, the global list;
  - `cacheValue`, the remote cache;
  - the dialogues in flight;
  - the requests made of the two endpoints;
  - whether the polling loop still runs.

  The module also holds the filter of
  `remove_transaction_from_transaction_list` (`Remaining`), `save_category`,
  `process_transactions`, and one cycle of the `on_ready` loop.
- `scenarios.dfy`: end-to-end runs with their outcomes proved for every
  category, subcategory and record. They cover:
  - the "No" path;
  - the "Yes" path with a remark;
  - an empty remark;
  - an empty fetch;
  - a rejected dispatch;
  - two saves in one cycle.

The model keeps these behaviours of the code as they are:

- Food's subcategory list ends in "Snacks"; the other three end in "Others".
- A falsy remark (an empty string) does not touch `remarks`. On a fresh record
  the key stays absent. The remark input (bot.py:171-174) keeps discord.py's
  default `required=True`, so Discord itself should never deliver an empty
  submission. The model still covers that input, as the code does.
- The global list is never shrunk after a save. A second save in the same
  cycle therefore writes a cache value that still holds the first saved
  record, now carrying its category (`Scenarios.SecondSaveKeepsFirst`).
- When the dispatcher raises, the dictionary keeps the category already written
  into it, and no cache write happens. The next cycle fetches the record again
  and attaches a second, fresh dialogue to it, while the first dialogue stays
  where it stopped (`Scenarios.DispatchFailureStaysPending`).
- When the fetch fails, nothing in `on_ready` catches the exception, so the
  polling loop ends (`Queue.Bot.SyncCycle` with `None`). No failure message is
  posted to the operator on a rejected dispatch.

The endpoints are parameters:
- `accepted` is the dispatcher's answer;
- `cacheAccepted` is the cache writer's answer;
- `fetched` is the fetch result, `None` when it raises.

## Model

| member | source | states |
|---|---|---|
| Taxonomy.Subcategories | bot.py:24-27 | each category has exactly four distinct subcategories; the fourth is "Others" exactly when the category is not Food, and Food's fourth is "Snacks" |
| Taxonomy.CategoryLabels | bot.py:44-66 | the first prompt's buttons are labelled Transport, Food, Essentials, Shopping, in declaration order, each the name of the matching category |
| Taxonomy.NameInjective | bot.py:44-66 | two categories are stored under the same name only if they are the same category |
| Taxonomy.CategoriesComplete | bot.py:44-66 | every category has a button, and no category has two |
| Dialogue.Start | bot.py:205-206 | a new dialogue waits for a category on one live prompt labelled Transport, Food, Essentials, Shopping, and satisfies the machine invariant |
| Dialogue.Disable | bot.py:158-161 | disables every control of one prompt and changes no other prompt and not the state |
| Dialogue.ShowSubcategories | bot.py:68-83 | the pressed prompt is disabled and one new live prompt offers exactly the category's subcategories, in list order |
| Dialogue.InteractionCheck | bot.py:103-114 | a custom id outside the category's subcategories leaves the machine as it was; a matching one moves to the remark choice, disables the prompt and offers the Yes/No prompt |
| Dialogue.MatchSubcategory | bot.py:105-107 | the search loop returns the index of the first subcategory equal to the custom id, and the list's length exactly when no subcategory matches; so it finds a match exactly when `InteractionCheck`'s membership test holds |
| Dialogue.AskForRemark | bot.py:117-122 | moves to the remark choice for the chosen subcategory and appends the Yes/No prompt after all earlier prompts |
| Dialogue.YesButton | bot.py:148-151 | disables the Yes/No prompt and opens the remark input, waiting for the remark text |
| Dialogue.NoButton | bot.py:153-156 | disables the Yes/No prompt and starts the save with no remark |
| Dialogue.OnSubmit | bot.py:177-179 | closes the remark input and starts the save with the submitted text (closing models a successful submission; see "## Left out") |
| Dialogue.Step | bot.py:39-179 | an event on a missing or disabled prompt changes nothing; an honoured event disables the prompt it arrived on and posts at most one new prompt; no earlier prompt is removed, re-enabled or given other controls, and every prompt but the pressed one is left exactly as it was |
| Dialogue.Settle | bot.py:133-134 | a save ends Committed exactly when the dispatcher accepted it and DispatchFailed exactly when it raised; a machine that is not saving is left alone |
| Dialogue.StepPreservesValid | bot.py:39-179 | one step, and the save settled after it, keep the invariant: only the newest prompt can be live, it is live exactly while input is awaited, it is that state's prompt, and a chosen subcategory belongs to its category |
| Dialogue.RunPreservesValid | bot.py:39-179 | the invariant holds after any sequence of interactions |
| Dialogue.CategoryPressOffersSubcategories | bot.py:48-83 | pressing a category leaves every earlier prompt disabled and posts a live prompt with exactly that category's subcategories |
| Dialogue.SubcategoryHonouredIff | bot.py:94-114 | a subcategory press changes the machine if and only if its custom id is one of the offered buttons; then all earlier prompts are disabled and the remark choice is offered; otherwise nothing changes |
| Dialogue.SecondInteractionIgnored | bot.py:109-111 | after an interaction on a prompt has been honoured, a second interaction on that prompt changes nothing |
| Dialogue.DisabledStaysInert | bot.py:158-161 | a disabled prompt stays disabled and ignores every event, whatever is delivered later |
| Dialogue.DispatchesAtMostOnce | bot.py:124-134 | in the model, a dialogue hands its record to the dispatcher at most once, and only if it was still waiting for input (a resubmitted remark after a failed save is not modelled; see "## Left out") |
| Dialogue.NoPathSaves | bot.py:153-156 | category, subcategory, "No" starts a save without a remark when the subcategory belongs to the category; otherwise the dialogue still waits for a subcategory and "No" is ignored |
| Dialogue.YesPathSaves | bot.py:148-179 | category, subcategory, "Yes" waits for remark text, and submitting it starts a save with that text |
| Dialogue.SaveStaysInTaxonomy | bot.py:94-114 | whatever is delivered to a fresh dialogue, a save only ever carries a subcategory of the chosen category |
| Records.Saved | bot.py:126-130 | category and subcategory are set; remarks is replaced only by a truthy remark and is otherwise left as it was; uuid, reference, date, time, amount and recipient are unchanged |
| Records.SavedKeepsOrder | bot.py:126-130 | after a save, on any record, there is no subcategory without a category and no remarks without a subcategory |
| Records.FalsyRemarkLeavesKeyAbsent | bot.py:129-130 | on a record without remarks, the saved record has remarks if and only if the remark was truthy |
| Records.Transaction.constructor | bot.py:188-190 | a decoded dictionary holds exactly the fetched object's fields |
| Records.Transaction.Save | bot.py:126-130 | the in-place writes leave the dictionary equal to `Saved` of its previous contents |
| Queue.Remaining | bot.py:241 | the filtered list is no longer than the list, and it holds exactly the entries whose uuid differs from the committed one |
| Queue.RemainingAppend | bot.py:241 | the filter distributes over concatenation, so it keeps the relative order of the entries it keeps |
| Queue.RemainingKeepsOthers | bot.py:241 | a list with no entry carrying the uuid is returned unchanged |
| Queue.RemainingLength | bot.py:241 | the filter removes exactly the entries that carry the uuid |
| Queue.RemainingIdempotent | bot.py:241 | filtering twice by the same uuid is the same as filtering once |
| Queue.Snapshots | bot.py:232-236 | the serialised list has one entry per dictionary, each holding that dictionary's current contents |
| Queue.Decode | bot.py:188-192 | the fetch result becomes one new dictionary per fetched object, in order, with the same contents; no two entries share a dictionary |
| Queue.Bot.constructor | bot.py:256-258 | at start-up the global list is empty, nothing has been dispatched or written, and the loop is about to run |
| Queue.Bot.Dispatch | bot.py:214-223 | the record is posted as it is at that moment; the call succeeds exactly when the dispatcher accepts it |
| Queue.Bot.UpdateCache | bot.py:226-237 | the value is posted to the cache, and the cache holds it afterwards exactly when the write is accepted |
| Queue.Bot.RemoveTransaction | bot.py:239-243 | the value written is the global list filtered by the record's uuid; the global list itself is not reassigned |
| Queue.Bot.SaveCategory | bot.py:124-134 | the dictionary is updated in place as `Saved` says, then dispatched; a cache write, of the filtered global list, happens if and only if the dispatch succeeded |
| Queue.Bot.ProcessTransactions | bot.py:209-211 | one fresh dialogue waiting for a category is attached to each transaction, in list order |
| Queue.Bot.SyncCycle | bot.py:249-254 | a successful fetch replaces the global list wholesale with new dictionaries holding the fetched records and attaches one fresh dialogue per entry, in fetch order, with no two entries sharing a dictionary; a failed fetch ends the loop; the cache is not written |
| Queue.Bot.Deliver | bot.py:44-161 | an interaction that does not complete a dialogue advances only that dialogue and touches no record and no endpoint |
| Queue.Bot.Commit | bot.py:153-179 | "No" or a submitted remark runs save_category on the dialogue's own dictionary with the chosen category, subcategory and remark, and settles the dialogue by the dispatcher's answer |
| Queue.Bot.Interact | bot.py:39-179 | any interaction advances exactly one dialogue by `Step` and, only when it completes the dialogue, saves and dispatches its record and writes the filtered list |
| Scenarios.SaveWithoutRemark | bot.py:153-156 | the "No" path dispatches the fetched record with the chosen category and subcategory and its remarks untouched, empties the cache and ends Committed |
| Scenarios.SaveWithRemark | bot.py:148-179 | the "Yes" path with a non-empty remark dispatches the record carrying that remark and empties the cache |
| Scenarios.SaveWithEmptyRemark | bot.py:129-130 | submitting an empty remark dispatches the record as if "No" had been pressed (the remark input is required, so a well-behaved client does not submit one; this is what the code does if it is) |
| Scenarios.EmptyFetch | bot.py:249-254 | a fetch of nothing attaches no dialogue, and the loop keeps running |
| Scenarios.DispatchFailureStaysPending | bot.py:133-134 | a rejected dispatch writes nothing to the cache and ends DispatchFailed with the category already in the dictionary; the next cycle attaches a fresh dialogue to the unchanged fetched record |
| Scenarios.SecondSaveKeepsFirst | bot.py:239-243 | with two records in one cycle, the first cache write holds only the second record, and the second write holds the first record again, categorised |

## Left out

- Discord rendering is not modelled: message text, button styles, editing a message, and sending a modal. A prompt is only its kind, the labels of its controls, and one disabled flag.
- Each per-child loop that disables a view's controls is collapsed into one flag per prompt. The source only ever disables all of a view's controls together.
- HTTP, headers, bearer tokens and JSON are not modelled. The dispatcher, the cache writer and the fetch are parameters giving success or failure.
- Field values are kept as strings, including `amount`, because the core never interprets them. Any extra keys of a fetched object are not modelled.
- Environment configuration, logging and the bot's login are I/O plumbing and are not modelled.
- The infinite `on_ready` loop and its sleep are modelled as one cycle at a time (`Queue.Bot.SyncCycle`).
- The interleaving of many dialogues under asyncio is not modelled. Each interaction is delivered on its own, in sequence.
- The views' timeout is not modelled: discord.py stops listening after a while, and the model's prompts never expire.
- Queue.Bot.SyncCycle: does not model the exception propagating out of `on_ready` on a failed fetch. It only records that polling stops.
- Queue.Bot.SaveCategory: does not model the confirmation message. On a failed cache write the outcome is `CacheWriteError`, and the dialogue is still settled as Committed, because the dispatch succeeded.
- Deduplication of re-fetched records, retries, and compensation for a failed cache write: the code does none of these, and neither does the model.
- Dialogue.OnSubmit: the model closes the remark input on every submission, even when the save it starts raises. discord.py closes a modal only when `on_submit` returns without raising. If the dispatch (bot.py:133) or the cache write (bot.py:134) raises, the modal stays open and the operator can submit again. That runs save_category again: the dictionary is written again and the record is dispatched again. The "No" path is not affected, because its buttons are disabled before the save (bot.py:155-156).
- Dialogue.DispatchesAtMostOnce: holds for the model only. Because the remark input is closed even after a failed save, the model does not capture that, on the "Yes" path, a save that raised can be resubmitted through the still-open modal. The same dialogue's record can then be dispatched more than once, and a dialogue whose dispatch failed can still save.
