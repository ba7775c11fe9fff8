/**
 * The per-transaction categorisation dialogue of bot.py, written as an
 * explicit state machine. In the source the state lives in the closures of
 * CategoryView, SubcategoryView, RemarkOptionView and RemarkModal; here it is
 * a `State` value, and every prompt (a Discord message with its view, or the
 * remark modal) is a `Prompt` carrying one "disabled" flag: the source only
 * ever disables all controls of a view together.
 *
 * An interaction is delivered to one prompt. A prompt whose controls are
 * disabled delivers nothing, so an event on it leaves the machine unchanged.
 */
module Dialogue {

  import opened Wrappers
  import opened Taxonomy

  datatype State =
    | AwaitingCategory
    | AwaitingSubcategory(cat: Category)
    | AwaitingRemarkChoice(cat: Category, sub: string)
    | AwaitingRemarkText(cat: Category, sub: string)
      /** save_category is running with these arguments (`remarks` is None on the "No" path). */
    | Committing(cat: Category, sub: string, remarks: Option<string>)
    | Committed
    | DispatchFailed

  /** What a prompt offers: its controls, as the view that renders it builds them. */
  datatype PromptKind =
    | CategoryButtons
    | SubcategoryButtons(options: seq<string>)
    | RemarkButtons
    | RemarkInput

  datatype Prompt = Prompt(kind: PromptKind, disabled: bool)

  datatype Action =
    | PressCategory(c: Category)
    | PressSubcategory(customId: string)
    | PressYes
    | PressNo
    | SubmitRemark(text: string)

  /** An interaction on the prompt with index `prompt` in the machine's message history. */
  datatype Event = Event(prompt: nat, action: Action)

  /** One dialogue: its state and every prompt it has posted, oldest first. */
  datatype Machine = Machine(state: State, prompts: seq<Prompt>)

  /** The labels of a prompt's controls, in the order the view adds them. */
  function Labels(k: PromptKind): seq<string>
  {
    match k
    case CategoryButtons => CategoryLabels()
    case SubcategoryButtons(options) => options
    case RemarkButtons => ["Yes", "No"]
    case RemarkInput => ["Remarks"]
  }

  predicate Awaiting(s: State)
  {
    s.AwaitingCategory? || s.AwaitingSubcategory? || s.AwaitingRemarkChoice? || s.AwaitingRemarkText?
  }

  /** The prompt that a waiting state is waiting on. */
  function PromptFor(s: State): PromptKind
    requires Awaiting(s)
  {
    match s
    case AwaitingCategory => CategoryButtons
    case AwaitingSubcategory(c) => SubcategoryButtons(Subcategories(c))
    case AwaitingRemarkChoice(_, _) => RemarkButtons
    case AwaitingRemarkText(_, _) => RemarkInput
  }

  /** The chosen subcategory, once there is one, belongs to the chosen category. */
  predicate ChoiceInTaxonomy(s: State)
  {
    match s
    case AwaitingRemarkChoice(c, sub) => sub in Subcategories(c)
    case AwaitingRemarkText(c, sub) => sub in Subcategories(c)
    case Committing(c, sub, _) => sub in Subcategories(c)
    case _ => true
  }

  /**
   * The machine invariant: there is at least one prompt; every prompt but the
   * newest is disabled; the newest is live exactly while the state waits for
   * input, and then it is the prompt of that state.
   */
  predicate Valid(m: Machine)
  {
    && |m.prompts| > 0
    && (forall i :: 0 <= i < |m.prompts| - 1 ==> m.prompts[i].disabled)
    && (Awaiting(m.state) <==> !m.prompts[|m.prompts| - 1].disabled)
    && (Awaiting(m.state) ==> m.prompts[|m.prompts| - 1].kind == PromptFor(m.state))
    && ChoiceInTaxonomy(m.state)
  }

  /** A fresh dialogue: the transaction message with its four live category buttons. */
  function Start(): (m: Machine)
    ensures Valid(m)
    ensures m.state == AwaitingCategory
    ensures |m.prompts| == 1 && !m.prompts[0].disabled
    ensures Labels(m.prompts[0].kind) == ["Transport", "Food", "Essentials", "Shopping"]
  {
    Machine(AwaitingCategory, [Prompt(CategoryButtons, false)])
  }

  /** Disables every control of prompt `i`; nothing else changes. */
  function Disable(m: Machine, i: nat): (r: Machine)
    requires i < |m.prompts|
    ensures r.state == m.state && |r.prompts| == |m.prompts|
    ensures r.prompts[i] == Prompt(m.prompts[i].kind, true)
    ensures forall j :: 0 <= j < |m.prompts| && j != i ==> r.prompts[j] == m.prompts[j]
  {
    m.(prompts := m.prompts[i := m.prompts[i].(disabled := true)])
  }

  /** Posts a new, live prompt after all earlier ones. */
  function Offer(prompts: seq<Prompt>, k: PromptKind): seq<Prompt>
  {
    prompts + [Prompt(k, false)]
  }

  /** A category button on prompt `i`: disable that prompt and offer the category's subcategories. */
  function ShowSubcategories(m: Machine, i: nat, c: Category): (r: Machine)
    requires i < |m.prompts|
    ensures r.state == AwaitingSubcategory(c)
    ensures |r.prompts| == |m.prompts| + 1 && r.prompts[i].disabled
    ensures r.prompts[|m.prompts|] == Prompt(SubcategoryButtons(Subcategories(c)), false)
    ensures Labels(r.prompts[|m.prompts|].kind) == Subcategories(c)
    ensures forall j :: 0 <= j < |m.prompts| ==> r.prompts[j].kind == m.prompts[j].kind
    ensures forall j :: 0 <= j < |m.prompts| && j != i ==> r.prompts[j] == m.prompts[j]
  {
    Machine(AwaitingSubcategory(c), Offer(Disable(m, i).prompts, SubcategoryButtons(Subcategories(c))))
  }

  /** Offers the "add remarks?" prompt for a chosen subcategory. */
  function AskForRemark(m: Machine, c: Category, sub: string): (r: Machine)
    ensures r.state == AwaitingRemarkChoice(c, sub)
    ensures |r.prompts| == |m.prompts| + 1 && r.prompts[..|m.prompts|] == m.prompts
    ensures r.prompts[|m.prompts|] == Prompt(RemarkButtons, false)
  {
    Machine(AwaitingRemarkChoice(c, sub), Offer(m.prompts, RemarkButtons))
  }

  /**
   * A subcategory view's check of an interaction on prompt `i`: honoured only
   * when the custom id is one of the category's subcategories, and then the
   * remark choice is offered and prompt `i` is disabled.
   */
  function InteractionCheck(m: Machine, i: nat, c: Category, customId: string): (r: Machine)
    requires i < |m.prompts|
    ensures customId !in Subcategories(c) ==> r == m
    ensures customId in Subcategories(c) ==>
              && r.state == AwaitingRemarkChoice(c, customId)
              && |r.prompts| == |m.prompts| + 1 && r.prompts[i].disabled
              && r.prompts[|m.prompts|] == Prompt(RemarkButtons, false)
              && (forall j :: 0 <= j < |m.prompts| ==> r.prompts[j].kind == m.prompts[j].kind)
              && (forall j :: 0 <= j < |m.prompts| && j != i ==> r.prompts[j] == m.prompts[j])
  {
    if customId in Subcategories(c) then AskForRemark(Disable(m, i), c, customId) else m
  }

  /**
   * The search loop of a subcategory view's interaction check: the index of
   * the first subcategory equal to the custom id, or the list's length when
   * none is (the interaction is then passed on unhandled).
   */
  method MatchSubcategory(subcategories: seq<string>, customId: string) returns (i: nat)
    ensures i <= |subcategories|
    ensures i < |subcategories| <==> customId in subcategories
    ensures i < |subcategories| ==> subcategories[i] == customId
    ensures forall j :: 0 <= j < i ==> subcategories[j] != customId
  {
    i := 0;
    while i < |subcategories|
      invariant i <= |subcategories|
      invariant forall j :: 0 <= j < i ==> subcategories[j] != customId
    {
      if subcategories[i] == customId {
        return;
      }
      i := i + 1;
    }
  }

  /** "Yes": disable the remark buttons and open the remark input. */
  function YesButton(m: Machine, i: nat, c: Category, sub: string): (r: Machine)
    requires i < |m.prompts|
    ensures r.state == AwaitingRemarkText(c, sub)
    ensures |r.prompts| == |m.prompts| + 1 && r.prompts[i].disabled
    ensures r.prompts[|m.prompts|] == Prompt(RemarkInput, false)
    ensures forall j :: 0 <= j < |m.prompts| ==> r.prompts[j].kind == m.prompts[j].kind
    ensures forall j :: 0 <= j < |m.prompts| && j != i ==> r.prompts[j] == m.prompts[j]
  {
    Machine(AwaitingRemarkText(c, sub), Offer(Disable(m, i).prompts, RemarkInput))
  }

  /** "No": disable the remark buttons and save without a remark. */
  function NoButton(m: Machine, i: nat, c: Category, sub: string): (r: Machine)
    requires i < |m.prompts|
    ensures r.state == Committing(c, sub, None)
    ensures |r.prompts| == |m.prompts| && r.prompts[i].disabled
    ensures forall j :: 0 <= j < |m.prompts| ==> r.prompts[j].kind == m.prompts[j].kind
    ensures forall j :: 0 <= j < |m.prompts| && j != i ==> r.prompts[j] == m.prompts[j]
  {
    Machine(Committing(c, sub, None), Disable(m, i).prompts)
  }

  /** Submitting the remark input closes it and saves with the submitted text. */
  function OnSubmit(m: Machine, i: nat, c: Category, sub: string, text: string): (r: Machine)
    requires i < |m.prompts|
    ensures r.state == Committing(c, sub, Some(text))
    ensures |r.prompts| == |m.prompts| && r.prompts[i].disabled
    ensures forall j :: 0 <= j < |m.prompts| ==> r.prompts[j].kind == m.prompts[j].kind
    ensures forall j :: 0 <= j < |m.prompts| && j != i ==> r.prompts[j] == m.prompts[j]
  {
    Machine(Committing(c, sub, Some(text)), Disable(m, i).prompts)
  }

  /** The prompt an event names is gone or disabled, so nothing is delivered. */
  predicate Stale(m: Machine, e: Event)
  {
    e.prompt >= |m.prompts| || m.prompts[e.prompt].disabled
  }

  /**
   * Delivers one interaction. An event on a stale prompt, or one that is not
   * a control of the current step, changes nothing. An honoured event disables
   * the prompt it arrived on and may post one new prompt; it never re-enables,
   * removes or alters the controls of any earlier prompt.
   */
  function Step(m: Machine, e: Event): (r: Machine)
    ensures Stale(m, e) ==> r == m
    ensures |r.prompts| >= |m.prompts|
    ensures r == m || (!Stale(m, e) && r.prompts[e.prompt].disabled)
    ensures forall j :: 0 <= j < |m.prompts| && m.prompts[j].disabled ==> r.prompts[j].disabled
    ensures |r.prompts| <= |m.prompts| + 1
    ensures forall j :: 0 <= j < |m.prompts| ==> r.prompts[j].kind == m.prompts[j].kind
    ensures forall j :: 0 <= j < |m.prompts| && j != e.prompt ==> r.prompts[j] == m.prompts[j]
  {
    if Stale(m, e) then m
    else
      match (m.state, e.action)
      case (AwaitingCategory, PressCategory(c)) => ShowSubcategories(m, e.prompt, c)
      case (AwaitingSubcategory(c), PressSubcategory(id)) => InteractionCheck(m, e.prompt, c, id)
      case (AwaitingRemarkChoice(c, sub), PressYes) => YesButton(m, e.prompt, c, sub)
      case (AwaitingRemarkChoice(c, sub), PressNo) => NoButton(m, e.prompt, c, sub)
      case (AwaitingRemarkText(c, sub), SubmitRemark(t)) => OnSubmit(m, e.prompt, c, sub, t)
      case _ => m
  }

  /**
   * The end of save_category: the machine reaches Committed exactly when the
   * dispatcher accepted the record; when it raised, the dialogue stops in
   * DispatchFailed. A machine that is not committing is left alone.
   */
  function Settle(m: Machine, accepted: bool): (r: Machine)
    ensures r.prompts == m.prompts
    ensures r.state == Committed <==> (m.state.Committing? && accepted) || m.state == Committed
    ensures r.state == DispatchFailed <==> (m.state.Committing? && !accepted) || m.state == DispatchFailed
    ensures !m.state.Committing? ==> r == m
  {
    if m.state.Committing? then m.(state := if accepted then Committed else DispatchFailed) else m
  }

  /** One delivered interaction, and what the dispatcher answers should it trigger a save. */
  datatype Delivery = Delivery(event: Event, accepted: bool)

  /** Delivers an interaction and, if it triggers save_category, runs the save to its end. */
  function Advance(m: Machine, d: Delivery): Machine
  {
    Settle(Step(m, d.event), d.accepted)
  }

  /** The machine after a sequence of deliveries. */
  function Run(m: Machine, ds: seq<Delivery>): Machine
    decreases |ds|
  {
    if ds == [] then m else Run(Advance(m, ds[0]), ds[1..])
  }

  /** How many of the deliveries hand a record to the dispatcher. */
  function Dispatches(m: Machine, ds: seq<Delivery>): nat
    decreases |ds|
  {
    if ds == [] then 0
    else (if Step(m, ds[0].event).state.Committing? then 1 else 0) + Dispatches(Advance(m, ds[0]), ds[1..])
  }

  // ---------------------------------------------------------------------------
  // Properties of the dialogue

  /** Every step, and every save settled after it, keeps the machine invariant. */
  lemma StepPreservesValid(m: Machine, d: Delivery)
    requires Valid(m)
    ensures Valid(Step(m, d.event))
    ensures Valid(Advance(m, d))
  {
    var e := d.event;
    if !Stale(m, e) {
      assert e.prompt == |m.prompts| - 1;
    }
  }

  /** Valid machines stay valid whatever is delivered to them. */
  lemma {:induction false} RunPreservesValid(m: Machine, ds: seq<Delivery>)
    requires Valid(m)
    ensures Valid(Run(m, ds))
    decreases |ds|
  {
    if ds != [] {
      StepPreservesValid(m, ds[0]);
      RunPreservesValid(Advance(m, ds[0]), ds[1..]);
    }
  }

  /**
   * Pressing a category disables the category prompt (so every earlier prompt
   * is disabled) and posts one new, live prompt that offers exactly that
   * category's subcategories, in list order.
   */
  lemma CategoryPressOffersSubcategories(m: Machine, e: Event)
    requires Valid(m) && m.state == AwaitingCategory
    requires e.action.PressCategory? && e.prompt == |m.prompts| - 1
    ensures Step(m, e).state == AwaitingSubcategory(e.action.c)
    ensures |Step(m, e).prompts| == |m.prompts| + 1
    ensures forall j :: 0 <= j < |m.prompts| ==> Step(m, e).prompts[j].disabled
    ensures Step(m, e).prompts[|m.prompts|] == Prompt(SubcategoryButtons(Subcategories(e.action.c)), false)
  {
  }

  /**
   * A subcategory interaction is honoured if and only if its custom id is one
   * of the offered subcategories; then the remark choice is offered and every
   * earlier prompt is disabled; otherwise nothing changes.
   */
  lemma SubcategoryHonouredIff(m: Machine, e: Event)
    requires Valid(m) && m.state.AwaitingSubcategory? && e.action.PressSubcategory?
    requires e.prompt == |m.prompts| - 1
    ensures Step(m, e) != m <==> e.action.customId in Labels(m.prompts[e.prompt].kind)
    ensures e.action.customId in Subcategories(m.state.cat) ==>
              && Step(m, e).state == AwaitingRemarkChoice(m.state.cat, e.action.customId)
              && (forall j :: 0 <= j < |m.prompts| ==> Step(m, e).prompts[j].disabled)
              && Step(m, e).prompts[|m.prompts|] == Prompt(RemarkButtons, false)
    ensures e.action.customId !in Subcategories(m.state.cat) ==> Step(m, e) == m
  {
    if e.action.customId in Subcategories(m.state.cat) {
      assert Step(m, e).state != m.state;
    }
  }

  /**
   * Once an interaction on a prompt has been honoured, a second interaction
   * on the same prompt changes nothing.
   */
  lemma SecondInteractionIgnored(m: Machine, e: Event, again: Event)
    requires Step(m, e) != m && again.prompt == e.prompt
    ensures Step(Step(m, e), again) == Step(m, e)
  {
  }

  /** A disabled prompt stays disabled, and every event on it is ignored, whatever is delivered later. */
  lemma {:induction false} DisabledStaysInert(m: Machine, ds: seq<Delivery>, i: nat)
    requires i < |m.prompts| && m.prompts[i].disabled
    ensures i < |Run(m, ds).prompts| && Run(m, ds).prompts[i].disabled
    ensures forall a :: Step(Run(m, ds), Event(i, a)) == Run(m, ds)
    decreases |ds|
  {
    if ds != [] {
      var n := Advance(m, ds[0]);
      assert i < |n.prompts| && n.prompts[i].disabled;
      DisabledStaysInert(n, ds[1..], i);
    } else {
      forall a ensures Step(m, Event(i, a)) == m {
        assert Stale(m, Event(i, a));
      }
    }
  }

  /**
   * A dialogue hands a record to the dispatcher at most once, and only if it
   * was still waiting for input.
   */
  lemma {:induction false} DispatchesAtMostOnce(m: Machine, ds: seq<Delivery>)
    requires !m.state.Committing?
    ensures Dispatches(m, ds) <= if Awaiting(m.state) then 1 else 0
    decreases |ds|
  {
    if ds != [] {
      var n := Step(m, ds[0].event);
      var next := Advance(m, ds[0]);
      DispatchesAtMostOnce(next, ds[1..]);
      if n.state.Committing? {
        assert !Awaiting(next.state);
      } else {
        assert next == n;
        assert !Awaiting(m.state) ==> n == m;
      }
    }
  }

  /** The "No" path: category, subcategory, "No" saves with no remark, if the subcategory belongs to the category. */
  lemma NoPathSaves(c: Category, sub: string, accepted: bool)
    ensures var ds := [Delivery(Event(0, PressCategory(c)), accepted),
                       Delivery(Event(1, PressSubcategory(sub)), accepted)];
            var m := Run(Start(), ds);
            && (sub in Subcategories(c) ==> Step(m, Event(2, PressNo)).state == Committing(c, sub, None))
            && (sub !in Subcategories(c) ==> m.state == AwaitingSubcategory(c) && Step(m, Event(2, PressNo)) == m)
  {
    var ds := [Delivery(Event(0, PressCategory(c)), accepted),
               Delivery(Event(1, PressSubcategory(sub)), accepted)];
    var m1 := Advance(Start(), ds[0]);
    assert m1 == ShowSubcategories(Start(), 0, c);
    assert Run(Start(), ds) == Run(m1, ds[1..]);
    assert Run(m1, ds[1..]) == Advance(m1, ds[1]);
  }

  /** The "Yes" path: category, subcategory, "Yes", then submitting `text` saves with `text` as the remark. */
  lemma YesPathSaves(c: Category, sub: string, text: string, accepted: bool)
    requires sub in Subcategories(c)
    ensures var ds := [Delivery(Event(0, PressCategory(c)), accepted),
                       Delivery(Event(1, PressSubcategory(sub)), accepted),
                       Delivery(Event(2, PressYes), accepted)];
            var m := Run(Start(), ds);
            && m.state == AwaitingRemarkText(c, sub)
            && Step(m, Event(3, SubmitRemark(text))).state == Committing(c, sub, Some(text))
  {
    var ds := [Delivery(Event(0, PressCategory(c)), accepted),
               Delivery(Event(1, PressSubcategory(sub)), accepted),
               Delivery(Event(2, PressYes), accepted)];
    var m1 := Advance(Start(), ds[0]);
    var m2 := Advance(m1, ds[1]);
    var m3 := Advance(m2, ds[2]);
    assert m2.state == AwaitingRemarkChoice(c, sub);
    assert m3.state == AwaitingRemarkText(c, sub);
    assert Run(Start(), ds) == Run(m1, ds[1..]);
    assert Run(m1, ds[1..]) == Run(m2, ds[2..]);
    assert Run(m2, ds[2..]) == m3;
  }

  /**
   * Whatever is delivered to a fresh dialogue, a save only ever carries a
   * subcategory of the chosen category.
   */
  lemma SaveStaysInTaxonomy(ds: seq<Delivery>, e: Event)
    ensures var n := Step(Run(Start(), ds), e);
            n.state.Committing? ==> n.state.sub in Subcategories(n.state.cat)
  {
    RunPreservesValid(Start(), ds);
    StepPreservesValid(Run(Start(), ds), Delivery(e, true));
  }
}
