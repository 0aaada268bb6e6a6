/**
 The deck mutator: putting a candidate card into a deck and re-fitting
 the commander and every other card under a budget, downgrading each one
 through its recipe tree (depth first, with an explicit stack) until the
 deck is affordable, and recording which cards went out and came in.
 */
module Mutator {
  import opened Cards
  import opened Resolver
  import opened Diff

  datatype Option<T> = None | Some(value: T)

  /** A card tagged with its deck slot; slot -1 stands for the commander or for a deck played in random order. */
  datatype Entry = Entry(slot: int, card: CardId)

  /** A deck under edit: the mutator rewrites its commander and cards in place. */
  class Deck {
    var commander: CardId
    var cards: seq<CardId>
    /** The deck is played in random order, so slot positions carry no meaning. */
    const random: bool

    constructor (commander: CardId, cards: seq<CardId>, random: bool)
      ensures this.commander == commander && this.cards == cards && this.random == random
    {
      this.commander := commander;
      this.cards := cards;
      this.random := random;
    }
  }

  /** An `unsigned` read back as a `signed`. */
  function Signed(x: U32): (r: int)
    ensures -0x8000_0000 <= r < 0x8000_0000
    ensures Wrap(r) == x
  {
    if x < 0x8000_0000 then x else x - 0x1_0000_0000
  }

  /** The slot recorded for the card at index `i` when the card at `pivot` has been taken out or put in. */
  function SlotOf(random: bool, i: int, pivot: int): (r: int)
    ensures random ==> r == -1
    ensures !random && i < pivot ==> r == i
    ensures !random && i >= pivot ==> r == i + 1
  {
    if random then -1 else i + (if i >= pivot then 1 else 0)
  }

  // ---------------------------------------------------------------------
  // One downgrade search.

  /** Where the forms tried by one downgrade search are placed. */
  datatype Place =
    | Alone(commander: CardId)                                  // the candidate, as the only card
    | Leading(cards: seq<CardId>)                               // the commander
    | Between(commander: CardId, before: seq<CardId>, after: seq<CardId>)  // a re-inserted card

  /** The deck's commander while form `x` is on trial. */
  function TrialCommander(p: Place, x: CardId): CardId
  {
    match p
    case Alone(c) => c
    case Leading(_) => x
    case Between(c, _, _) => c
  }

  /** The deck's cards while form `x` is on trial. */
  function TrialCards(p: Place, x: CardId): (r: seq<CardId>)
    ensures x in r || p.Leading?
  {
    match p
    case Alone(_) => [x]
    case Leading(cards) => cards
    case Between(_, before, after) => before + [x] + after
  }

  ghost predicate PlaceKnown(cat: Catalogue, p: Place)
  {
    match p
    case Alone(c) => c in cat.cards
    case Leading(cards) => Known(cat, cards)
    case Between(c, before, after) => c in cat.cards && Known(cat, before) && Known(cat, after)
  }

  /** `get_deck_cost` of the deck while form `x` is on trial. */
  function TrialCost(env: Env, p: Place, x: CardId): U32
    requires env.cat.Valid() && PlaceKnown(env.cat, p) && x in env.cat.cards
  {
    TrialKnown(env.cat, p, x);
    DeckCost(env, TrialCommander(p, x), TrialCards(p, x))
  }

  /**
   `costs` tables the cost of every trial at `p`: the searches read their
   costs from such a table.
   */
  ghost predicate CostTable(env: Env, p: Place, costs: map<CardId, U32>)
    requires env.cat.Valid() && PlaceKnown(env.cat, p)
  {
    && env.cat.cards.Keys <= costs.Keys
    && forall x {:trigger TrialCost(env, p, x)} :: x in env.cat.cards ==> costs[x] == TrialCost(env, p, x)
  }

  lemma CostTableAt(env: Env, p: Place) returns (costs: map<CardId, U32>)
    requires env.cat.Valid() && PlaceKnown(env.cat, p)
    ensures CostTable(env, p, costs)
  {
    costs := map x | x in env.cat.cards :: TrialCost(env, p, x);
  }

  /** How a downgrade search ends: the form it stopped at and the cost of the deck holding it. */
  datatype Outcome =
    | Settled(form: CardId, cost: U32)    // the loop broke: the form fits, or top-level forms are kept as they are
    | Exhausted(form: CardId, cost: U32)  // the stack ran dry; `form` was the last one tried
    | Frozen(form: CardId, cost: U32)     // a frozen card did not fit as it is

  /**
   The search loop shared by the three steps of `adjust_deck`: pop the top
   form, try it (`costs` gives the deck's cost with it), stop when it fits
   (or at once when `keepTop`), give up when `frozen`, and otherwise push
   its ingredients in recipe order.
   */
  function Search(cat: Catalogue, costs: map<CardId, U32>, stack: seq<CardId>, fund: U32, keepTop: bool, frozen: bool): (r: Outcome)
    requires cat.Valid() && cat.cards.Keys <= costs.Keys && Known(cat, stack) && stack != []
    ensures r.form in cat.cards && r.cost == costs[r.form]
    ensures r.Settled? ==> keepTop || r.cost <= fund
    ensures !r.Settled? ==> !keepTop && r.cost > fund
    ensures r.Frozen? ==> frozen
    ensures frozen ==> r.form == stack[|stack| - 1] && !r.Exhausted?
    decreases StackWeight(cat, stack)
  {
    var x := stack[|stack| - 1];
    if keepTop || costs[x] <= fund then Settled(x, costs[x])
    else if frozen then Frozen(x, costs[x])
    else
      var next := stack[..|stack| - 1] + IngredientIds(cat, x);
      PopPushLighter(cat, stack);
      if next == [] then Exhausted(x, costs[x]) else Search(cat, costs, next, fund, keepTop, frozen)
  }

  lemma KnownSingle(cat: Catalogue, x: CardId)
    requires x in cat.cards
    ensures Known(cat, [x])
  {
  }

  /** A search that starts from the single card `root`. */
  function SearchFrom(cat: Catalogue, costs: map<CardId, U32>, root: CardId, fund: U32, keepTop: bool, frozen: bool): (r: Outcome)
    requires cat.Valid() && cat.cards.Keys <= costs.Keys && root in cat.cards
  {
    KnownSingle(cat, root);
    Search(cat, costs, [root], fund, keepTop, frozen)
  }

  /** Unfolds `Search` one step: a form other than the top comes from the search of the popped-and-pushed stack. */
  lemma SearchStep(cat: Catalogue, costs: map<CardId, U32>, stack: seq<CardId>, fund: U32, keepTop: bool, frozen: bool)
    requires cat.Valid() && cat.cards.Keys <= costs.Keys && Known(cat, stack) && stack != []
    requires Search(cat, costs, stack, fund, keepTop, frozen).form != stack[|stack| - 1]
    ensures var next := stack[..|stack| - 1] + IngredientIds(cat, stack[|stack| - 1]);
      Known(cat, next) && next != [] &&
      StackWeight(cat, next) < StackWeight(cat, stack) &&
      Search(cat, costs, stack, fund, keepTop, frozen) == Search(cat, costs, next, fund, keepTop, frozen)
  {
    PopPushLighter(cat, stack);
  }

  /** The form a search stops at is a form of a card that was on the stack. */
  lemma {:induction false} SearchDescends(cat: Catalogue, costs: map<CardId, U32>, stack: seq<CardId>, fund: U32, keepTop: bool, frozen: bool)
    requires cat.Valid() && cat.cards.Keys <= costs.Keys && Known(cat, stack) && stack != []
    ensures Search(cat, costs, stack, fund, keepTop, frozen).form in StackForms(cat, stack)
    decreases StackWeight(cat, stack)
  {
    var x := stack[|stack| - 1];
    var r := Search(cat, costs, stack, fund, keepTop, frozen);
    PopPushForms(cat, stack);
    if r.form != x {
      var next := stack[..|stack| - 1] + IngredientIds(cat, x);
      SearchStep(cat, costs, stack, fund, keepTop, frozen);
      SearchDescends(cat, costs, next, fund, keepTop, frozen);
    }
  }

  /** A search that runs dry has tried every form of every card on the stack, and none fits. */
  lemma {:induction false} SearchExhaustive(cat: Catalogue, costs: map<CardId, U32>, stack: seq<CardId>, fund: U32, keepTop: bool, frozen: bool)
    requires cat.Valid() && cat.cards.Keys <= costs.Keys && Known(cat, stack) && stack != []
    requires Search(cat, costs, stack, fund, keepTop, frozen).Exhausted?
    ensures forall x :: x in StackForms(cat, stack) && x in cat.cards ==> costs[x] > fund
    decreases StackWeight(cat, stack)
  {
    var x := stack[|stack| - 1];
    var next := stack[..|stack| - 1] + IngredientIds(cat, x);
    PopPushForms(cat, stack);
    PopPushLighter(cat, stack);
    if next != [] {
      SearchExhaustive(cat, costs, next, fund, keepTop, frozen);
    }
  }

  /** A search from one card stops at one of that card's forms. */
  lemma SearchFromDescends(cat: Catalogue, costs: map<CardId, U32>, root: CardId, fund: U32, keepTop: bool, frozen: bool)
    requires cat.Valid() && cat.cards.Keys <= costs.Keys && root in cat.cards
    ensures SearchFrom(cat, costs, root, fund, keepTop, frozen).form in Forms(cat, root)
  {
    KnownSingle(cat, root);
    StackFormsSingle(cat, root);
    SearchDescends(cat, costs, [root], fund, keepTop, frozen);
  }

  /**
   A search from one card (kept top-level forms and frozen cards aside)
   ends with a fitting deck exactly when some form of that card fits.
   */
  lemma SearchFits(cat: Catalogue, costs: map<CardId, U32>, root: CardId, fund: U32)
    requires cat.Valid() && cat.cards.Keys <= costs.Keys && root in cat.cards
    ensures SearchFrom(cat, costs, root, fund, false, false).cost <= fund <==>
      exists x :: x in Forms(cat, root) && x in cat.cards && costs[x] <= fund
  {
    var r := SearchFrom(cat, costs, root, fund, false, false);
    KnownSingle(cat, root);
    StackFormsSingle(cat, root);
    SearchFromDescends(cat, costs, root, fund, false, false);
    if r.Exhausted? {
      SearchExhaustive(cat, costs, [root], fund, false, false);
    }
  }

  // ---------------------------------------------------------------------
  // Running a search on the deck itself.

  /** The deck is laid out for trials at `p`: everything but the trial position already in place. */
  ghost predicate Shaped(deck: Deck, p: Place)
    reads deck
  {
    match p
    case Alone(c) => deck.commander == c
    case Leading(cards) => deck.cards == cards
    case Between(c, before, after) =>
      && deck.commander == c && |deck.cards| == |before| + 1 + |after|
      && deck.cards[..|before|] == before && deck.cards[|before| + 1..] == after
  }

  lemma TrialKnown(cat: Catalogue, p: Place, x: CardId)
    requires PlaceKnown(cat, p) && x in cat.cards
    ensures TrialCommander(p, x) in cat.cards && Known(cat, TrialCards(p, x))
  {
  }

  lemma BetweenSlices(before: seq<CardId>, x: CardId, after: seq<CardId>)
    ensures var s := before + [x] + after;
      |s| == |before| + 1 + |after| && s[|before|] == x && s[..|before|] == before && s[|before| + 1..] == after
  {
    var s := before + [x] + after;
    assert s[..|before|] == before;
    assert s[|before| + 1..] == after;
  }

  /** Puts form `x` on trial at `p`, writing it into the deck's commander or into its card slot. */
  method Put(deck: Deck, p: Place, x: CardId)
    requires Shaped(deck, p)
    modifies deck
    ensures deck.commander == TrialCommander(p, x) && deck.cards == TrialCards(p, x)
    ensures Shaped(deck, p)
  {
    match p {
      case Alone(_) =>
        deck.cards := [x];
      case Leading(_) =>
        deck.commander := x;
      case Between(_, before, after) =>
        ghost var cards := deck.cards;
        assert cards == before + [cards[|before|]] + after;
        deck.cards := deck.cards[|before| := x];
        assert deck.cards[..|before|] == before && deck.cards[|before| + 1..] == after;
    }
  }

  /**
   One pass of a search loop: pops the top form, puts it on trial and
   costs the deck; stops there (`done`) when the form is kept, and
   otherwise pushes the form's ingredients. The search from `stack` and
   the search from `stack'` end the same way unless this pass ended it.
   */
  method TryTop(env: Env, deck: Deck, p: Place, ghost costs: map<CardId, U32>, stack: seq<CardId>, fund: U32, keepTop: bool, frozen: bool)
    returns (stack': seq<CardId>, o: Outcome, done: bool)
    requires env.cat.Valid() && PlaceKnown(env.cat, p) && CostTable(env, p, costs)
    requires Known(env.cat, stack) && stack != [] && Shaped(deck, p)
    modifies deck
    ensures Known(env.cat, stack') && Shaped(deck, p)
    ensures done || stack' == [] ==>
      o == Search(env.cat, costs, stack, fund, keepTop, frozen) &&
      deck.commander == TrialCommander(p, o.form) && deck.cards == TrialCards(p, o.form)
    ensures !done && stack' != [] ==>
      Search(env.cat, costs, stack', fund, keepTop, frozen) == Search(env.cat, costs, stack, fund, keepTop, frozen) &&
      StackWeight(env.cat, stack') < StackWeight(env.cat, stack)
  {
    var x := stack[|stack| - 1];
    PopPushLighter(env.cat, stack);
    stack' := stack[..|stack| - 1];
    Put(deck, p, x);
    TrialKnown(env.cat, p, x);
    var cost := GetDeckCost(env, deck.commander, deck.cards);
    assert cost == TrialCost(env, p, x);
    if keepTop || cost <= fund {
      return stack', Settled(x, cost), true;
    }
    if frozen {
      return stack', Frozen(x, cost), true;
    }
    stack' := PushIngredients(env.cat, stack', x);
    o, done := Exhausted(x, cost), false;
  }

  /** Pushes the ingredients of `x` onto the stack, in recipe order. */
  method PushIngredients(cat: Catalogue, stack: seq<CardId>, x: CardId) returns (stack': seq<CardId>)
    requires cat.Valid() && x in cat.cards
    ensures stack' == stack + IngredientIds(cat, x)
  {
    var recipe := cat.cards[x].recipe;
    ghost var ids := IngredientIds(cat, x);
    stack' := stack;
    var k := 0;
    while k < |recipe|
      invariant k <= |recipe|
      invariant stack' == stack + ids[..k]
    {
      assert ids[..k + 1] == ids[..k] + [recipe[k].card];
      stack' := stack' + [recipe[k].card];
      k := k + 1;
    }
    assert ids[..k] == ids;
  }

  /**
   One of the three `std::stack` loops of `adjust_deck`: tries the forms of
   `root` at `p` in depth-first order, costing the deck with each, and
   leaves the deck holding the form it stopped at.
   */
  method TryForms(env: Env, deck: Deck, p: Place, ghost costs: map<CardId, U32>, root: CardId, fund: U32, keepTop: bool, frozen: bool)
    returns (o: Outcome)
    requires env.cat.Valid() && PlaceKnown(env.cat, p) && CostTable(env, p, costs) && root in env.cat.cards && Shaped(deck, p)
    modifies deck
    ensures o == SearchFrom(env.cat, costs, root, fund, keepTop, frozen)
    ensures deck.commander == TrialCommander(p, o.form) && deck.cards == TrialCards(p, o.form)
  {
    var stack := [root];
    KnownSingle(env.cat, root);
    ghost var goal := Search(env.cat, costs, stack, fund, keepTop, frozen);
    o := Exhausted(root, 0);
    while stack != []
      invariant Known(env.cat, stack) && Shaped(deck, p)
      invariant stack != [] ==> Search(env.cat, costs, stack, fund, keepTop, frozen) == goal
      invariant stack == [] ==> o == goal && deck.commander == TrialCommander(p, o.form) && deck.cards == TrialCards(p, o.form)
      decreases StackWeight(env.cat, stack)
    {
      var done;
      stack, o, done := TryTop(env, deck, p, costs, stack, fund, keepTop, frozen);
      if done {
        return;
      }
    }
  }

  // ---------------------------------------------------------------------
  // Re-inserting the old cards.

  /** Where card `i` of the old deck is tried: at the end, or before the last card while `i` is below `toSlot`. */
  function Opening(commander: CardId, cards: seq<CardId>, i: int, toSlot: int): (r: Place)
    requires cards != []
    ensures r.Between? && r.commander == commander && r.before + r.after == cards
  {
    var pos := |cards| - (if i < toSlot then 1 else 0);
    Between(commander, cards[..pos], cards[pos..])
  }

  lemma OpeningKnown(cat: Catalogue, commander: CardId, cards: seq<CardId>, i: int, toSlot: int)
    requires cards != [] && commander in cat.cards && Known(cat, cards)
    ensures PlaceKnown(cat, Opening(commander, cards, i, toSlot))
  {
    var pos := |cards| - (if i < toSlot then 1 else 0);
    assert cards == cards[..pos] + cards[pos..];
  }

  /** Trying a form in the opening keeps every card already in the deck and adds exactly one. */
  lemma OpeningKeeps(cards: seq<CardId>, commander: CardId, i: int, toSlot: int, x: CardId)
    requires cards != []
    ensures var t := TrialCards(Opening(commander, cards, i, toSlot), x);
      |t| == |cards| + 1 && x in t && forall y :: y in cards ==> y in t
  {
    var pos := |cards| - (if i < toSlot then 1 else 0);
    assert cards == cards[..pos] + cards[pos..];
  }

  /**
   The diffs once the card at index `i` has been put back as `form`: when
   the form differs, the card goes out at its old slot and the form comes
   in at its new one, each cancelling a matching entry on the other side.
   */
  function Replaced(cardsOut: seq<Entry>, cardsIn: seq<Entry>, random: bool, i: int, fromSlot: int, toSlot: int, card: CardId, form: CardId)
    : (seq<Entry>, seq<Entry>)
  {
    if form == card then (cardsOut, cardsIn)
    else
      var (out1, in1) := UnlessRemove(cardsOut, cardsIn, Entry(SlotOf(random, i, fromSlot), card));
      var (in2, out2) := UnlessRemove(in1, out1, Entry(SlotOf(random, i, toSlot), form));
      (out2, in2)
  }

  /**
   Opens the slot of `p` in the deck and runs the search of the forms of
   `card` there; the slot ends up holding the form the search stopped at.
   */
  method TryOpening(env: Env, deck: Deck, p: Place, ghost costs: map<CardId, U32>, card: CardId, fund: U32, frozen: bool)
    returns (o: Outcome)
    requires env.cat.Valid() && PlaceKnown(env.cat, p) && CostTable(env, p, costs) && card in env.cat.cards
    requires p.Between? && deck.commander == p.commander && deck.cards == p.before + p.after
    modifies deck
    ensures o == SearchFrom(env.cat, costs, card, fund, env.cfg.useTopLevelCard, frozen)
    ensures deck.cards == TrialCards(p, o.form) && deck.cards[|p.before|] == o.form
    ensures deck.commander == old(deck.commander)
  {
    // the slot opened for the card, filled by each form on trial
    deck.cards := TrialCards(p, card);
    BetweenSlices(p.before, card, p.after);
    o := TryForms(env, deck, p, costs, card, fund, env.cfg.useTopLevelCard, frozen);
    BetweenSlices(p.before, o.form, p.after);
  }

  /**
   Records the end of one round in the diffs: nothing for a frozen card
   that stays, the card going out at its new slot when no form fits, and
   the replacement when a downgraded form was kept.
   */
  method Record(o: Outcome, fund: U32, random: bool, i: int, fromSlot: int, toSlot: int, card: CardId,
                cardsOut: seq<Entry>, cardsIn: seq<Entry>)
    returns (cardsOut': seq<Entry>, cardsIn': seq<Entry>)
    ensures o.Frozen? ==> cardsOut' == cardsOut && cardsIn' == cardsIn
    ensures !o.Frozen? && o.cost > fund ==>
      (cardsOut', cardsIn') == UnlessRemove(cardsOut, cardsIn, Entry(SlotOf(random, i, toSlot), card))
    ensures !o.Frozen? && o.cost <= fund ==>
      (cardsOut', cardsIn') == Replaced(cardsOut, cardsIn, random, i, fromSlot, toSlot, card, o.form)
  {
    cardsOut', cardsIn' := cardsOut, cardsIn;
    if o.Frozen? {
      return;
    }
    if o.cost > fund {
      cardsOut', cardsIn' := AppendUnlessRemove(cardsOut', cardsIn', Entry(SlotOf(random, i, toSlot), card));
    } else if o.form != card {
      cardsOut', cardsIn' := AppendUnlessRemove(cardsOut', cardsIn', Entry(SlotOf(random, i, fromSlot), card));
      cardsIn', cardsOut' := AppendUnlessRemove(cardsIn', cardsOut', Entry(SlotOf(random, i, toSlot), o.form));
    }
  }

  /**
   One round of the re-insertion loop of `adjust_deck`: tries `card` in
   an opened slot, and then drops the card (restoring the deck) when no
   form fits, or records the replacement when a downgraded form was kept.
   A frozen card that does not fit as it is ends the round at once, with
   the deck left holding it.
   */
  method Reinsert(env: Env, deck: Deck, i: int, card: CardId, fromSlot: int, toSlot: int, fund: U32,
                  cardsOut: seq<Entry>, cardsIn: seq<Entry>)
    returns (o: Outcome, cardsOut': seq<Entry>, cardsIn': seq<Entry>, ghost costs: map<CardId, U32>)
    requires env.cat.Valid() && deck.commander in env.cat.cards && Known(env.cat, deck.cards) && deck.cards != []
    requires card in env.cat.cards
    modifies deck
    ensures var p := Opening(old(deck.commander), old(deck.cards), i, toSlot);
      && PlaceKnown(env.cat, p) && CostTable(env, p, costs)
      && o == SearchFrom(env.cat, costs, card, fund, env.cfg.useTopLevelCard, i < Signed(env.cfg.freezedCards))
      && (o.Frozen? ==> deck.cards == TrialCards(p, o.form) && cardsOut' == cardsOut && cardsIn' == cardsIn)
      && (!o.Frozen? && o.cost > fund ==>
            deck.cards == old(deck.cards) &&
            (cardsOut', cardsIn') == UnlessRemove(cardsOut, cardsIn, Entry(SlotOf(deck.random, i, toSlot), card)))
      && (!o.Frozen? && o.cost <= fund ==>
            deck.cards == TrialCards(p, o.form) &&
            (cardsOut', cardsIn') == Replaced(cardsOut, cardsIn, deck.random, i, fromSlot, toSlot, card, o.form))
    ensures deck.commander == old(deck.commander)
  {
    var saved := deck.cards;
    OpeningKnown(env.cat, deck.commander, deck.cards, i, toSlot);
    var p := Opening(deck.commander, deck.cards, i, toSlot);
    costs := CostTableAt(env, p);
    o := TryOpening(env, deck, p, costs, card, fund, i < Signed(env.cfg.freezedCards));
    if !o.Frozen? && o.cost > fund {
      deck.cards := saved;
    }
    cardsOut', cardsIn' := Record(o, fund, deck.random, i, fromSlot, toSlot, card, cardsOut, cardsIn);
  }

  // ---------------------------------------------------------------------
  // The whole mutation.

  /** How `adjust_deck` ended. */
  datatype Exit =
    | NullCard                 // no card to put in: the deck is only costed
    | CandidateUnfit           // no form of the candidate fits on its own
    | CommanderUnfit           // no form of the commander fits beside the candidate
    | FrozenUnfit(index: nat)  // the frozen card at `index` of the order does not fit as it is
    | Completed                // every old card has been tried

  /**
   Puts the candidate in as the only card, trying the forms of its
   top-level card from the top down (only the top-level card itself when
   top-level cards are kept as they are).
   */
  method FitCandidate(env: Env, deck: Deck, card: CardId, fund: U32) returns (o: Outcome, ghost costs: map<CardId, U32>)
    requires env.cat.Valid() && deck.commander in env.cat.cards && card in env.cat.cards
    modifies deck
    ensures env.cat.cards[card].topLevel in env.cat.cards && CostTable(env, Alone(old(deck.commander)), costs)
    ensures o == SearchFrom(env.cat, costs, env.cat.cards[card].topLevel, fund, env.cfg.useTopLevelCard, false)
    ensures deck.cards == [o.form]
    ensures deck.commander == old(deck.commander)
  {
    assert env.cat.CardOk(card);
    var p := Alone(deck.commander);
    costs := CostTableAt(env, p);
    o := TryForms(env, deck, p, costs, env.cat.cards[card].topLevel, fund, env.cfg.useTopLevelCard, false);
  }

  /**
   Tries the forms of the commander beside the cards already in the deck,
   and puts the old commander back when none fits.
   */
  method FitCommander(env: Env, deck: Deck, fund: U32) returns (o: Outcome, ghost costs: map<CardId, U32>)
    requires env.cat.Valid() && deck.commander in env.cat.cards && Known(env.cat, deck.cards)
    modifies deck
    ensures CostTable(env, Leading(old(deck.cards)), costs)
    ensures o == SearchFrom(env.cat, costs, old(deck.commander), fund, false, false)
    ensures deck.commander == if o.cost <= fund then o.form else old(deck.commander)
    ensures deck.cards == old(deck.cards)
  {
    var commander := deck.commander;
    var p := Leading(deck.cards);
    costs := CostTableAt(env, p);
    o := TryForms(env, deck, p, costs, commander, fund, false, false);
    if o.cost > fund {
      deck.commander := commander;
    }
  }

  /** Frozen cards are the first `freezed_cards` of the order, unless top-level cards are kept as they are. */
  predicate FrozenAt(env: Env, i: int)
  {
    !env.cfg.useTopLevelCard && i < Signed(env.cfg.freezedCards)
  }

  /**
   A round that is not stopped by a frozen card leaves an affordable deck
   holding every card it held before, one card longer at most, and holding
   a frozen card itself.
   */
  lemma RoundKeeps(env: Env, commander: CardId, before: seq<CardId>, after: seq<CardId>, p: Place, costs: map<CardId, U32>,
                   i: int, card: CardId, toSlot: int, fund: U32, o: Outcome)
    requires env.cat.Valid() && commander in env.cat.cards && Known(env.cat, before) && before != [] && card in env.cat.cards
    requires p == Opening(commander, before, i, toSlot) && PlaceKnown(env.cat, p) && CostTable(env, p, costs)
    requires o == SearchFrom(env.cat, costs, card, fund, env.cfg.useTopLevelCard, i < Signed(env.cfg.freezedCards))
    requires !o.Frozen? && DeckCost(env, commander, before) <= fund
    requires o.cost > fund ==> after == before
    requires o.cost <= fund ==> after == TrialCards(p, o.form)
    ensures Known(env.cat, after) && after != [] && |after| <= |before| + 1
    ensures forall y :: y in before ==> y in after
    ensures DeckCost(env, commander, after) <= fund
    ensures FrozenAt(env, i) ==> card in after
  {
    OpeningKeeps(before, commander, i, toSlot, o.form);
    if o.cost <= fund {
      SearchFromDescends(env.cat, costs, card, fund, env.cfg.useTopLevelCard, i < Signed(env.cfg.freezedCards));
      TrialKnown(env.cat, p, o.form);
      assert o.cost == TrialCost(env, p, o.form);
    }
  }

  /**
   The re-insertion loop of `adjust_deck`: tries every card of `order` in
   turn. Each round leaves an affordable deck that still holds every card
   it held before; the loop stops early when a frozen card does not fit as
   it is, and otherwise ends with the deck costed once more.
   */
  method ReinsertAll(env: Env, deck: Deck, fromSlot: int, toSlot: int, order: seq<CardId>, fund: U32,
                     cardsOut: seq<Entry>, cardsIn: seq<Entry>)
    returns (ok: bool, deckCost: U32, cardsOut': seq<Entry>, cardsIn': seq<Entry>, ghost exit: Exit)
    requires env.cat.Valid() && deck.commander in env.cat.cards && Known(env.cat, deck.cards) && deck.cards != []
    requires Known(env.cat, order) && DeckCost(env, deck.commander, deck.cards) <= fund
    modifies deck
    ensures deck.commander == old(deck.commander)
    ensures exit.Completed? || exit.FrozenUnfit?
    ensures Known(env.cat, deck.cards) && |deck.cards| <= |old(deck.cards)| + |order|
    ensures forall y :: y in old(deck.cards) ==> y in deck.cards
    ensures exit.FrozenUnfit? ==>
      !ok && deckCost > fund && exit.index < |order| && FrozenAt(env, exit.index)
    ensures exit.Completed? ==>
      && deckCost == DeckCost(env, deck.commander, deck.cards) && deckCost <= fund
      && ok == (cardsIn' != [] || cardsOut' != [])
      && forall j :: 0 <= j < |order| && FrozenAt(env, j) ==> order[j] in deck.cards
  {
    ghost var start := deck.cards;
    cardsOut', cardsIn' := cardsOut, cardsIn;
    var i := 0;
    while i < |order|
      invariant i <= |order|
      invariant deck.commander == old(deck.commander)
      invariant Known(env.cat, deck.cards) && deck.cards != [] && |deck.cards| <= |start| + i
      invariant forall y :: y in start ==> y in deck.cards
      invariant DeckCost(env, deck.commander, deck.cards) <= fund
      invariant forall j :: 0 <= j < i && FrozenAt(env, j) ==> order[j] in deck.cards
    {
      ghost var before := deck.cards;
      var o;
      ghost var costs;
      o, cardsOut', cardsIn', costs := Reinsert(env, deck, i, order[i], fromSlot, toSlot, fund, cardsOut', cardsIn');
      ghost var p := Opening(deck.commander, before, i, toSlot);
      if o.Frozen? {
        ok, deckCost, exit := false, o.cost, FrozenUnfit(i);
        OpeningKeeps(before, deck.commander, i, toSlot, o.form);
        assert deck.cards == TrialCards(p, o.form);
        return;
      }
      RoundKeeps(env, deck.commander, before, deck.cards, p, costs, i, order[i], toSlot, fund, o);
      i := i + 1;
    }
    deckCost := GetDeckCost(env, deck.commander, deck.cards);
    ok, exit := cardsIn' != [] || cardsOut' != [], Completed;
  }

  /**
   The diffs once the commander has been refitted: when its form changed,
   the old commander goes out and the new one comes in, each cancelling a
   matching entry on the other side.
   */
  function CommanderReplaced(cardsOut: seq<Entry>, cardsIn: seq<Entry>, old_: CardId, new_: CardId): (seq<Entry>, seq<Entry>)
  {
    if new_ == old_ then (cardsOut, cardsIn)
    else
      var (out1, in1) := UnlessRemove(cardsOut, cardsIn, Entry(-1, old_));
      var (in2, out2) := UnlessRemove(in1, out1, Entry(-1, new_));
      (out2, in2)
  }

  /**
   The first two steps of `adjust_deck`: the candidate alone with the old
   commander, then the commander beside the candidate. `placed` tells
   whether both fit, leaving the deck as that commander and the candidate.
   */
  method PlaceCandidate(env: Env, deck: Deck, toSlot: int, card: CardId, fund: U32, cardsOut: seq<Entry>)
    returns (placed: bool, deckCost: U32, cardsOut': seq<Entry>, cardsIn: seq<Entry>,
             ghost candFits: bool, ghost candCosts: map<CardId, U32>, ghost commanderCosts: map<CardId, U32>)
    requires env.cat.Valid() && deck.commander in env.cat.cards && card in env.cat.cards
    modifies deck
    ensures env.cat.cards[card].topLevel in env.cat.cards && CostTable(env, Alone(old(deck.commander)), candCosts)
    ensures var cand := SearchFrom(env.cat, candCosts, env.cat.cards[card].topLevel, fund, env.cfg.useTopLevelCard, false);
      && deck.cards == [cand.form] && candFits == (cand.cost <= fund)
      && (cand.cost > fund ==>
            && !placed && deckCost == cand.cost && deck.commander == old(deck.commander)
            && cardsOut' == cardsOut && cardsIn == [])
      && (cand.cost <= fund ==>
            && PlaceKnown(env.cat, Leading([cand.form]))
            && CostTable(env, Leading([cand.form]), commanderCosts)
            && var cmd := SearchFrom(env.cat, commanderCosts, old(deck.commander), fund, false, false);
            var slot := if deck.random then -1 else toSlot;
            && placed == (cmd.cost <= fund)
            && (cmd.cost > fund ==>
                  && deckCost == cmd.cost && deck.commander == old(deck.commander)
                  && cardsOut' == cardsOut && cardsIn == [Entry(slot, cand.form)])
            && (cmd.cost <= fund ==>
                  && deck.commander == cmd.form && DeckCost(env, deck.commander, deck.cards) <= fund
                  && (cardsOut', cardsIn) == CommanderReplaced(cardsOut, [Entry(slot, cand.form)], old(deck.commander), cmd.form)))
  {
    var commander := deck.commander;
    var cand;
    cand, candCosts := FitCandidate(env, deck, card, fund);
    cardsOut', commanderCosts := cardsOut, map[];
    if cand.cost > fund {
      placed, deckCost, cardsIn, candFits := false, cand.cost, [], false;
      return;
    }
    cardsIn, candFits := [Entry(if deck.random then -1 else toSlot, cand.form)], true;
    SearchFromDescends(env.cat, candCosts, env.cat.cards[card].topLevel, fund, env.cfg.useTopLevelCard, false);
    KnownSingle(env.cat, cand.form);
    var cmd;
    cmd, commanderCosts := FitCommander(env, deck, fund);
    if cmd.cost > fund {
      placed, deckCost := false, cmd.cost;
      return;
    }
    placed, deckCost := true, cmd.cost;
    SearchFromDescends(env.cat, commanderCosts, commander, fund, false, false);
    assert cmd.cost == TrialCost(env, Leading([cand.form]), cmd.form);
    if cmd.form != commander {
      cardsOut', cardsIn := AppendUnlessRemove(cardsOut', cardsIn, Entry(-1, commander));
      cardsIn, cardsOut' := AppendUnlessRemove(cardsIn, cardsOut', Entry(-1, cmd.form));
    }
  }

  /** A reordering has the same length and the same cards. */
  lemma SameCards(a: seq<CardId>, b: seq<CardId>)
    requires multiset(a) == multiset(b)
    ensures |a| == |b| && forall x :: x in a ==> x in b
  {
    assert |a| == |multiset(a)|;
    forall x | x in a ensures x in b {
      assert x in multiset(a);
    }
  }

  /**
   `adjust_deck`: puts `card` into the deck (at `toSlot`) within `fund`,
   re-fitting the commander and then every old card, downgrading each as
   far as needed. `shuffled` is the order in which the old cards are tried
   when the deck is played in random order. `ok` tells whether the result
   is affordable and differs from the deck it started from; `deckCost` is
   the last cost computed.
   */
  method AdjustDeck(env: Env, deck: Deck, fromSlot: int, toSlot: int, card: Option<CardId>, fund: U32,
                    shuffled: seq<CardId>, cardsOut: seq<Entry>)
    returns (ok: bool, deckCost: U32, cardsOut': seq<Entry>, cardsIn: seq<Entry>,
             ghost exit: Exit, ghost candCosts: map<CardId, U32>, ghost commanderCosts: map<CardId, U32>)
    requires env.cat.Valid() && deck.commander in env.cat.cards && Known(env.cat, deck.cards)
    requires card.Some? ==> card.value in env.cat.cards
    requires deck.random ==> multiset(shuffled) == multiset(deck.cards)
    modifies deck
    // no card: the deck is only costed (and its commander recorded when it is the one being changed)
    ensures card.None? <==> exit.NullCard?
    ensures exit.NullCard? ==>
      && deck.commander == old(deck.commander) && deck.cards == old(deck.cards)
      && deckCost == DeckCost(env, deck.commander, deck.cards) && ok == (deckCost <= fund)
      && cardsOut' == cardsOut && cardsIn == (if toSlot < 0 then [Entry(-1, deck.commander)] else [])
    // the candidate, alone with the old commander
    ensures card.Some? ==>
      && env.cat.cards[card.value].topLevel in env.cat.cards
      && CostTable(env, Alone(old(deck.commander)), candCosts)
      && var cand := SearchFrom(env.cat, candCosts, env.cat.cards[card.value].topLevel, fund, env.cfg.useTopLevelCard, false);
      && (exit.CandidateUnfit? <==> cand.cost > fund)
      && (exit.CandidateUnfit? ==>
            && !ok && deckCost == cand.cost && deck.commander == old(deck.commander) && deck.cards == [cand.form]
            && cardsOut' == cardsOut && cardsIn == [])
      // then the commander, beside the candidate
      && (cand.cost <= fund ==>
            && PlaceKnown(env.cat, Leading([cand.form]))
            && CostTable(env, Leading([cand.form]), commanderCosts)
            && var cmd := SearchFrom(env.cat, commanderCosts, old(deck.commander), fund, false, false);
            && (exit.CommanderUnfit? <==> cmd.cost > fund)
            && (exit.CommanderUnfit? ==>
                  && !ok && deckCost == cmd.cost && deck.commander == old(deck.commander) && deck.cards == [cand.form]
                  && cardsOut' == cardsOut && cardsIn == [Entry(if deck.random then -1 else toSlot, cand.form)])
            && (cmd.cost <= fund ==>
                  && deck.commander == cmd.form && cand.form in deck.cards
                  && |deck.cards| <= |old(deck.cards)| + 1
                  && (exit.FrozenUnfit? || exit.Completed?)))
    // the re-insertion loop
    ensures exit.FrozenUnfit? ==>
      !ok && deckCost > fund && exit.index < |old(deck.cards)| && FrozenAt(env, exit.index)
    ensures exit.Completed? ==>
      && Known(env.cat, deck.cards)
      && deckCost == DeckCost(env, deck.commander, deck.cards) && deckCost <= fund
      && ok == (cardsIn != [] || cardsOut' != [])
      && var order := if deck.random then shuffled else old(deck.cards);
         forall j :: 0 <= j < |order| && FrozenAt(env, j) ==> order[j] in deck.cards
  {
    cardsIn := [];
    cardsOut' := cardsOut;
    if card.None? {
      if toSlot < 0 {
        cardsIn := [Entry(-1, deck.commander)];
      }
      deckCost := GetDeckCost(env, deck.commander, deck.cards);
      ok, exit, candCosts, commanderCosts := deckCost <= fund, NullCard, map[], map[];
      return;
    }
    var order := if deck.random then shuffled else deck.cards;
    if deck.random {
      SameCards(shuffled, deck.cards);
    }
    var placed;
    ghost var candFits;
    placed, deckCost, cardsOut', cardsIn, candFits, candCosts, commanderCosts := PlaceCandidate(env, deck, toSlot, card.value, fund, cardsOut);
    if !placed {
      ok := false;
      exit := if candFits then CommanderUnfit else CandidateUnfit;
      return;
    }
    ok, deckCost, cardsOut', cardsIn, exit := ReinsertAll(env, deck, fromSlot, toSlot, order, fund, cardsOut', cardsIn);
  }
}
