/**
 The deck cost resolver: how many copies of each card a deck needs once
 unaffordable cards are downgraded into their recipe ingredients, what
 the upgrades cost, and whether the owned cards cover the result.
 */
module Resolver {
  import opened Cards

  /** The optimizer's global settings that the resolver and the mutator read. */
  datatype Config = Config(
    useOwnedCards: bool,
    fund: U32,
    useTopLevelCard: bool,
    useFusedCardLevel: U32,
    freezedCards: U32)

  /** Everything the resolver reads: catalogue, settings and the owned-card ledger. */
  datatype Env = Env(cat: Catalogue, cfg: Config, owned: map<CardId, U32>)

  /** Reading a count map with `operator[]`: a missing card counts zero. */
  function Get(m: map<CardId, U32>, c: CardId): U32
  {
    if c in m then m[c] else 0
  }

  ghost predicate KnownKeys(cat: Catalogue, m: map<CardId, U32>)
  {
    forall x :: x in m ==> x in cat.cards
  }

  /** Under an endgame level, common and rare level-1 cards of the standard set count as unlimited. */
  predicate Endgame(env: Env, c: CardId)
    requires c in env.cat.cards
  {
    var card := env.cat.cards[c];
    env.cfg.useFusedCardLevel > 0 && card.cardSet == 1000 && card.rarity <= 2 && card.level == 1
  }

  /** The resolver replaces `c` by its recipe when this holds. */
  predicate Downgradable(env: Env, counts: map<CardId, U32>, c: CardId)
    requires c in env.cat.cards
  {
    Endgame(env, c) || (Get(env.owned, c) < Get(counts, c) && env.cat.cards[c].recipe != [])
  }

  // ---------------------------------------------------------------------
  // The worklist: an ordered set of card ids, greatest last.

  ghost predicate Ascending(s: seq<CardId>)
  {
    forall i, j :: 0 <= i < j < |s| ==> s[i] < s[j]
  }

  /** Set insertion into an ascending sequence; an element already present is not added again. */
  function Insert(s: seq<CardId>, x: CardId): (r: seq<CardId>)
    requires Ascending(s)
    ensures Ascending(r)
    ensures forall y :: y in r <==> y in s || y == x
    ensures |r| == if x in s then |s| else |s| + 1
  {
    if s == [] then [x]
    else if x < s[0] then [x] + s
    else if x == s[0] then s
    else
      var t := Insert(s[1..], x);
      assert forall y :: y in s <==> y == s[0] || y in s[1..];
      assert forall k :: 0 <= k < |t| ==> s[0] < t[k] by {
        forall k | 0 <= k < |t| ensures s[0] < t[k] {
          assert t[k] in t;
          if t[k] != x {
            assert t[k] in s[1..];
            var m :| 0 <= m < |s[1..]| && s[1..][m] == t[k];
            assert s[m + 1] == t[k];
          }
        }
      }
      [s[0]] + t
  }

  lemma {:induction false} InsertWeight(cat: Catalogue, s: seq<CardId>, x: CardId)
    requires Ascending(s)
    ensures StackWeight(cat, Insert(s, x)) <= StackWeight(cat, s) + Weight(cat, x)
    decreases |s|
  {
    if s == [] {
      assert Insert(s, x) == [] + [x];
    } else if x < s[0] {
      StackWeightAppend(cat, [x], s);
      assert StackWeight(cat, [x]) == StackWeight(cat, []) + Weight(cat, x) by {
        assert [x][..0] == [];
      }
    } else if x == s[0] {
    } else {
      assert s == [s[0]] + s[1..];
      InsertWeight(cat, s[1..], x);
      StackWeightAppend(cat, [s[0]], s[1..]);
      StackWeightAppend(cat, [s[0]], Insert(s[1..], x));
    }
  }

  /** Inserting the cards of `ids` one by one, in order. */
  function InsertAll(queue: seq<CardId>, ids: seq<CardId>): (r: seq<CardId>)
    requires Ascending(queue)
    ensures Ascending(r)
    ensures forall y :: y in r <==> y in queue || y in ids
  {
    if ids == [] then queue
    else
      assert ids == ids[..|ids| - 1] + [ids[|ids| - 1]];
      Insert(InsertAll(queue, ids[..|ids| - 1]), ids[|ids| - 1])
  }

  lemma {:induction false} InsertAllWeight(cat: Catalogue, queue: seq<CardId>, ids: seq<CardId>)
    requires Ascending(queue)
    ensures StackWeight(cat, InsertAll(queue, ids)) <= StackWeight(cat, queue) + StackWeight(cat, ids)
  {
    if ids != [] {
      var pre := ids[..|ids| - 1];
      InsertAllWeight(cat, queue, pre);
      InsertWeight(cat, InsertAll(queue, pre), ids[|ids| - 1]);
    }
  }

  // ---------------------------------------------------------------------
  // One downgrade.

  /** Adds `under` times each recipe quantity to the ingredient's count, entry by entry in recipe order. */
  function Credit(recipe: seq<Ingredient>, under: U32, counts: map<CardId, U32>): map<CardId, U32>
  {
    if recipe == [] then counts
    else
      var n := Credit(recipe[..|recipe| - 1], under, counts);
      var ing := recipe[|recipe| - 1];
      n[ing.card := AddU32(Get(n, ing.card), MulU32(under, ing.qty))]
  }

  /** Crediting a recipe touches only the recipe's cards. */
  lemma {:induction false} CreditFrame(recipe: seq<Ingredient>, under: U32, counts: map<CardId, U32>)
    ensures forall y :: y in Credit(recipe, under, counts) <==> y in counts || y in CardsOf(recipe)
    ensures forall y :: y !in CardsOf(recipe) ==> Get(Credit(recipe, under, counts), y) == Get(counts, y)
  {
    if recipe != [] {
      var pre := recipe[..|recipe| - 1];
      CreditFrame(pre, under, counts);
      assert CardsOf(recipe) == CardsOf(pre) + [recipe[|recipe| - 1].card];
    }
  }

  /** The total quantity of `y` over the entries of a recipe. */
  function QtyOf(recipe: seq<Ingredient>, y: CardId): nat
  {
    if recipe == [] then 0
    else QtyOf(recipe[..|recipe| - 1], y) + (if recipe[|recipe| - 1].card == y then recipe[|recipe| - 1].qty else 0)
  }

  /** The resolver's loop state: counts so far, cost so far and the unresolved cards. */
  datatype Pending = Pending(counts: map<CardId, U32>, cost: U32, unresolved: seq<CardId>)

  ghost predicate WellFormed(env: Env, p: Pending)
  {
    env.cat.Valid() && Ascending(p.unresolved) && Known(env.cat, p.unresolved) && KnownKeys(env.cat, p.counts)
  }

  lemma {:induction false} NotOwnIngredient(cat: Catalogue, c: CardId)
    requires cat.Valid() && c in cat.cards
    ensures c !in CardsOf(cat.cards[c].recipe)
  {
    assert cat.CardOk(c);
  }

  /**
   Downgrading `c` (already taken off the worklist): its count drops to
   the owned count, the shortfall is paid at the recipe cost, and the
   shortfall times each quantity is added to the ingredients, which are
   queued again.
   */
  function Downgrade(env: Env, p: Pending, c: CardId): (r: Pending)
    requires WellFormed(env, p) && c in env.cat.cards
    ensures WellFormed(env, r)
  {
    var card := env.cat.cards[c];
    RecipeKnown(env.cat, c);
    DemoteFrame(env, p.counts, c);
    Pending(
      Demote(env, p.counts, c),
      AddU32(p.cost, MulU32(Shortfall(env, p.counts, c), card.recipeCost)),
      InsertAll(p.unresolved, CardsOf(card.recipe)))
  }

  /** `num_under`: the required count less the owned count, as an unsigned difference. */
  function Shortfall(env: Env, counts: map<CardId, U32>, c: CardId): U32
  {
    SubU32(Get(counts, c), Get(env.owned, c))
  }

  /** The counts after downgrading `c`: pinned to the owned count, the shortfall credited to the ingredients. */
  function Demote(env: Env, counts: map<CardId, U32>, c: CardId): map<CardId, U32>
    requires c in env.cat.cards
  {
    Credit(env.cat.cards[c].recipe, Shortfall(env, counts, c), counts[c := Get(env.owned, c)])
  }

  /** Demoting `c` pins its count to the owned count and touches no card but `c` and its ingredients. */
  lemma DemoteFrame(env: Env, counts: map<CardId, U32>, c: CardId)
    requires env.cat.Valid() && c in env.cat.cards
    ensures Get(Demote(env, counts, c), c) == Get(env.owned, c)
    ensures forall y :: y in Demote(env, counts, c) <==> y in counts || y == c || y in CardsOf(env.cat.cards[c].recipe)
    ensures forall y :: y != c && y !in CardsOf(env.cat.cards[c].recipe) ==> Get(Demote(env, counts, c), y) == Get(counts, y)
  {
    NotOwnIngredient(env.cat, c);
    CreditFrame(env.cat.cards[c].recipe, Shortfall(env, counts, c), counts[c := Get(env.owned, c)]);
  }

  /** A downgrade leaves the worklist strictly lighter than before `c` was taken off it. */
  lemma DowngradeLighter(env: Env, p: Pending, c: CardId)
    requires WellFormed(env, p) && c in env.cat.cards
    ensures StackWeight(env.cat, Downgrade(env, p, c).unresolved) < StackWeight(env.cat, p.unresolved) + Weight(env.cat, c)
  {
    var card := env.cat.cards[c];
    RecipeKnown(env.cat, c);
    IngredientsWeighLess(env.cat, c);
    InsertAllWeight(env.cat, p.unresolved, CardsOf(card.recipe));
  }

  // ---------------------------------------------------------------------
  // The whole resolution.

  /** The counts and cost a resolution ends with. */
  datatype Resolution = Resolution(counts: map<CardId, U32>, cost: U32)

  /**
   One round of the resolver's loop: the greatest unresolved card is
   taken off the worklist and downgraded if it is downgradable.
   */
  function Next(env: Env, p: Pending): (r: Pending)
    requires WellFormed(env, p) && p.unresolved != []
    ensures WellFormed(env, r)
  {
    var c := p.unresolved[|p.unresolved| - 1];
    var rest := Pending(p.counts, p.cost, p.unresolved[..|p.unresolved| - 1]);
    PopWellFormed(env, p);
    if Downgradable(env, p.counts, c) then Downgrade(env, rest, c) else rest
  }

  /** Taking the greatest card off a well-formed worklist leaves it well-formed, without that card. */
  lemma PopWellFormed(env: Env, p: Pending)
    requires WellFormed(env, p) && p.unresolved != []
    ensures WellFormed(env, Pending(p.counts, p.cost, p.unresolved[..|p.unresolved| - 1]))
    ensures p.unresolved[|p.unresolved| - 1] in env.cat.cards
  {
    var n := |p.unresolved|;
    assert forall y :: y in p.unresolved[..n - 1] ==> y in p.unresolved;
    assert p.unresolved[n - 1] in p.unresolved;
  }

  /** Every round leaves the worklist strictly lighter, so the resolver's loop ends. */
  lemma NextLighter(env: Env, p: Pending)
    requires WellFormed(env, p) && p.unresolved != []
    ensures StackWeight(env.cat, Next(env, p).unresolved) < StackWeight(env.cat, p.unresolved)
  {
    var c := p.unresolved[|p.unresolved| - 1];
    var rest := Pending(p.counts, p.cost, p.unresolved[..|p.unresolved| - 1]);
    PopWellFormed(env, p);
    assert p.unresolved == rest.unresolved + [c];
    StackWeightAppend(env.cat, rest.unresolved, [c]);
    assert StackWeight(env.cat, [c]) == Weight(env.cat, c) by { assert [c][..0] == []; }
    if Downgradable(env, p.counts, c) {
      DowngradeLighter(env, rest, c);
    }
  }

  /** The resolver's loop: rounds run while the fund is positive and cards are unresolved. */
  function Drain(env: Env, p: Pending): Resolution
    requires WellFormed(env, p)
    decreases StackWeight(env.cat, p.unresolved)
  {
    if env.cfg.fund == 0 || p.unresolved == [] then Resolution(p.counts, p.cost)
    else
      NextLighter(env, p);
      Drain(env, Next(env, p))
  }

  /** One more copy of each card of `list`. */
  function Tally(counts: map<CardId, U32>, list: seq<CardId>): map<CardId, U32>
  {
    if list == [] then counts
    else
      var n := Tally(counts, list[..|list| - 1]);
      var c := list[|list| - 1];
      n[c := AddU32(Get(n, c), 1)]
  }

  /** Tallying touches only the listed cards. */
  lemma {:induction false} TallyFrame(counts: map<CardId, U32>, list: seq<CardId>)
    ensures forall y :: y in Tally(counts, list) <==> y in counts || y in list
    ensures forall y :: y !in list ==> Get(Tally(counts, list), y) == Get(counts, y)
  {
    if list != [] {
      var pre := list[..|list| - 1];
      TallyFrame(counts, pre);
      assert list == pre + [list[|list| - 1]];
    }
  }

  /** `get_required_cards_before_upgrade` as a function of its inputs. */
  function Resolve(env: Env, list: seq<CardId>, counts: map<CardId, U32>): Resolution
    requires env.cat.Valid() && Known(env.cat, list) && KnownKeys(env.cat, counts)
  {
    TallyFrame(counts, list);
    Drain(env, Pending(Tally(counts, list), 0, InsertAll([], list)))
  }

  /**
   `get_required_cards_before_upgrade`: adds the requested cards to
   `counts`, then downgrades the greatest unresolved card while the fund
   is positive; returns the upgrade cost and the new counts.
   */
  method RequiredCardsBeforeUpgrade(env: Env, list: seq<CardId>, counts: map<CardId, U32>)
    returns (cost: U32, counts': map<CardId, U32>)
    requires env.cat.Valid() && Known(env.cat, list) && KnownKeys(env.cat, counts)
    ensures Resolution(counts', cost) == Resolve(env, list, counts)
  {
    var unresolved;
    counts', unresolved := CountRequested(counts, list);
    cost := 0;
    TallyFrame(counts, list);
    ghost var goal := Drain(env, Pending(counts', 0, unresolved));
    while env.cfg.fund > 0 && unresolved != []
      invariant WellFormed(env, Pending(counts', cost, unresolved))
      invariant Drain(env, Pending(counts', cost, unresolved)) == goal
      decreases StackWeight(env.cat, unresolved)
    {
      NextLighter(env, Pending(counts', cost, unresolved));
      counts', cost, unresolved := Round(env, counts', cost, unresolved);
    }
  }

  /** One round of the resolver's loop, in place. */
  method Round(env: Env, counts: map<CardId, U32>, cost: U32, unresolved: seq<CardId>)
    returns (counts': map<CardId, U32>, cost': U32, unresolved': seq<CardId>)
    requires WellFormed(env, Pending(counts, cost, unresolved)) && unresolved != []
    ensures Pending(counts', cost', unresolved') == Next(env, Pending(counts, cost, unresolved))
  {
    counts', cost' := counts, cost;
    var c := unresolved[|unresolved| - 1];
    unresolved' := unresolved[..|unresolved| - 1];
    if Downgradable(env, counts, c) {
      var card := env.cat.cards[c];
      var under := SubU32(Get(counts, c), Get(env.owned, c));
      counts' := counts'[c := Get(env.owned, c)];
      cost' := AddU32(cost', MulU32(under, card.recipeCost));
      counts', unresolved' := CreditRecipe(card.recipe, under, counts', unresolved');
    }
  }

  /** The first loop: one more copy of each requested card, which is queued. */
  method CountRequested(counts: map<CardId, U32>, list: seq<CardId>) returns (counts': map<CardId, U32>, queue: seq<CardId>)
    ensures counts' == Tally(counts, list) && queue == InsertAll([], list)
  {
    counts', queue := counts, [];
    for k := 0 to |list|
      invariant counts' == Tally(counts, list[..k]) && queue == InsertAll([], list[..k])
    {
      var c := list[k];
      TallyStep(counts, list, k);
      counts' := counts'[c := AddU32(Get(counts', c), 1)];
      queue := Insert(queue, c);
    }
    assert list[..|list|] == list;
  }

  /** The inner loop of a downgrade, over the entries of the recipe. */
  method CreditRecipe(recipe: seq<Ingredient>, under: U32, counts: map<CardId, U32>, queue: seq<CardId>)
    returns (counts': map<CardId, U32>, queue': seq<CardId>)
    requires Ascending(queue)
    ensures counts' == Credit(recipe, under, counts) && queue' == InsertAll(queue, CardsOf(recipe))
  {
    counts', queue' := counts, queue;
    for k := 0 to |recipe|
      invariant counts' == Credit(recipe[..k], under, counts) && queue' == InsertAll(queue, CardsOf(recipe[..k]))
    {
      var ing := recipe[k];
      CreditStep(recipe, k, under, counts, queue);
      counts' := counts'[ing.card := AddU32(Get(counts', ing.card), MulU32(under, ing.qty))];
      queue' := Insert(queue', ing.card);
    }
    assert recipe[..|recipe|] == recipe;
  }

  /** One more requested card: the tally and the worklist extend by one step. */
  lemma {:induction false} TallyStep(counts: map<CardId, U32>, list: seq<CardId>, k: nat)
    requires k < |list|
    ensures Tally(counts, list[..k + 1]) == Tally(counts, list[..k])[list[k] := AddU32(Get(Tally(counts, list[..k]), list[k]), 1)]
    ensures InsertAll([], list[..k + 1]) == Insert(InsertAll([], list[..k]), list[k])
  {
    assert list[..k + 1][..k] == list[..k];
  }

  /** One more recipe entry: the credited counts and the worklist extend by one step. */
  lemma {:induction false} CreditStep(recipe: seq<Ingredient>, k: nat, under: U32, counts: map<CardId, U32>, queue: seq<CardId>)
    requires k < |recipe| && Ascending(queue)
    ensures var n := Credit(recipe[..k], under, counts);
      Credit(recipe[..k + 1], under, counts) == n[recipe[k].card := AddU32(Get(n, recipe[k].card), MulU32(under, recipe[k].qty))]
    ensures InsertAll(queue, CardsOf(recipe[..k + 1])) == Insert(InsertAll(queue, CardsOf(recipe[..k])), recipe[k].card)
  {
    assert recipe[..k + 1][..k] == recipe[..k];
    var ids := CardsOf(recipe[..k + 1]);
    assert ids[..|ids| - 1] == CardsOf(recipe[..k]);
  }

  // ---------------------------------------------------------------------
  // The cost of a whole deck.

  /** The commander and then the cards, resolved into one shared count map. */
  function DeckResolution(env: Env, commander: CardId, cards: seq<CardId>): Resolution
    requires env.cat.Valid() && commander in env.cat.cards && Known(env.cat, cards)
  {
    var first := Resolve(env, [commander], map[]);
    ResolveKnownKeys(env, [commander], map[]);
    var second := Resolve(env, cards, first.counts);
    Resolution(second.counts, AddU32(first.cost, second.cost))
  }

  /** Some card is needed in more copies than are owned. */
  predicate Overdrawn(env: Env, counts: map<CardId, U32>)
  {
    exists x :: x in counts && counts[x] > Get(env.owned, x)
  }

  /** `get_deck_cost`: 0 without an owned-card ledger, UINT_MAX when the ledger cannot cover the deck. */
  function DeckCost(env: Env, commander: CardId, cards: seq<CardId>): U32
    requires env.cat.Valid() && commander in env.cat.cards && Known(env.cat, cards)
  {
    if !env.cfg.useOwnedCards then 0
    else
      var r := DeckResolution(env, commander, cards);
      if Overdrawn(env, r.counts) then UintMax else r.cost
  }

  /**
   `get_deck_cost`: resolves the commander and then the cards into one
   count map and checks every count against the ledger.
   */
  method GetDeckCost(env: Env, commander: CardId, cards: seq<CardId>) returns (cost: U32)
    requires env.cat.Valid() && commander in env.cat.cards && Known(env.cat, cards)
    ensures !env.cfg.useOwnedCards ==> cost == 0
    ensures env.cfg.useOwnedCards && Overdrawn(env, DeckResolution(env, commander, cards).counts) ==> cost == UintMax
    ensures env.cfg.useOwnedCards && !Overdrawn(env, DeckResolution(env, commander, cards).counts) ==>
      cost == DeckResolution(env, commander, cards).cost
    ensures cost == DeckCost(env, commander, cards)
  {
    if !env.cfg.useOwnedCards {
      return 0;
    }
    var counts: map<CardId, U32> := map[];
    var first;
    first, counts := RequiredCardsBeforeUpgrade(env, [commander], counts);
    ResolveKnownKeys(env, [commander], map[]);
    var second;
    second, counts := RequiredCardsBeforeUpgrade(env, cards, counts);
    cost := AddU32(first, second);
    var left := counts.Keys;
    while left != {}
      invariant left <= counts.Keys
      invariant forall x :: x in counts && x !in left ==> counts[x] <= Get(env.owned, x)
      decreases left
    {
      var x :| x in left;
      if counts[x] > Get(env.owned, x) {
        return UintMax;
      }
      left := left - {x};
    }
  }

  lemma {:induction false} ResolveKnownKeys(env: Env, list: seq<CardId>, counts: map<CardId, U32>)
    requires env.cat.Valid() && Known(env.cat, list) && KnownKeys(env.cat, counts)
    ensures KnownKeys(env.cat, Resolve(env, list, counts).counts)
  {
    TallyFrame(counts, list);
    DrainKnownKeys(env, Pending(Tally(counts, list), 0, InsertAll([], list)));
  }

  lemma {:induction false} DrainKnownKeys(env: Env, p: Pending)
    requires WellFormed(env, p)
    ensures KnownKeys(env.cat, Drain(env, p).counts)
    decreases StackWeight(env.cat, p.unresolved)
  {
    if env.cfg.fund != 0 && p.unresolved != [] {
      NextLighter(env, p);
      DrainKnownKeys(env, Next(env, p));
    }
  }
}
