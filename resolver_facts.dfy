/**
 What the deck cost resolver promises: the zero-fund case, the effect of
 one downgrade, the state the counts are left in, and the three outcomes
 of the deck cost.
 */
module ResolverFacts {
  import opened Cards
  import opened Resolver

  // ---------------------------------------------------------------------
  // Counting the requested cards.

  /** Each requested card's count rises by its multiplicity in the list, modulo 2^32. */
  lemma {:induction false} TallyCounts(counts: map<CardId, U32>, list: seq<CardId>, y: CardId)
    ensures Get(Tally(counts, list), y) == Wrap(Get(counts, y) + multiset(list)[y])
  {
    if list != [] {
      var pre := list[..|list| - 1];
      var c := list[|list| - 1];
      assert list == pre + [c];
      TallyCounts(counts, pre, y);
      var mp: multiset<CardId> := multiset(pre);
      assert multiset(list)[y] == mp[y] + (if c == y then 1 else 0);
      if c == y {
        WrapSum(Get(counts, y) + mp[y], 1, Get(counts, y) + multiset(list)[y]);
      }
    }
  }

  /**
   With a zero fund the resolver downgrades nothing: every count rises by
   the card's multiplicity in the list and the cost is 0.
   */
  lemma ZeroFundResolve(env: Env, list: seq<CardId>, counts: map<CardId, U32>)
    requires env.cat.Valid() && Known(env.cat, list) && KnownKeys(env.cat, counts)
    requires env.cfg.fund == 0
    ensures Resolve(env, list, counts).cost == 0
    ensures forall y :: y in Resolve(env, list, counts).counts <==> y in counts || y in list
    ensures forall y :: Get(Resolve(env, list, counts).counts, y) == Wrap(Get(counts, y) + multiset(list)[y])
  {
    TallyFrame(counts, list);
    forall y: CardId ensures Get(Resolve(env, list, counts).counts, y) == Wrap(Get(counts, y) + multiset(list)[y]) {
      ZeroFundCountOf(env, list, counts, y);
    }
  }

  lemma ZeroFundCountOf(env: Env, list: seq<CardId>, counts: map<CardId, U32>, y: CardId)
    requires env.cat.Valid() && Known(env.cat, list) && KnownKeys(env.cat, counts)
    requires env.cfg.fund == 0
    ensures Resolve(env, list, counts).counts == Tally(counts, list)
    ensures Get(Resolve(env, list, counts).counts, y) == Wrap(Get(counts, y) + multiset(list)[y])
  {
    TallyCounts(counts, list, y);
  }

  // ---------------------------------------------------------------------
  // One downgrade.

  /** Each ingredient's count rises by `under` times its total quantity in the recipe, modulo 2^32. */
  lemma {:induction false} CreditCounts(recipe: seq<Ingredient>, under: U32, counts: map<CardId, U32>, y: CardId)
    ensures Get(Credit(recipe, under, counts), y) == Wrap(Get(counts, y) + Mul(under, QtyOf(recipe, y)))
  {
    if recipe == [] {
      assert Mul(under, QtyOf(recipe, y)) == 0;
    } else {
      var pre := recipe[..|recipe| - 1];
      var ing := recipe[|recipe| - 1];
      CreditCounts(pre, under, counts, y);
      var a := Get(counts, y) + Mul(under, QtyOf(pre, y));
      if ing.card == y {
        assert Get(Credit(recipe, under, counts), y) == Wrap(Wrap(a) + Wrap(Mul(under, ing.qty)));
        MulDistributes(under, QtyOf(pre, y), ing.qty, QtyOf(recipe, y));
        WrapSum(a, Mul(under, ing.qty), Get(counts, y) + Mul(under, QtyOf(recipe, y)));
      } else {
        assert Get(Credit(recipe, under, counts), y) == Wrap(a);
        assert QtyOf(recipe, y) == QtyOf(pre, y);
      }
    }
  }


  /**
   Downgrading `c` grows each other card's count by the shortfall of `c`
   times the card's quantity in the recipe, modulo 2^32.
   */
  lemma DowngradeStep(env: Env, p: Pending, c: CardId)
    requires WellFormed(env, p) && c in env.cat.cards
    ensures forall y :: y != c ==>
      Get(Downgrade(env, p, c).counts, y) == Wrap(Get(p.counts, y) + Mul(Shortfall(env, p.counts, c), QtyOf(env.cat.cards[c].recipe, y)))
  {
    forall y: CardId | y != c
      ensures Get(Downgrade(env, p, c).counts, y) == Wrap(Get(p.counts, y) + Mul(Shortfall(env, p.counts, c), QtyOf(env.cat.cards[c].recipe, y)))
    {
      DowngradeCountOf(env, p, c, y);
    }
  }

  lemma DowngradeCountOf(env: Env, p: Pending, c: CardId, y: CardId)
    requires WellFormed(env, p) && c in env.cat.cards && y != c
    ensures Get(Downgrade(env, p, c).counts, y) == Wrap(Get(p.counts, y) + Mul(Shortfall(env, p.counts, c), QtyOf(env.cat.cards[c].recipe, y)))
  {
    DemoteCountOf(env, p.counts, c, y);
    DowngradeDemotes(env, p, c, y);
  }

  lemma DowngradeDemotes(env: Env, p: Pending, c: CardId, y: CardId)
    requires WellFormed(env, p) && c in env.cat.cards
    ensures Get(Downgrade(env, p, c).counts, y) == Get(Demote(env, p.counts, c), y)
  {
    assert Downgrade(env, p, c).counts == Demote(env, p.counts, c);
  }

  /** Downgrading `c` grows the cost by the shortfall of `c` times its recipe cost, modulo 2^32. */
  lemma DowngradeCost(env: Env, p: Pending, c: CardId)
    requires WellFormed(env, p) && c in env.cat.cards
    ensures Downgrade(env, p, c).cost == Wrap(p.cost + Mul(Shortfall(env, p.counts, c), env.cat.cards[c].recipeCost))
  {
    var m := Mul(Shortfall(env, p.counts, c), env.cat.cards[c].recipeCost);
    WrapSum(p.cost, m, p.cost + m);
    assert Downgrade(env, p, c).cost == Wrap(p.cost + Wrap(m));
  }

  /**
   Downgrading `c` sets its count to the owned count, changes no count
   but those of `c` and its ingredients,
   adds only those cards to the counts, and queues exactly the
   ingredients.
   */
  lemma DowngradeFrame(env: Env, p: Pending, c: CardId)
    requires WellFormed(env, p) && c in env.cat.cards
    ensures Get(Downgrade(env, p, c).counts, c) == Get(env.owned, c)
    ensures forall y :: y != c && y !in CardsOf(env.cat.cards[c].recipe) ==> Get(Downgrade(env, p, c).counts, y) == Get(p.counts, y)
    ensures forall y :: y in Downgrade(env, p, c).counts <==> y in p.counts || y == c || y in CardsOf(env.cat.cards[c].recipe)
    ensures forall y :: y in Downgrade(env, p, c).unresolved <==> y in p.unresolved || y in CardsOf(env.cat.cards[c].recipe)
  {
    var r := Downgrade(env, p, c);
    assert r.counts == Demote(env, p.counts, c);
    assert r.unresolved == InsertAll(p.unresolved, CardsOf(env.cat.cards[c].recipe));
    DemoteFrame(env, p.counts, c);
  }

  /**
   The shortfall is the plain difference when the card is short, and
   wraps around when an endgame card is held in fewer copies than owned.
   */
  lemma ShortfallCases(env: Env, counts: map<CardId, U32>, c: CardId)
    ensures Get(env.owned, c) <= Get(counts, c) ==> Shortfall(env, counts, c) == Get(counts, c) - Get(env.owned, c)
    ensures Get(counts, c) < Get(env.owned, c) ==> Shortfall(env, counts, c) == 0x1_0000_0000 - (Get(env.owned, c) - Get(counts, c))
  {
    if Get(counts, c) < Get(env.owned, c) {
      WrapUnique(Get(counts, c) - Get(env.owned, c), -1, 0x1_0000_0000 - (Get(env.owned, c) - Get(counts, c)));
    }
  }

  lemma DemoteCountOf(env: Env, counts: map<CardId, U32>, c: CardId, y: CardId)
    requires c in env.cat.cards && y != c
    ensures Get(Demote(env, counts, c), y) == Wrap(Get(counts, y) + Mul(Shortfall(env, counts, c), QtyOf(env.cat.cards[c].recipe, y)))
  {
    CreditCounts(env.cat.cards[c].recipe, Shortfall(env, counts, c), counts[c := Get(env.owned, c)], y);
  }

  // ---------------------------------------------------------------------
  // Where the counts end.

  /**
   A card is settled when the resolver has nothing more to do for it:
   an endgame card sits at the owned count; any other card is covered by
   the owned copies or has no recipe to downgrade into.
   */
  predicate Settled(env: Env, counts: map<CardId, U32>, y: CardId)
    requires y in env.cat.cards
  {
    if Endgame(env, y) then Get(counts, y) == Get(env.owned, y)
    else Get(counts, y) <= Get(env.owned, y) || env.cat.cards[y].recipe == []
  }

  /** Every counted card that is not waiting on the worklist is settled. */
  ghost predicate SettledOff(env: Env, p: Pending)
    requires WellFormed(env, p)
  {
    forall y :: y in p.counts && y !in p.unresolved ==> Settled(env, p.counts, y)
  }

  lemma {:induction false} GreatestIsLast(s: seq<CardId>)
    requires Ascending(s) && s != []
    ensures s[|s| - 1] !in s[..|s| - 1]
  {
  }

  lemma NextKeepsSettled(env: Env, p: Pending)
    requires WellFormed(env, p) && p.unresolved != [] && SettledOff(env, p)
    ensures SettledOff(env, Next(env, p))
  {
    var c := p.unresolved[|p.unresolved| - 1];
    var rest := Pending(p.counts, p.cost, p.unresolved[..|p.unresolved| - 1]);
    PopKeepsSettled(env, p);
    PopWellFormed(env, p);
    if Downgradable(env, p.counts, c) {
      assert Next(env, p) == Downgrade(env, rest, c);
      DowngradeKeepsSettled(env, rest, c);
    } else {
      assert Next(env, p) == rest;
    }
  }

  /**
   Taking the greatest card off the worklist keeps every other counted
   card settled; the card taken off is settled itself unless it is
   downgradable.
   */
  lemma PopKeepsSettled(env: Env, p: Pending)
    requires WellFormed(env, p) && p.unresolved != [] && SettledOff(env, p)
    ensures var c := p.unresolved[|p.unresolved| - 1];
      && c !in p.unresolved[..|p.unresolved| - 1]
      && (forall y :: y in p.counts && y !in p.unresolved[..|p.unresolved| - 1] && y != c ==> Settled(env, p.counts, y))
      && (!Downgradable(env, p.counts, c) ==> SettledOff(env, Pending(p.counts, p.cost, p.unresolved[..|p.unresolved| - 1])))
  {
    var c := p.unresolved[|p.unresolved| - 1];
    var rest := p.unresolved[..|p.unresolved| - 1];
    assert p.unresolved == rest + [c];
    GreatestIsLast(p.unresolved);
  }

  /** Downgrading `c` settles `c` and disturbs no settled card outside its recipe. */
  lemma DowngradeKeepsSettled(env: Env, p: Pending, c: CardId)
    requires WellFormed(env, p) && c in env.cat.cards && c !in p.unresolved
    requires forall y :: y in p.counts && y !in p.unresolved && y != c ==> Settled(env, p.counts, y)
    ensures SettledOff(env, Downgrade(env, p, c))
  {
    var r := Downgrade(env, p, c);
    DowngradeFrame(env, p, c);
    forall y: CardId | y in r.counts && y !in r.unresolved ensures Settled(env, r.counts, y) {
      if y != c {
        assert y !in CardsOf(env.cat.cards[c].recipe);
        assert y in p.counts && y !in p.unresolved;
        assert Get(r.counts, y) == Get(p.counts, y);
        assert Settled(env, p.counts, y);
      }
    }
  }

  /**
   With a positive fund the resolver stops only when every counted card
   is settled, provided the cards counted before the call and not
   requested again were settled.
   */
  lemma {:induction false} DrainSettles(env: Env, p: Pending)
    requires WellFormed(env, p) && SettledOff(env, p) && env.cfg.fund > 0
    ensures forall y :: y in Drain(env, p).counts ==> y in env.cat.cards && Settled(env, Drain(env, p).counts, y)
    decreases StackWeight(env.cat, p.unresolved)
  {
    if p.unresolved != [] {
      NextKeepsSettled(env, p);
      NextLighter(env, p);
      DrainSettles(env, Next(env, p));
    }
  }

  lemma ResolveSettles(env: Env, list: seq<CardId>, counts: map<CardId, U32>)
    requires env.cat.Valid() && Known(env.cat, list) && KnownKeys(env.cat, counts) && env.cfg.fund > 0
    requires forall y :: y in counts && y !in list ==> Settled(env, counts, y)
    ensures forall y :: y in Resolve(env, list, counts).counts ==> y in env.cat.cards && Settled(env, Resolve(env, list, counts).counts, y)
  {
    var n := Tally(counts, list);
    var q := InsertAll([], list);
    TallyFrame(counts, list);
    forall y: CardId | y in n && y !in q ensures Settled(env, n, y) {
      assert Get(n, y) == Get(counts, y);
    }
    DrainSettles(env, Pending(n, 0, q));
  }

  // ---------------------------------------------------------------------
  // The deck cost.

  /**
   `get_deck_cost` has three outcomes: 0 without an owned-card ledger;
   UINT_MAX when some resolved count of the commander and the cards
   exceeds the owned count; otherwise the summed downgrade cost.
   */
  lemma DeckCostCases(env: Env, commander: CardId, cards: seq<CardId>)
    requires env.cat.Valid() && commander in env.cat.cards && Known(env.cat, cards)
    ensures !env.cfg.useOwnedCards ==> DeckCost(env, commander, cards) == 0
    ensures env.cfg.useOwnedCards ==>
      (DeckCost(env, commander, cards) == UintMax <==>
        Overdrawn(env, DeckResolution(env, commander, cards).counts) || DeckResolution(env, commander, cards).cost == UintMax)
    ensures env.cfg.useOwnedCards && !Overdrawn(env, DeckResolution(env, commander, cards).counts) ==>
      DeckCost(env, commander, cards) == DeckResolution(env, commander, cards).cost
  {
  }

  /**
   With a positive fund, a deck is priced UINT_MAX only because of base
   cards: every count still above the owned count belongs to a
   non-endgame card without a recipe.
   */
  lemma ShortOnlyOfBaseCards(env: Env, commander: CardId, cards: seq<CardId>)
    requires env.cat.Valid() && commander in env.cat.cards && Known(env.cat, cards) && env.cfg.fund > 0
    ensures var r := DeckResolution(env, commander, cards);
      forall y :: y in r.counts && Get(r.counts, y) > Get(env.owned, y) ==>
        y in env.cat.cards && !Endgame(env, y) && env.cat.cards[y].recipe == []
  {
    ResolveSettles(env, [commander], map[]);
    var first := Resolve(env, [commander], map[]);
    ResolveKnownKeys(env, [commander], map[]);
    ResolveSettles(env, cards, first.counts);
  }

  /** With a zero fund a deck's counts are the multiplicities of its cards, commander included, modulo 2^32. */
  lemma ZeroFundDeckCounts(env: Env, commander: CardId, cards: seq<CardId>)
    requires env.cat.Valid() && commander in env.cat.cards && Known(env.cat, cards)
    requires env.cfg.fund == 0
    ensures var r := DeckResolution(env, commander, cards);
      r.cost == 0 && forall y: CardId :: (y in r.counts <==> y in multiset([commander] + cards)) && Get(r.counts, y) == Wrap(multiset([commander] + cards)[y])
  {
    var first := Resolve(env, [commander], map[]);
    ZeroFundResolve(env, [commander], map[]);
    ResolveKnownKeys(env, [commander], map[]);
    ZeroFundResolve(env, cards, first.counts);
    forall y: CardId ensures Get(DeckResolution(env, commander, cards).counts, y) == Wrap(multiset([commander] + cards)[y]) {
      DeckCountOf(env, commander, cards, y);
    }
  }

  lemma DeckCountOf(env: Env, commander: CardId, cards: seq<CardId>, y: CardId)
    requires env.cat.Valid() && commander in env.cat.cards && Known(env.cat, cards)
    requires env.cfg.fund == 0
    ensures Get(DeckResolution(env, commander, cards).counts, y) == Wrap(multiset([commander] + cards)[y])
  {
    var mc: multiset<CardId> := multiset([commander]);
    var md: multiset<CardId> := multiset(cards);
    assert multiset([commander] + cards) == mc + md;
    var first := Resolve(env, [commander], map[]);
    ZeroFundCountOf(env, [commander], map[], y);
    ResolveKnownKeys(env, [commander], map[]);
    ZeroFundCountOf(env, cards, first.counts, y);
    WrapSum(Get(map[], y) + mc[y], md[y], multiset([commander] + cards)[y]);
  }

  /**
   With a zero fund nothing is downgraded: the deck costs 0 when every
   card's multiplicity (commander included, modulo 2^32) is owned, and
   UINT_MAX otherwise.
   */
  lemma ZeroFundDeckCost(env: Env, commander: CardId, cards: seq<CardId>)
    requires env.cat.Valid() && commander in env.cat.cards && Known(env.cat, cards)
    requires env.cfg.useOwnedCards && env.cfg.fund == 0
    ensures var m := multiset([commander] + cards);
      DeckCost(env, commander, cards) == if exists y :: y in m && Wrap(m[y]) > Get(env.owned, y) then UintMax else 0
  {
    var m := multiset([commander] + cards);
    var r := DeckResolution(env, commander, cards);
    ZeroFundDeckCounts(env, commander, cards);
    if Overdrawn(env, r.counts) {
      var y :| y in r.counts && r.counts[y] > Get(env.owned, y);
      assert y in m && Wrap(m[y]) > Get(env.owned, y);
    } else {
      forall y: CardId | y in m ensures Wrap(m[y]) <= Get(env.owned, y) {
        assert y in r.counts;
      }
    }
  }

  /** The resolver leaves the counts and the cost alone while no queued card is downgradable. */
  lemma {:induction false} DrainIdle(env: Env, p: Pending)
    requires WellFormed(env, p)
    requires forall y :: y in p.counts ==> y in env.cat.cards && !Endgame(env, y) && Get(p.counts, y) <= Get(env.owned, y)
    requires forall y :: y in p.unresolved ==> y in p.counts
    ensures Drain(env, p) == Resolution(p.counts, p.cost)
    decreases StackWeight(env.cat, p.unresolved)
  {
    if env.cfg.fund != 0 && p.unresolved != [] {
      var c := p.unresolved[|p.unresolved| - 1];
      var rest := Pending(p.counts, p.cost, p.unresolved[..|p.unresolved| - 1]);
      assert c in p.counts;
      assert !Downgradable(env, p.counts, c);
      assert Next(env, p) == rest;
      assert forall y :: y in rest.unresolved ==> y in p.unresolved;
      NextLighter(env, p);
      DrainIdle(env, rest);
    }
  }

  /**
   Without endgame levels, requesting cards that the owned counts cover
   downgrades nothing: the counts grow by the requested copies and the
   cost is zero.
   */
  lemma ResolveOwned(env: Env, list: seq<CardId>, counts: map<CardId, U32>)
    requires env.cat.Valid() && Known(env.cat, list) && KnownKeys(env.cat, counts)
    requires env.cfg.useFusedCardLevel == 0
    requires forall y: CardId :: Get(counts, y) + multiset(list)[y] <= Get(env.owned, y)
    ensures Resolve(env, list, counts).cost == 0
    ensures forall y: CardId :: Get(Resolve(env, list, counts).counts, y) == Get(counts, y) + multiset(list)[y]
    ensures KnownKeys(env.cat, Resolve(env, list, counts).counts)
  {
    var n := Tally(counts, list);
    TallyFrame(counts, list);
    forall y: CardId ensures Get(n, y) == Get(counts, y) + multiset(list)[y] {
      TallyCounts(counts, list, y);
    }
    forall y: CardId | y in n ensures y in env.cat.cards && !Endgame(env, y) && Get(n, y) <= Get(env.owned, y) {
    }
    DrainIdle(env, Pending(n, 0, InsertAll([], list)));
  }

  /**
   Without endgame levels, a deck whose every card (commander included)
   is owned in at least the copies it holds costs nothing, whatever the
   fund.
   */
  lemma OwnedDeckIsFree(env: Env, commander: CardId, cards: seq<CardId>)
    requires env.cat.Valid() && commander in env.cat.cards && Known(env.cat, cards)
    requires env.cfg.useFusedCardLevel == 0
    requires forall y: CardId :: multiset([commander] + cards)[y] <= Get(env.owned, y)
    ensures DeckCost(env, commander, cards) == 0
  {
    var mc: multiset<CardId> := multiset([commander]);
    var md: multiset<CardId> := multiset(cards);
    assert multiset([commander] + cards) == mc + md;
    ResolveOwned(env, [commander], map[]);
    var first := Resolve(env, [commander], map[]);
    ResolveOwned(env, cards, first.counts);
    var r := DeckResolution(env, commander, cards);
    assert r.cost == 0;
    assert !Overdrawn(env, r.counts);
  }
}
