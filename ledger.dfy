/**
 The owned-card ledger and `claim_cards`, which raises the ledger until
 it covers the counts one list of cards needs once downgraded as far as
 the fund allows. The program claims a starting deck's commander and its
 cards in two separate calls.
 */
module Ledger {
  import opened Cards
  import opened Resolver
  import opened ResolverFacts

  /**
   The ledger after claiming `counts`: each card is owned as often as the
   larger of its owned and needed counts, and a card gains an entry only
   when it was short.
   */
  function Claimed(owned: map<CardId, U32>, counts: map<CardId, U32>): (r: map<CardId, U32>)
    ensures forall c :: c in r <==> c in owned || Get(counts, c) > Get(owned, c)
    ensures forall c :: Get(counts, c) <= Get(r, c) && Get(owned, c) <= Get(r, c)
    ensures forall c :: Get(r, c) == Get(owned, c) || Get(r, c) == Get(counts, c)
  {
    map c | c in owned.Keys + counts.Keys && (c in owned || counts[c] > Get(owned, c)) ::
      if c in counts && counts[c] > Get(owned, c) then counts[c] else owned[c]
  }

  /** The claimed ledger is the least one covering both the owned and the needed counts. */
  lemma ClaimedLeast(owned: map<CardId, U32>, counts: map<CardId, U32>, other: map<CardId, U32>, c: CardId)
    requires Get(counts, c) <= Get(other, c) && Get(owned, c) <= Get(other, c)
    ensures Get(Claimed(owned, counts), c) <= Get(other, c)
  {
  }

  /** Claiming what is already covered changes nothing, so claiming twice is claiming once. */
  lemma ClaimedIdempotent(owned: map<CardId, U32>, counts: map<CardId, U32>)
    ensures Claimed(Claimed(owned, counts), counts) == Claimed(owned, counts)
  {
    var once := Claimed(owned, counts);
    var twice := Claimed(once, counts);
    assert forall c :: c in twice <==> c in once;
    forall c | c in twice
      ensures twice[c] == once[c]
    {
      assert Get(twice, c) == Get(once, c);
    }
  }

  /** With a zero fund, claiming a list covers each card's multiplicity in it, modulo 2^32. */
  lemma ClaimAtZeroFund(cat: Catalogue, cfg: Config, owned: map<CardId, U32>, list: seq<CardId>, y: CardId)
    requires cat.Valid() && Known(cat, list) && cfg.fund == 0
    ensures Wrap(multiset(list)[y]) <= Get(Claimed(owned, Resolve(Env(cat, cfg, owned), list, map[]).counts), y)
  {
    ZeroFundCountOf(Env(cat, cfg, owned), list, map[], y);
  }

  /**
   The program claims a deck's commander and then its cards, each from
   fresh counts. With a zero fund nothing is downgraded, and the two
   claims leave a ledger under which the deck costs nothing, provided the
   commander is not also one of the cards.
   */
  lemma ClaimDeckAtZeroFund(cat: Catalogue, cfg: Config, owned: map<CardId, U32>, commander: CardId, cards: seq<CardId>)
    requires cat.Valid() && commander in cat.cards && Known(cat, cards)
    requires cfg.useOwnedCards && cfg.fund == 0 && commander !in cards
    ensures var first := Claimed(owned, Resolve(Env(cat, cfg, owned), [commander], map[]).counts);
      var second := Claimed(first, Resolve(Env(cat, cfg, first), cards, map[]).counts);
      DeckCost(Env(cat, cfg, second), commander, cards) == 0
  {
    var first := Claimed(owned, Resolve(Env(cat, cfg, owned), [commander], map[]).counts);
    var second := Claimed(first, Resolve(Env(cat, cfg, first), cards, map[]).counts);
    var m := multiset([commander] + cards);
    forall y | y in m
      ensures Wrap(m[y]) <= Get(second, y)
    {
      ClaimAtZeroFund(cat, cfg, owned, [commander], y);
      ClaimAtZeroFund(cat, cfg, first, cards, y);
      if y == commander {
        assert m[y] == multiset([commander])[y];
      } else {
        assert m[y] == multiset(cards)[y];
      }
    }
    ZeroFundDeckCost(Env(cat, cfg, second), commander, cards);
  }

  /** The owned cards: card id to number of copies. */
  class OwnedCards {
    var owned: map<CardId, U32>

    constructor (owned: map<CardId, U32>)
      ensures this.owned == owned
    {
      this.owned := owned;
    }

    /** The environment the resolver sees while this ledger is the owned-card list. */
    function EnvOf(cat: Catalogue, cfg: Config): Env
      reads this
    {
      Env(cat, cfg, owned)
    }

    /**
     `claim_cards`: resolves `list` against the ledger, then raises every
     resolved count the ledger does not cover to exactly that count.
     */
    method ClaimCards(cat: Catalogue, cfg: Config, list: seq<CardId>)
      requires cat.Valid() && Known(cat, list)
      modifies this
      ensures owned == Claimed(old(owned), Resolve(old(EnvOf(cat, cfg)), list, map[]).counts)
    {
      var cost, counts := RequiredCardsBeforeUpgrade(EnvOf(cat, cfg), list, map[]);
      Raise(counts);
    }

    /** The loop of `claim_cards`: claims the missing copies of each counted card, in any order. */
    method Raise(counts: map<CardId, U32>)
      modifies this
      ensures owned == Claimed(old(owned), counts)
    {
      ghost var start := owned;
      var left := counts.Keys;
      while left != {}
        invariant left <= counts.Keys
        invariant forall x :: x in owned <==> x in start || (x in counts && x !in left && counts[x] > Get(start, x))
        invariant forall x ::
                    Get(owned, x) == (if x in counts && x !in left && counts[x] > Get(start, x) then counts[x] else Get(start, x))
        decreases left
      {
        var card :| card in left;
        var toClaim := SafeMinus(counts[card], Get(owned, card));
        if toClaim > 0 {
          owned := owned[card := AddU32(Get(owned, card), toClaim)];
        }
        left := left - {card};
      }
      ghost var want := Claimed(start, counts);
      assert forall x :: x in owned <==> x in want;
      forall x | x in owned
        ensures owned[x] == want[x]
      {
        assert Get(owned, x) == Get(want, x);
      }
    }
  }
}
