/**
 The requirement gap of a deck: how many required copies of cards it
 lacks, plus how far it falls short of the quest's goal. The search treats
 a smaller gap as better before it looks at any score.
 */
module Requirements {
  import opened Cards
  import opened Resolver
  import opened ResolverFacts

  datatype QuestType =
    | NoQuest
    | SkillUse
    | SkillDamage
    | FactionAssaultCardKill
    | TypeCardKill
    | FactionAssaultCardUse
    | TypeCardUse
    | CardSurvival

  /** A quest: what it counts (`key` is a skill id, a faction or a card type code) and how much of it. */
  datatype Quest = Quest(questType: QuestType, key: int, value: U32, mustFulfill: bool)

  /** The potential a deck must reach: the full quest value when it must be fulfilled, else any progress. */
  function Threshold(q: Quest): U32
  {
    if q.mustFulfill then q.value else 1
  }

  // ---------------------------------------------------------------------
  // The required cards.

  /** The deck's count of each card: the commander once, then one more per copy among the cards. */
  function DeckCounts(commander: CardId, cards: seq<CardId>): map<CardId, U32>
  {
    Tally(map[commander := 1], cards)
  }

  /** Every card's count is its number of copies in the deck, the commander included, modulo 2^32. */
  lemma DeckCountsCopies(commander: CardId, cards: seq<CardId>, c: CardId)
    ensures Get(DeckCounts(commander, cards), c) == Wrap((if c == commander then 1 else 0) + multiset(cards)[c])
  {
    TallyCounts(map[commander := 1], cards, c);
  }

  /** The copies of the required cards in `keys` that `counts` lacks, summed. */
  ghost function MissingCopies(req: map<CardId, U32>, counts: map<CardId, U32>, keys: set<CardId>): nat
    requires keys <= req.Keys
    decreases keys
  {
    if keys == {} then 0
    else
      var c :| c in keys;
      SafeMinus(req[c], Get(counts, c)) + MissingCopies(req, counts, keys - {c})
  }

  /** The sum does not depend on the order the cards are visited in: any card can be taken out first. */
  lemma {:induction false} MissingCopiesRemove(req: map<CardId, U32>, counts: map<CardId, U32>, keys: set<CardId>, c: CardId)
    requires keys <= req.Keys && c in keys
    ensures MissingCopies(req, counts, keys) == SafeMinus(req[c], Get(counts, c)) + MissingCopies(req, counts, keys - {c})
    decreases keys
  {
    var d :| d in keys && MissingCopies(req, counts, keys) == SafeMinus(req[d], Get(counts, d)) + MissingCopies(req, counts, keys - {d});
    if d != c {
      MissingCopiesRemove(req, counts, keys - {d}, c);
      MissingCopiesRemove(req, counts, keys - {c}, d);
      assert keys - {d} - {c} == keys - {c} - {d};
    }
  }

  /** No shortfall exactly when every required card has at least its required count. */
  lemma {:induction false} MissingCopiesZero(req: map<CardId, U32>, counts: map<CardId, U32>, keys: set<CardId>)
    requires keys <= req.Keys
    ensures MissingCopies(req, counts, keys) == 0 <==> forall c :: c in keys ==> req[c] <= Get(counts, c)
    decreases keys
  {
    if keys != {} {
      var c :| c in keys;
      MissingCopiesRemove(req, counts, keys, c);
      MissingCopiesZero(req, counts, keys - {c});
    }
  }

  /** The requirement part of the gap, before it is added into the unsigned total. */
  ghost function RequirementPart(req: map<CardId, U32>, commander: CardId, cards: seq<CardId>): nat
  {
    if req == map[] then 0 else MissingCopies(req, DeckCounts(commander, cards), req.Keys)
  }

  /** The deck meets its requirement exactly when it holds every required card as often as required. */
  lemma RequirementMet(req: map<CardId, U32>, commander: CardId, cards: seq<CardId>)
    ensures RequirementPart(req, commander, cards) == 0 <==>
      forall c :: c in req ==> req[c] <= Get(DeckCounts(commander, cards), c)
  {
    MissingCopiesZero(req, DeckCounts(commander, cards), req.Keys);
  }

  /** Counts the deck: the commander once, then each card. */
  method CountDeck(commander: CardId, cards: seq<CardId>) returns (counts: map<CardId, U32>)
    ensures counts == DeckCounts(commander, cards)
  {
    counts := map[commander := 1];
    for k := 0 to |cards|
      invariant counts == Tally(map[commander := 1], cards[..k])
    {
      TallyStep(map[commander := 1], cards, k);
      counts := counts[cards[k] := AddU32(Get(counts, cards[k]), 1)];
    }
    assert cards[..|cards|] == cards;
  }

  /** Adds up the shortfall of every required card, in any order, into an unsigned total. */
  method SumMissingCopies(req: map<CardId, U32>, counts: map<CardId, U32>) returns (gap: U32)
    ensures gap == Wrap(MissingCopies(req, counts, req.Keys))
  {
    gap := 0;
    var left := req.Keys;
    while left != {}
      invariant left <= req.Keys
      invariant Wrap(gap + MissingCopies(req, counts, left)) == Wrap(MissingCopies(req, counts, req.Keys))
      decreases left
    {
      var c :| c in left;
      MissingCopiesRemove(req, counts, left, c);
      var s := SafeMinus(req[c], Get(counts, c));
      WrapSum(gap + s, MissingCopies(req, counts, left - {c}), gap + MissingCopies(req, counts, left));
      left := left - {c};
      gap := AddU32(gap, s);
    }
  }

  // ---------------------------------------------------------------------
  // The quest.

  /** The potential the commander brings: a matching skill for skill quests, the full value for kill quests. */
  function Start(cat: Catalogue, q: Quest, commander: CardId): U32
    requires commander in cat.cards
  {
    match q.questType
    case SkillUse | SkillDamage => if q.key in cat.cards[commander].skills then q.value else 0
    case FactionAssaultCardKill | TypeCardKill => q.value
    case _ => 0
  }

  /** The potential once card `c` is counted: a matching skill sets it to the value, a matching faction or type adds one. */
  function Boost(cat: Catalogue, q: Quest, c: CardId, pot: U32): U32
    requires c in cat.cards
  {
    match q.questType
    case SkillUse | SkillDamage => if q.key in cat.cards[c].skills then q.value else pot
    case FactionAssaultCardUse => AddU32(pot, if q.key == cat.cards[c].faction then 1 else 0)
    case TypeCardUse => AddU32(pot, if q.key == TypeCode(cat.cards[c].cardType) then 1 else 0)
    case _ => pot
  }

  /** Counts the cards in order, stopping after the first one that brings the potential to the threshold. */
  function Scan(cat: Catalogue, q: Quest, cards: seq<CardId>, pot: U32): U32
    requires Known(cat, cards)
  {
    if cards == [] then pot
    else
      var p := Boost(cat, q, cards[0], pot);
      if p >= Threshold(q) then p else Scan(cat, q, cards[1..], p)
  }

  /** Counts every card, with no early stop: the reference the early stop is measured against. */
  function ScanAll(cat: Catalogue, q: Quest, cards: seq<CardId>, pot: U32): U32
    requires Known(cat, cards)
  {
    if cards == [] then pot else ScanAll(cat, q, cards[1..], Boost(cat, q, cards[0], pot))
  }

  /** The quest part of the gap: how far the deck's potential falls short of the threshold. */
  function QuestPart(cat: Catalogue, q: Quest, commander: CardId, cards: seq<CardId>): U32
    requires commander in cat.cards && Known(cat, cards)
  {
    if q.questType == NoQuest then 0 else SafeMinus(Threshold(q), Scan(cat, q, cards, Start(cat, q, commander)))
  }

  /** A potential the counting can reach: at most the cards counted for counting quests, 0 or the value otherwise. */
  ghost predicate Reachable(q: Quest, pot: U32, counted: nat)
  {
    match q.questType
    case FactionAssaultCardUse | TypeCardUse => pot <= counted
    case _ => pot == 0 || pot == q.value
  }

  /** Counting one more card keeps the potential reachable, and never lowers one that met the threshold. */
  lemma BoostKeeps(cat: Catalogue, q: Quest, c: CardId, pot: U32, counted: nat)
    requires c in cat.cards && Reachable(q, pot, counted) && counted < 0xFFFF_FFFF
    ensures Reachable(q, Boost(cat, q, c, pot), counted + 1)
    ensures pot >= Threshold(q) ==> Boost(cat, q, c, pot) >= Threshold(q)
  {
  }

  /** Once the threshold is met, counting further cards keeps it met. */
  lemma {:induction false} ScanAllStays(cat: Catalogue, q: Quest, cards: seq<CardId>, pot: U32, counted: nat)
    requires Known(cat, cards) && Reachable(q, pot, counted) && counted + |cards| < 0xFFFF_FFFF
    requires pot >= Threshold(q)
    ensures ScanAll(cat, q, cards, pot) >= Threshold(q)
  {
    if cards != [] {
      BoostKeeps(cat, q, cards[0], pot, counted);
      ScanAllStays(cat, q, cards[1..], Boost(cat, q, cards[0], pot), counted + 1);
    }
  }

  /**
   The early stop never changes the gap: counting every card falls short
   of the threshold by just as much (as long as the potential cannot wrap
   around, which takes some four billion cards).
   */
  lemma {:induction false} EarlyStopHarmless(cat: Catalogue, q: Quest, cards: seq<CardId>, pot: U32, counted: nat)
    requires Known(cat, cards) && Reachable(q, pot, counted) && counted + |cards| < 0xFFFF_FFFF
    ensures SafeMinus(Threshold(q), Scan(cat, q, cards, pot)) == SafeMinus(Threshold(q), ScanAll(cat, q, cards, pot))
  {
    if cards != [] {
      var p := Boost(cat, q, cards[0], pot);
      BoostKeeps(cat, q, cards[0], pot, counted);
      if p >= Threshold(q) {
        ScanAllStays(cat, q, cards[1..], p, counted + 1);
      } else {
        EarlyStopHarmless(cat, q, cards[1..], p, counted + 1);
      }
    }
  }

  /** The quest part, stated without the early stop. */
  lemma QuestPartWithoutStop(cat: Catalogue, q: Quest, commander: CardId, cards: seq<CardId>)
    requires commander in cat.cards && Known(cat, cards) && |cards| < 0xFFFF_FFFF
    ensures QuestPart(cat, q, commander, cards) ==
      if q.questType == NoQuest then 0 else SafeMinus(Threshold(q), ScanAll(cat, q, cards, Start(cat, q, commander)))
  {
    EarlyStopHarmless(cat, q, cards, Start(cat, q, commander), 0);
  }

  /** Looks for skill `key` among `skills`. */
  method FindSkill(skills: seq<nat>, key: int) returns (found: bool)
    ensures found <==> key in skills
  {
    found := false;
    var k := 0;
    while k < |skills|
      invariant k <= |skills|
      invariant key !in skills[..k]
    {
      if skills[k] == key {
        return true;
      }
      k := k + 1;
    }
    assert skills[..k] == skills;
  }

  /** Counts the quest's potential over the commander and then the cards, stopping once the threshold is met. */
  method QuestPotential(cat: Catalogue, q: Quest, commander: CardId, cards: seq<CardId>) returns (pot: U32)
    requires commander in cat.cards && Known(cat, cards)
    ensures pot == Scan(cat, q, cards, Start(cat, q, commander))
  {
    pot := 0;
    if q.questType.SkillUse? || q.questType.SkillDamage? {
      var found := FindSkill(cat.cards[commander].skills, q.key);
      if found {
        pot := q.value;
      }
    } else if q.questType.FactionAssaultCardKill? || q.questType.TypeCardKill? {
      pot := q.value;
    }
    ghost var goal := Scan(cat, q, cards, pot);
    var k := 0;
    while k < |cards|
      invariant k <= |cards|
      invariant Scan(cat, q, cards[k..], pot) == goal
    {
      var c := cards[k];
      assert cards[k..][1..] == cards[k + 1..];
      if q.questType.SkillUse? || q.questType.SkillDamage? {
        var found := FindSkill(cat.cards[c].skills, q.key);
        if found {
          pot := q.value;
        }
      } else if q.questType.FactionAssaultCardUse? {
        pot := AddU32(pot, if q.key == cat.cards[c].faction then 1 else 0);
      } else if q.questType.TypeCardUse? {
        pot := AddU32(pot, if q.key == TypeCode(cat.cards[c].cardType) then 1 else 0);
      }
      if pot >= Threshold(q) {
        return;
      }
      k := k + 1;
    }
  }

  // ---------------------------------------------------------------------
  // The whole gap.

  /** `check_requirement` as a function of the deck, the requirement and the quest. */
  ghost function RequirementGap(cat: Catalogue, commander: CardId, cards: seq<CardId>, req: map<CardId, U32>, q: Quest): U32
    requires commander in cat.cards && Known(cat, cards)
  {
    Wrap(RequirementPart(req, commander, cards) + QuestPart(cat, q, commander, cards))
  }

  /** A deck with no requirement and no quest has no gap. */
  lemma NoRequirementNoGap(cat: Catalogue, commander: CardId, cards: seq<CardId>, q: Quest)
    requires commander in cat.cards && Known(cat, cards) && q.questType == NoQuest
    ensures RequirementGap(cat, commander, cards, map[], q) == 0
  {
  }

  /** `check_requirement`: the summed shortfall of the required cards plus the quest's shortfall. */
  method CheckRequirement(cat: Catalogue, commander: CardId, cards: seq<CardId>, req: map<CardId, U32>, q: Quest)
    returns (gap: U32)
    requires commander in cat.cards && Known(cat, cards)
    ensures gap == RequirementGap(cat, commander, cards, req, q)
  {
    gap := 0;
    if req != map[] {
      var counts := CountDeck(commander, cards);
      gap := SumMissingCopies(req, counts);
    }
    if q.questType != NoQuest {
      var pot := QuestPotential(cat, q, commander, cards);
      var part := SafeMinus(Threshold(q), pot);
      WrapSum(RequirementPart(req, commander, cards), part, RequirementPart(req, commander, cards) + part);
      gap := AddU32(gap, part);
    }
  }
}
