# Deck cost, mutation and requirement rules of tyrant_optimize

tyrant_optimize searches for a strong deck by hill climbing. Each step
mutates the deck and keeps the result if it is better. This project
models the integer core of that loop, in `tyrant_optimize.cpp`:

- **The deck cost resolver** (`get_required_cards_before_upgrade`,
  `get_deck_cost`). It counts the copies a deck needs. While there is a
  fund, it downgrades every card that the owned-card ledger does not
  cover into its recipe ingredients. It adds up the upgrade cost, and it
  prices a deck at `UINT_MAX` when the ledger still falls short.
  (`resolver.dfy`, proved facts in `resolver_facts.dfy`)
- **The diff bookkeeping** (`append_unless_remove`). A card entering one
  side of the out/in diff cancels an equal pending entry on the other
  side. (`diff.dfy`)
- **The deck mutator** (`adjust_deck`). It puts a candidate card into the
  deck, then re-fits the commander and every old card under the fund.
  Each one is downgraded through its recipe tree with an explicit stack
  until the deck is affordable. The method records which cards went out
  and which came in, and it gives up when a frozen card does not fit.
  (`mutator.dfy`)
- **The requirement gap** (`check_requirement`). This is the number of
  required card copies the deck lacks, plus how far the deck falls short
  of its quest. (`requirement.dfy`)
- **The ledger claim** (`claim_cards`). It raises the owned-card ledger
  to cover the resolved counts of one list of cards. The program claims a
  starting deck's commander and its cards in two separate calls, each
  resolved from fresh counts. (`ledger.dfy`)
- **The integer rules of the hill climb**:
  - which mutated decks are simulated and which are kept;
  - how many simulations a refinement asks for;
  - how many more an evaluation runs.
  (`climb.dfy`)

`cards.dfy` holds the card catalogue and the `unsigned` arithmetic.

Every `unsigned` of the source is a `U32`. Sums, differences and products
are reduced modulo 2^32 where the source stores them, so the resolver's
wrap-around is modelled exactly. One case is an endgame card held in
fewer copies than are owned. The process-wide settings (`use_owned_cards`,
`fund`, `use_top_level_card`, `use_fused_card_level`, `freezed_cards`)
and the `owned_cards` ledger are gathered into an `Env` value that the
operations take as a parameter. A card pointer is a card id.

In-place state:

- The `Deck` being mutated is a class. `AdjustDeck` and its helpers write
  its commander and cards one trial at a time, as the source does.
- Each downgrade search is a `while` loop over a stack. It is proved
  equal to the recursive specification `Mutator.Search`, whose own
  properties are lemmas.
- The resolver's loop is proved equal to the recursive `Resolver.Resolve`.
- The ledger is a class whose `ClaimCards` method raises its map.

Two places where descriptions of the program and its code disagree
(the model follows the code):

- **Resolver order.** The resolver is sometimes described as taking the
  most recently added card first. The code keeps the unresolved cards in
  a `std::set` of card pointers and always takes the greatest one. The
  model keeps an ascending sequence of card ids and pops the greatest.
  Endgame cards (`use_fused_card_level > 0`, set 1000, rarity at most 2,
  level 1) are downgraded even when they are owned, as lines 137-138 say.
- **Equal gaps.** Decks with a gap are described as simulated when their
  gap is "not worse" than the best one. The code skips a deck whose gap
  is positive and merely equal to the best gap (lines 997-998).
  `Climb.GapBeforeScore` states what the code does.

## Model

| member | source | states |
|---|---|---|
| Cards.SafeMinus | tyrant_optimize.cpp:311 | `safe_minus` is zero exactly when the first operand is at most the second; otherwise it adds back to the first operand |
| Resolver.Endgame | tyrant_optimize.cpp:137 | reference definition: under an endgame level, a level-1 common or rare card of set 1000 is always downgraded |
| Resolver.Downgradable | tyrant_optimize.cpp:137-138 | reference definition: the condition under which a popped card is replaced by its recipe |
| Resolver.Tally | tyrant_optimize.cpp:126-130 | reference definition: one more copy of each requested card; `ResolverFacts.TallyCounts` states its counts |
| Resolver.Credit | tyrant_optimize.cpp:144-149 | reference definition: the ingredients' counts credited entry by entry; `ResolverFacts.CreditCounts` states its counts |
| Resolver.Shortfall | tyrant_optimize.cpp:140 | reference definition of `num_under`; `ResolverFacts.ShortfallCases` states its two cases |
| Resolver.Demote | tyrant_optimize.cpp:140-149 | reference definition: the counts after downgrading one card; `Resolver.DemoteFrame` and `ResolverFacts.DemoteCountOf` state them |
| Resolver.Downgrade | tyrant_optimize.cpp:137-149 | one downgrade keeps the resolver's state well formed: an ascending worklist of catalogue cards; `ResolverFacts.DowngradeStep`, `DowngradeCost` and `DowngradeFrame` state its effect |
| Resolver.Next | tyrant_optimize.cpp:134-150 | one round keeps the resolver's state well formed; `Resolver.NextLighter` and `ResolverFacts.NextKeepsSettled` state its effect |
| Resolver.Drain | tyrant_optimize.cpp:132-151 | reference definition of the resolver's loop; `ResolverFacts.DrainSettles` and `DrainIdle` state where it ends |
| Resolver.Resolve | tyrant_optimize.cpp:122-154 | reference definition of `get_required_cards_before_upgrade`; `ResolverFacts.ZeroFundResolve`, `ResolveSettles` and `ResolveOwned` state its results |
| Resolver.DeckResolution | tyrant_optimize.cpp:160-162 | reference definition: the commander and then the cards resolved into one count map |
| Resolver.Overdrawn | tyrant_optimize.cpp:163-170 | reference definition: some resolved count exceeds the owned count |
| Resolver.DeckCost | tyrant_optimize.cpp:156-172 | reference definition of `get_deck_cost`; `ResolverFacts.DeckCostCases`, `ZeroFundDeckCost` and `OwnedDeckIsFree` state its values |
| Resolver.Insert | tyrant_optimize.cpp:129 | inserting into the unresolved set keeps it ascending, adds exactly the new card, and grows it only when the card was absent |
| Resolver.InsertAll | tyrant_optimize.cpp:126-130 | the unresolved set after the requested cards holds exactly the old members and the requested cards |
| Resolver.TallyFrame | tyrant_optimize.cpp:126-130 | counting the requested cards adds only those cards to the counts and leaves every other count alone |
| Resolver.CreditFrame | tyrant_optimize.cpp:144-149 | crediting a recipe adds only the recipe's cards to the counts and changes no other count |
| Resolver.DemoteFrame | tyrant_optimize.cpp:140-149 | a downgrade pins the card's count to the owned count and touches only that card and its ingredients |
| Resolver.NextLighter | tyrant_optimize.cpp:132-151 | every round of the resolver's loop makes the worklist strictly lighter, so the loop ends even though ingredients are queued |
| Resolver.CountRequested | tyrant_optimize.cpp:126-130 | the first loop adds one copy per requested card and queues it, as the tally and the set insertion specify |
| Resolver.CreditRecipe | tyrant_optimize.cpp:144-149 | the recipe loop credits `num_under` times each quantity to the ingredient and queues it, entry by entry |
| Resolver.Round | tyrant_optimize.cpp:134-150 | one round pops the greatest unresolved card and, when it is downgradable, pins it to the owned count, adds `num_under` times the recipe cost and credits the ingredients |
| Resolver.RequiredCardsBeforeUpgrade | tyrant_optimize.cpp:122-154 | the method's returned cost and counts are exactly the resolution `Resolve` specifies |
| Resolver.GetDeckCost | tyrant_optimize.cpp:156-172 | 0 without a ledger; `UINT_MAX` when a resolved count of commander plus cards exceeds the owned count; otherwise the summed upgrade cost |
| ResolverFacts.TallyCounts | tyrant_optimize.cpp:126-130 | each card's count rises by its multiplicity in the list, modulo 2^32 |
| ResolverFacts.ZeroFundResolve | tyrant_optimize.cpp:124-153 | with a zero fund nothing is downgraded: the cost is 0, the keys are the old keys plus the list, and each count rises by its multiplicity |
| ResolverFacts.CreditCounts | tyrant_optimize.cpp:144-149 | crediting raises each ingredient's count by `num_under` times its total quantity in the recipe, modulo 2^32 |
| ResolverFacts.DowngradeStep | tyrant_optimize.cpp:137-149 | downgrading a card raises every other card's count by the shortfall times its recipe quantity, modulo 2^32 |
| ResolverFacts.DemoteCountOf | tyrant_optimize.cpp:140-149 | demoting a card raises every other card's count by the shortfall times its recipe quantity, modulo 2^32 |
| ResolverFacts.DowngradeDemotes | tyrant_optimize.cpp:140-149 | the counts after a downgrade step agree with the pointwise demotion of the card |
| ResolverFacts.DowngradeCost | tyrant_optimize.cpp:140-143 | a downgrade grows the cost by the shortfall times the recipe cost, modulo 2^32 |
| ResolverFacts.DowngradeFrame | tyrant_optimize.cpp:140-149 | a downgrade sets the card to the owned count, changes only its ingredients besides, and queues exactly the ingredients |
| ResolverFacts.ShortfallCases | tyrant_optimize.cpp:140 | `num_under` is the plain difference for a short card and wraps around when an endgame card is held in fewer copies than owned |
| ResolverFacts.PopKeepsSettled | tyrant_optimize.cpp:134-136 | the greatest card of the set occurs once, and popping it leaves every other counted card settled |
| ResolverFacts.NextKeepsSettled | tyrant_optimize.cpp:132-150 | a round keeps every counted card that is off the worklist settled |
| ResolverFacts.DowngradeKeepsSettled | tyrant_optimize.cpp:137-149 | downgrading a card settles it and unsettles nothing outside its recipe |
| ResolverFacts.DrainSettles | tyrant_optimize.cpp:132-151 | with a positive fund the loop ends only with every counted card settled |
| ResolverFacts.ResolveSettles | tyrant_optimize.cpp:122-154 | with a positive fund every resolved count is settled: covered by the owned count, recipe-less, or pinned as an endgame card |
| ResolverFacts.DeckCostCases | tyrant_optimize.cpp:156-172 | the three outcomes of `get_deck_cost`, including that `UINT_MAX` means overdrawn or a cost that reached `UINT_MAX` |
| ResolverFacts.ShortOnlyOfBaseCards | tyrant_optimize.cpp:160-170 | with a positive fund, a count above the owned count can only belong to a non-endgame card without a recipe |
| ResolverFacts.ZeroFundDeckCounts | tyrant_optimize.cpp:160-162 | with a zero fund the deck's counts are the multiplicities of commander and cards, modulo 2^32, at cost 0 |
| ResolverFacts.ZeroFundDeckCost | tyrant_optimize.cpp:158-171 | with a ledger and a zero fund the deck costs `UINT_MAX` when some multiplicity exceeds the owned count, and 0 otherwise |
| ResolverFacts.DrainIdle | tyrant_optimize.cpp:132-151 | while no queued card is downgradable the loop changes neither counts nor cost |
| ResolverFacts.ResolveOwned | tyrant_optimize.cpp:122-154 | without endgame levels, requests the ledger covers cost nothing and are counted exactly |
| ResolverFacts.OwnedDeckIsFree | tyrant_optimize.cpp:156-172 | without endgame levels, a deck whose every card is owned often enough costs 0 whatever the fund |
| Diff.FirstIndex | tyrant_optimize.cpp:178-185 | the scan stops at an occurrence of the value with none before it |
| Diff.EraseAt | tyrant_optimize.cpp:182 | erasing shortens the vector by one and removes exactly the erased element |
| Diff.UnlessRemove | tyrant_optimize.cpp:174-187 | reference definition of the pair after recording a value; `Diff.NetChange`, `LengthChange` and `NothingElseAppears` state its effect |
| Diff.AppendUnlessRemove | tyrant_optimize.cpp:174-187 | when the value is in `oppo` its first occurrence is erased and `self` is unchanged; otherwise it is appended to `self` and `oppo` is unchanged |
| Diff.NetChange | tyrant_optimize.cpp:174-187 | recording a value moves the net difference between the two sides by exactly that value |
| Diff.LengthChange | tyrant_optimize.cpp:174-187 | the two sides' combined length falls by one when the value cancels and grows by one when it is appended |
| Diff.NothingElseAppears | tyrant_optimize.cpp:174-187 | no element other than the recorded value appears on either side |
| Mutator.Signed | tyrant_optimize.cpp:274 | `(signed)freezed_cards` is the signed 32-bit value congruent to the unsigned one |
| Mutator.SlotOf | tyrant_optimize.cpp:281-287 | a random deck records slot -1; otherwise the index, shifted by one at or after the pivot slot |
| Mutator.TrialCost | tyrant_optimize.cpp:217 | reference definition: `get_deck_cost` of the deck with a form on trial |
| Mutator.Search | tyrant_optimize.cpp:209-222 | the search stops at a tried form with its cost: a fit unless top-level forms are kept, an exhausted stack only when nothing fit, and a frozen stop only for a frozen card as it is |
| Mutator.SearchFrom | tyrant_optimize.cpp:209-222 | reference definition: the search started from one card; `Mutator.SearchFits` and `SearchFromDescends` state its outcome |
| Mutator.SearchStep | tyrant_optimize.cpp:211-221 | a search that does not stop at the top form continues from the stack with the top popped and its ingredients pushed |
| Mutator.SearchDescends | tyrant_optimize.cpp:211-221 | the form a search stops at is a form, by repeated downgrading, of a card on the stack |
| Mutator.SearchExhaustive | tyrant_optimize.cpp:211-222 | a search that runs dry has tried every form of every stacked card, and none fits the fund |
| Mutator.SearchFromDescends | tyrant_optimize.cpp:209-222 | a search from one card stops at one of that card's forms |
| Mutator.SearchFits | tyrant_optimize.cpp:209-226 | without top-level forms or freezing, a search ends within the fund exactly when some form of the card fits |
| Mutator.Put | tyrant_optimize.cpp:215-216 | putting a form on trial writes exactly the commander or the trial slot |
| Mutator.TryTop | tyrant_optimize.cpp:213-221 | one pass pops and tries the top form; either the search ends there or the remaining search is unchanged and strictly lighter |
| Mutator.PushIngredients | tyrant_optimize.cpp:220-221 | the ingredients are pushed in recipe order |
| Mutator.TryForms | tyrant_optimize.cpp:209-222 | the stack loop ends with the outcome `SearchFrom` specifies and with the deck holding that form |
| Mutator.Opening | tyrant_optimize.cpp:261-263 | the opened slot sits between the kept cards, with the commander unchanged |
| Mutator.OpeningKeeps | tyrant_optimize.cpp:261-263 | a deck with an opened slot holds one card more, the trial form and every card it held |
| Mutator.Replaced | tyrant_optimize.cpp:284-288 | reference definition: the diffs after a card is put back as a different form; `Mutator.Record` is proved to produce them |
| Mutator.TryOpening | tyrant_optimize.cpp:262-278 | the search for an old card runs in the opened slot, which ends up holding the form the search stopped at |
| Mutator.Record | tyrant_optimize.cpp:279-288 | the diffs are unchanged for a frozen stop, take the dropped card at its new slot when nothing fits, and take the replacement when a downgraded form was kept |
| Mutator.Reinsert | tyrant_optimize.cpp:261-288 | one round: the search outcome, a frozen stop leaving the trial in place, a dropped card restoring the saved deck, and a kept form staying in its slot |
| Mutator.FitCandidate | tyrant_optimize.cpp:205-222 | the candidate's top-level card is searched alone with the old commander, and the deck ends as that single form |
| Mutator.FitCommander | tyrant_optimize.cpp:229-249 | the commander is searched beside the cards; it is restored when no form fits, and the cards are untouched |
| Mutator.FrozenAt | tyrant_optimize.cpp:272-275 | reference definition: the first `freezed_cards` of the order are frozen unless top-level cards are kept |
| Mutator.RoundKeeps | tyrant_optimize.cpp:261-288 | a round that does not hit a frozen card keeps every old card, adds at most one, stays within the fund, and keeps a frozen card |
| Mutator.ReinsertAll | tyrant_optimize.cpp:258-291 | the loop keeps every card already placed; it either stops at a frozen card that does not fit, or ends within the fund holding every frozen card, with `ok` telling whether the diffs are non-empty |
| Mutator.SameCards | tyrant_optimize.cpp:256-257 | the shuffled order has the deck's length and cards |
| Mutator.CommanderReplaced | tyrant_optimize.cpp:250-254 | reference definition: the diffs after the commander changed form; `Mutator.PlaceCandidate` is proved to produce them |
| Mutator.PlaceCandidate | tyrant_optimize.cpp:204-255 | the candidate and commander phases: each failure path with its cost and diffs, and on success the searched commander beside the candidate with the commander diff recorded |
| Mutator.AdjustDeck | tyrant_optimize.cpp:191-292 | the null-card case, the candidate and commander failures with the deck left as the source leaves it, a frozen card that does not fit, and on completion a deck within the fund holding the candidate and every frozen card |
| Requirements.Threshold | tyrant_optimize.cpp:362 | reference definition: the full quest value when the quest must be fulfilled, else 1 |
| Requirements.DeckCounts | tyrant_optimize.cpp:303-308 | reference definition of the deck's counts; `Requirements.DeckCountsCopies` states them |
| Requirements.DeckCountsCopies | tyrant_optimize.cpp:303-308 | each card's count is its copies in the deck, the commander included, modulo 2^32 |
| Requirements.MissingCopies | tyrant_optimize.cpp:309-312 | reference definition of the summed shortfall; `Requirements.MissingCopiesRemove` and `MissingCopiesZero` state its properties |
| Requirements.MissingCopiesRemove | tyrant_optimize.cpp:309-312 | the summed shortfall does not depend on the order the required cards are visited in |
| Requirements.MissingCopiesZero | tyrant_optimize.cpp:309-312 | the shortfall is zero exactly when every required card is present as often as required |
| Requirements.RequirementPart | tyrant_optimize.cpp:301-313 | reference definition: no gap without requirements, else the summed shortfall of the deck's counts |
| Requirements.RequirementMet | tyrant_optimize.cpp:301-312 | the requirement part of the gap is zero exactly when the deck holds every required card as often as required |
| Requirements.CountDeck | tyrant_optimize.cpp:303-308 | the counting loop yields the deck's counts |
| Requirements.SumMissingCopies | tyrant_optimize.cpp:309-312 | the summing loop yields the total shortfall, modulo 2^32, whatever the iteration order |
| Requirements.Start | tyrant_optimize.cpp:317-337 | reference definition: the potential the commander brings |
| Requirements.Boost | tyrant_optimize.cpp:340-361 | reference definition: the potential after one more card is counted |
| Requirements.Scan | tyrant_optimize.cpp:338-366 | reference definition: the cards counted in order with the early stop; `Requirements.EarlyStopHarmless` relates it to counting every card |
| Requirements.QuestPart | tyrant_optimize.cpp:315-368 | reference definition of the quest part of the gap; `Requirements.QuestPartWithoutStop` states it without the early stop |
| Requirements.BoostKeeps | tyrant_optimize.cpp:338-361 | counting one more card keeps the potential reachable and never lowers a potential that met the threshold |
| Requirements.ScanAllStays | tyrant_optimize.cpp:338-366 | once the threshold is met, counting further cards keeps it met |
| Requirements.EarlyStopHarmless | tyrant_optimize.cpp:338-367 | stopping at the first card that meets the threshold gives the same quest gap as counting every card |
| Requirements.QuestPartWithoutStop | tyrant_optimize.cpp:315-368 | the quest part is 0 for no quest, and otherwise the threshold's shortfall against a count of every card |
| Requirements.FindSkill | tyrant_optimize.cpp:344-351 | the skill scan finds a skill exactly when the key is among the card's skills |
| Requirements.QuestPotential | tyrant_optimize.cpp:317-366 | the potential loop yields the commander's start followed by the early-stopping scan of the cards |
| Requirements.RequirementGap | tyrant_optimize.cpp:294-371 | reference definition of `check_requirement`: the requirement part plus the quest part, modulo 2^32 |
| Requirements.NoRequirementNoGap | tyrant_optimize.cpp:300-371 | a deck with no required cards and no quest has gap 0 |
| Requirements.CheckRequirement | tyrant_optimize.cpp:294-371 | the method returns the requirement shortfall plus the quest shortfall, as `RequirementGap` specifies |
| Ledger.Claimed | tyrant_optimize.cpp:377-389 | the claimed ledger covers both the owned and the needed counts and equals one of them for every card; a card gains an entry only when it was short |
| Ledger.ClaimedLeast | tyrant_optimize.cpp:380-383 | the claimed ledger is the least one covering both the owned and the needed counts: no more is claimed than is needed |
| Ledger.ClaimedIdempotent | tyrant_optimize.cpp:377-389 | claiming the same counts twice is claiming them once |
| Ledger.ClaimAtZeroFund | tyrant_optimize.cpp:373-390 | with a zero fund, claiming a list covers each card's multiplicity in it |
| Ledger.ClaimDeckAtZeroFund | tyrant_optimize.cpp:2204-2209 | with a zero fund, claiming the commander and then the cards leaves a ledger under which the deck costs 0, when the commander is not among the cards |
| Ledger.OwnedCards.Raise | tyrant_optimize.cpp:377-389 | the claiming loop leaves the ledger as `Claimed` specifies, whatever order the cards are visited in |
| Ledger.OwnedCards.ClaimCards | tyrant_optimize.cpp:373-390 | the ledger becomes the claim of the counts the resolver computes for the list against the old ledger |
| Climb.WorthSimulating | tyrant_optimize.cpp:997-998 | reference definition: a deck is skipped when its gap is positive and not below the best gap |
| Climb.Improves | tyrant_optimize.cpp:1010 | reference definition: a smaller gap, or a score better by the minimum increment |
| Climb.NextBestGap | tyrant_optimize.cpp:997-1014 | reference definition of the best gap after one candidate; `Climb.GapNeverGrows` and `GapBeforeScore` state its behaviour |
| Climb.GapNeverGrows | tyrant_optimize.cpp:997-1014 | the best gap never grows, and it falls to any smaller gap whatever the scores say |
| Climb.GapBeforeScore | tyrant_optimize.cpp:997-998 | a deck whose positive gap is not smaller than the best gap is neither simulated nor kept |
| Climb.RefineTarget | tyrant_optimize.cpp:906 | reference definition: ten times the simulations done, as an `unsigned`, capped by the iteration budget |
| Climb.RefineTargetBounds | tyrant_optimize.cpp:906 | the refinement target never exceeds the iteration budget and, without overflow, is the smaller of ten times the simulations done and the budget |
| Climb.RefineTargetWraps | tyrant_optimize.cpp:906 | once ten times the simulations done overflows, between one and nine multiples of 2^32 are lost, and the target is the smaller of the remainder and the budget |
| Climb.RefineTargetBelowDone | tyrant_optimize.cpp:906 | the wrapped target can fall below the simulations done (0x1999999A gives 4), and the re-evaluation then runs no simulation |
| Climb.MoreSimulations | tyrant_optimize.cpp:598-602 | an evaluation runs none when the target is already reached, and otherwise exactly up to the target |

## Left out

- Simulation, scoring, threads and the worker barrier are not modelled. So are file and command-line parsing, printing (the `debug_print` warning of `claim_cards` included) and the rest of the hill climb. `Climb` models only the integer decisions; a score comparison, which is floating point, enters as a boolean.
- The shuffle of a random deck (`std::shuffle` with the optimizer's `std::mt19937`) is a parameter of `Mutator.AdjustDeck`: any permutation of the deck's cards.
- Card pointers become card ids, and the pointer order of the resolver's `std::set` becomes id order. The catalogue is assumed to have an acyclic recipe graph (`Catalogue.Valid`), which the card data guarantees and which the model needs for termination.
- `card.h`, `deck.h` and the quest declarations are not part of this model. `Card`, `Quest` and `QuestType` are rebuilt from their uses in `tyrant_optimize.cpp`. A skill is represented by its id only, and a card type by the code `Cards.TypeCode` gives it.
- The `NQUEST` build, which compiles out the quest part of `check_requirement`, is not modelled; the quest part is always present.
- Reading `owned_cards` or `num_cards` with `operator[]` inserts a zero entry for a missing card. The model reads every count map through `Resolver.Get`, which gives a missing card zero too, but no entries are added.
- Ledger.OwnedCards.ClaimCards: the ledger's map does not gain those zero entries, so it equals the source's ledger only up to cards owned zero times.
- Ledger.OwnedCards.ClaimCards: states that the ledger covers the resolved counts of one list. Coverage of a whole deck is not stated in general, and the source does not guarantee it. The program claims the commander and the cards in two calls (lines 2111-2112 and 2208-2209), each resolved from fresh counts. With a positive fund the two resolutions need not add up to the deck's resolution, so the deck can still be overdrawn. `Ledger.ClaimDeckAtZeroFund` states the zero-fund case, where they do add up.
- Requirements.CheckRequirement: the deck is passed as its commander and cards, the only fields the source reads.
- Mutator.ReinsertAll: states what the re-insertion loop keeps (old cards kept, frozen cards present, cost within the fund, `ok` from the diffs), and each round's exact effect through `Mutator.Reinsert`. It does not state the final deck and diffs as one closed function of the inputs, and it does not say what the deck holds after a frozen card fails.
- Mutator.AdjustDeck: states the final deck exactly for the null-card, candidate and commander cases. For the re-insertion phase it inherits the invariants of `Mutator.ReinsertAll`, not a closed form.
