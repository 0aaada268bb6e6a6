/**
 The card catalogue as the optimizer sees it: immutable card records with
 their downgrade recipes, and the 32-bit unsigned arithmetic the optimizer
 does on card counts and costs.
 */
module Cards {

  /** A card is identified by its id; the catalogue maps ids to records. */
  type CardId = nat

  /** An `unsigned` of the source. */
  type U32 = x: int | 0 <= x < 0x1_0000_0000

  const UintMax: U32 := 0xFFFF_FFFF

  /** Reduction modulo 2^32, the effect of storing into an `unsigned`. */
  function Wrap(x: int): (r: U32)
    ensures 0 <= x < 0x1_0000_0000 ==> r == x
  {
    x % 0x1_0000_0000
  }

  function AddU32(a: U32, b: U32): U32 { Wrap(a + b) }
  function SubU32(a: U32, b: U32): U32 { Wrap(a - b) }
  function MulU32(a: U32, b: U32): U32 { Wrap(Mul(a, b)) }

  /**
   The product `a * b` written as repeated addition, so that the solver
   reasons about counts times quantities linearly; `MulIsProduct` ties it
   to `*`.
   */
  function Mul(a: int, b: nat): int
  {
    if b == 0 then 0 else Mul(a, b - 1) + a
  }

  lemma {:induction false} MulIsProduct(a: int, b: nat)
    ensures Mul(a, b) == a * b
  {
    if b > 0 {
      MulIsProduct(a, b - 1);
    }
  }

  /** Multiplication distributes over a sum `z` of quantities. */
  lemma {:induction false} MulDistributes(a: int, x: nat, y: nat, z: nat)
    requires z == x + y
    ensures Mul(a, z) == Mul(a, x) + Mul(a, y)
    decreases y
  {
    if y > 0 {
      MulDistributes(a, x, y - 1, z - 1);
    }
  }

  /** `safe_minus`: subtraction clamped at zero. */
  function SafeMinus(a: U32, b: U32): (r: U32)
    ensures r == 0 <==> a <= b
    ensures r + b == if a <= b then b else a
  {
    if a > b then a - b else 0
  }

  /** The wrapped value is the one remainder in range. */
  lemma {:induction false} WrapUnique(x: int, q: int, r: int)
    requires 0 <= r < 0x1_0000_0000 && x == 0x1_0000_0000 * q + r
    ensures Wrap(x) == r
  {
    var m := 0x1_0000_0000;
    var q' := x / m;
    assert x == m * q' + Wrap(x);
    assert m * (q - q') == Wrap(x) - r;
  }

  /** Wrapping either operand of a sum first does not change the wrapped sum `c`. */
  lemma {:induction false} WrapSum(a: int, b: int, c: int)
    requires a + b == c
    ensures Wrap(Wrap(a) + b) == Wrap(c)
    ensures Wrap(a + Wrap(b)) == Wrap(c)
    ensures Wrap(Wrap(a) + Wrap(b)) == Wrap(c)
  {
    var m := 0x1_0000_0000;
    assert a == m * (a / m) + Wrap(a);
    assert b == m * (b / m) + Wrap(b);
    assert c == m * (c / m) + Wrap(c);
    WrapUnique(Wrap(a) + b, c / m - a / m, Wrap(c));
    WrapUnique(a + Wrap(b), c / m - b / m, Wrap(c));
    WrapUnique(Wrap(a) + Wrap(b), c / m - a / m - b / m, Wrap(c));
  }

  datatype CardType = Commander | Assault | Structure

  /** The numeric value of the card type enumeration (commander, assault, structure). */
  function TypeCode(t: CardType): nat
  {
    match t
    case Commander => 0
    case Assault => 1
    case Structure => 2
  }

  /** One (ingredient card, quantity) pair of a recipe. */
  datatype Ingredient = Ingredient(card: CardId, qty: U32)

  /**
   A card record. `recipe` lists what the card decomposes into when it is
   downgraded, `recipeCost` is the price paid to build it from that recipe,
   and `topLevel` is its most-upgraded form.
   */
  datatype Card = Card(
    id: CardId,
    cardType: CardType,
    faction: nat,
    skills: seq<nat>,
    cardSet: nat,
    rarity: nat,
    level: nat,
    recipe: seq<Ingredient>,
    recipeCost: U32,
    topLevel: CardId)

  /**
   The read-only catalogue. `rank` is a proof-only witness that the recipe
   graph is acyclic: every ingredient ranks strictly below the card it is
   an ingredient of.
   */
  datatype Catalogue = Catalogue(cards: map<CardId, Card>, ghost rank: map<CardId, nat>)
  {
    ghost predicate Valid()
    {
      && cards.Keys <= rank.Keys
      && forall c {:trigger CardOk(c)} :: c in cards ==> CardOk(c)
    }

    /** The record of `c` carries its own id, and its forms are catalogued and rank below it. */
    ghost predicate CardOk(c: CardId)
      requires c in cards && cards.Keys <= rank.Keys
    {
      && cards[c].id == c
      && cards[c].topLevel in cards
      && forall k :: 0 <= k < |cards[c].recipe| ==>
           cards[c].recipe[k].card in cards && rank[cards[c].recipe[k].card] < rank[c]
    }
  }

  /** Every card of `s` is in the catalogue. */
  ghost predicate Known(cat: Catalogue, s: seq<CardId>)
  {
    forall x :: x in s ==> x in cat.cards
  }

  /** The cards of a recipe, in recipe order. */
  function CardsOf(recipe: seq<Ingredient>): (r: seq<CardId>)
    ensures |r| == |recipe|
    ensures forall k :: 0 <= k < |r| ==> r[k] == recipe[k].card
  {
    if recipe == [] then [] else CardsOf(recipe[..|recipe| - 1]) + [recipe[|recipe| - 1].card]
  }

  lemma {:induction false} RecipeKnown(cat: Catalogue, c: CardId)
    requires cat.Valid() && c in cat.cards
    ensures Known(cat, CardsOf(cat.cards[c].recipe))
  {
    var r := CardsOf(cat.cards[c].recipe);
    assert cat.CardOk(c);
    forall x | x in r ensures x in cat.cards {
      var k :| 0 <= k < |r| && r[k] == x;
    }
  }

  /** The ingredient cards of `c`, in recipe order. */
  function IngredientIds(cat: Catalogue, c: CardId): (r: seq<CardId>)
    requires cat.Valid() && c in cat.cards
    ensures |r| == |cat.cards[c].recipe|
    ensures forall k :: 0 <= k < |r| ==> r[k] == cat.cards[c].recipe[k].card
    ensures Known(cat, r)
  {
    RecipeKnown(cat, c);
    CardsOf(cat.cards[c].recipe)
  }

  /**
   The size of the recipe tree below `c`, counted with multiplicity of
   recipe entries: every downgrade replaces a card by ingredients of
   strictly smaller total weight, which is what makes the worklists drain.
   An ingredient that does not rank below its card (impossible in a valid
   catalogue) weighs nothing, so that the weight is defined everywhere.
   */
  ghost function Weight(cat: Catalogue, c: CardId): (w: nat)
    ensures w >= 1
    decreases if c in cat.rank then cat.rank[c] else 0, 1
  {
    1 + RecipeWeight(cat, c, if c in cat.cards then |cat.cards[c].recipe| else 0)
  }

  /** The summed weight of the first `n` ingredients of `c`. */
  ghost function RecipeWeight(cat: Catalogue, c: CardId, n: nat): nat
    decreases if c in cat.rank then cat.rank[c] else 0, 0, n
  {
    if n == 0 || c !in cat.cards || n > |cat.cards[c].recipe| then 0
    else
      var x := cat.cards[c].recipe[n - 1].card;
      RecipeWeight(cat, c, n - 1) + if c in cat.rank && x in cat.rank && cat.rank[x] < cat.rank[c] then Weight(cat, x) else 0
  }

  /** The summed weight of a stack or worklist of cards. */
  ghost function StackWeight(cat: Catalogue, s: seq<CardId>): nat
  {
    if s == [] then 0 else StackWeight(cat, s[..|s| - 1]) + Weight(cat, s[|s| - 1])
  }

  lemma {:induction false} StackWeightAppend(cat: Catalogue, a: seq<CardId>, b: seq<CardId>)
    ensures StackWeight(cat, a + b) == StackWeight(cat, a) + StackWeight(cat, b)
    decreases |b|
  {
    if b != [] {
      assert (a + b)[..|a + b| - 1] == a + b[..|b| - 1];
      StackWeightAppend(cat, a, b[..|b| - 1]);
    } else {
      assert a + b == a;
    }
  }

  lemma {:induction false} IngredientWeightPrefix(cat: Catalogue, c: CardId, n: nat)
    requires cat.Valid() && c in cat.cards && n <= |cat.cards[c].recipe|
    ensures StackWeight(cat, IngredientIds(cat, c)[..n]) == RecipeWeight(cat, c, n)
  {
    var ids := IngredientIds(cat, c);
    if n > 0 {
      assert ids[..n][..n - 1] == ids[..n - 1];
      assert cat.CardOk(c);
      IngredientWeightPrefix(cat, c, n - 1);
    }
  }

  /** The ingredients of a card weigh exactly one less than the card. */
  lemma {:induction false} IngredientsWeighLess(cat: Catalogue, c: CardId)
    requires cat.Valid() && c in cat.cards
    ensures StackWeight(cat, IngredientIds(cat, c)) == Weight(cat, c) - 1
  {
    var ids := IngredientIds(cat, c);
    var n := |cat.cards[c].recipe|;
    IngredientWeightPrefix(cat, c, n);
    assert ids[..n] == ids;
    assert Weight(cat, c) == 1 + RecipeWeight(cat, c, n);
  }

  /**
   Replacing the top `x` of a stack by its ingredients makes the stack
   strictly lighter: the measure of every downgrade search.
   */
  lemma {:induction false} PopPushLighter(cat: Catalogue, s: seq<CardId>)
    requires cat.Valid() && Known(cat, s) && s != []
    ensures Known(cat, s[..|s| - 1] + IngredientIds(cat, s[|s| - 1]))
    ensures StackWeight(cat, s[..|s| - 1] + IngredientIds(cat, s[|s| - 1])) < StackWeight(cat, s)
  {
    var x := s[|s| - 1];
    IngredientsWeighLess(cat, x);
    StackWeightAppend(cat, s[..|s| - 1], IngredientIds(cat, x));
    assert s == s[..|s| - 1] + [x];
  }

  /**
   The forms of `c`: `c` itself and, transitively, its recipe ingredients;
   every downgraded form the optimizer may substitute for `c`.
   */
  ghost function Forms(cat: Catalogue, c: CardId): (r: set<CardId>)
    ensures c in r
    decreases if c in cat.rank then cat.rank[c] else 0, 1
  {
    {c} + RecipeForms(cat, c, if c in cat.cards then |cat.cards[c].recipe| else 0)
  }

  /** The forms of the first `n` ingredients of `c`. */
  ghost function RecipeForms(cat: Catalogue, c: CardId, n: nat): set<CardId>
    decreases if c in cat.rank then cat.rank[c] else 0, 0, n
  {
    if n == 0 || c !in cat.cards || n > |cat.cards[c].recipe| then {}
    else
      var x := cat.cards[c].recipe[n - 1].card;
      RecipeForms(cat, c, n - 1) + if c in cat.rank && x in cat.rank && cat.rank[x] < cat.rank[c] then Forms(cat, x) else {}
  }

  /** The forms of every card of a stack. */
  ghost function StackForms(cat: Catalogue, s: seq<CardId>): set<CardId>
  {
    if s == [] then {} else StackForms(cat, s[..|s| - 1]) + Forms(cat, s[|s| - 1])
  }

  lemma {:induction false} StackFormsAppend(cat: Catalogue, a: seq<CardId>, b: seq<CardId>)
    ensures StackForms(cat, a + b) == StackForms(cat, a) + StackForms(cat, b)
    decreases |b|
  {
    if b != [] {
      assert (a + b)[..|a + b| - 1] == a + b[..|b| - 1];
      StackFormsAppend(cat, a, b[..|b| - 1]);
    } else {
      assert a + b == a;
    }
  }

  lemma StackFormsSingle(cat: Catalogue, x: CardId)
    ensures StackForms(cat, [x]) == Forms(cat, x)
  {
    assert [x][..0] == [];
  }

  lemma {:induction false} IngredientFormsPrefix(cat: Catalogue, c: CardId, n: nat)
    requires cat.Valid() && c in cat.cards && n <= |cat.cards[c].recipe|
    ensures StackForms(cat, IngredientIds(cat, c)[..n]) == RecipeForms(cat, c, n)
  {
    var ids := IngredientIds(cat, c);
    if n > 0 {
      assert ids[..n][..n - 1] == ids[..n - 1];
      assert cat.CardOk(c);
      IngredientFormsPrefix(cat, c, n - 1);
    }
  }

  /** The forms of a card are the card and the forms of its ingredients. */
  lemma {:induction false} IngredientForms(cat: Catalogue, c: CardId)
    requires cat.Valid() && c in cat.cards
    ensures Forms(cat, c) == {c} + StackForms(cat, IngredientIds(cat, c))
  {
    var ids := IngredientIds(cat, c);
    var n := |cat.cards[c].recipe|;
    IngredientFormsPrefix(cat, c, n);
    assert ids[..n] == ids;
  }

  /** Replacing the top `x` of a stack by its ingredients loses no form but `x` itself. */
  lemma {:induction false} PopPushForms(cat: Catalogue, s: seq<CardId>)
    requires cat.Valid() && Known(cat, s) && s != []
    ensures StackForms(cat, s) == StackForms(cat, s[..|s| - 1] + IngredientIds(cat, s[|s| - 1])) + {s[|s| - 1]}
  {
    var x := s[|s| - 1];
    IngredientForms(cat, x);
    StackFormsAppend(cat, s[..|s| - 1], IngredientIds(cat, x));
  }
}
