/** OdooPricelistHelper: the rules of one pricelist, indexed by what they apply to. */
module Pricelist {
  import opened Outcomes

  datatype AppliedOn = OnVariant | OnTemplate | OnCategory | OnAll | OnOther

  datatype Formula = Fixed | Percentage | Formula | Unknown

  /** A pricelist item.  Its reference fields are None when Odoo answers false or an empty pair. */
  datatype Item = Item(
    appliedOn: AppliedOn,
    variant: Option<Id>,
    template: Option<Id>,
    category: Option<Id>,
    compute: Formula,
    fixedPrice: real,
    percent: real,
    discount: real,
    surcharge: real)

  datatype Query = Query(template: Id, variant: Option<Id>, category: Option<Id>)

  /** Odoo is asked for no more items than this. */
  const ITEM_LIMIT := 10000

  function ItemPrice(item: Item, base: real): real {
    match item.compute
    case Fixed => item.fixedPrice
    case Percentage => base * (1.0 - item.percent / 100.0)
    case Formula => base * (1.0 - item.discount / 100.0) + item.surcharge
    case Unknown => base
  }

  // ---------- the scan ----------

  datatype Tier = VariantTier | TemplateTier | CategoryTier | GlobalTier

  /** The item applies to the query, in the given tier, and names what it applies to. */
  predicate Matches(item: Item, tier: Tier, q: Query) {
    match tier
    case VariantTier => item.appliedOn.OnVariant? && q.variant.Some? && item.variant == q.variant
    case TemplateTier => item.appliedOn.OnTemplate? && item.template == Some(q.template)
    case CategoryTier => item.appliedOn.OnCategory? && q.category.Some? && item.category == q.category
    case GlobalTier => item.appliedOn.OnAll?
  }

  ghost predicate IsLastMatch(items: seq<Item>, tier: Tier, q: Query, k: nat) {
    && k < |items| && Matches(items[k], tier, q)
    && forall j :: k < j < |items| ==> !Matches(items[j], tier, q)
  }

  function LastMatch(items: seq<Item>, tier: Tier, q: Query): Option<Item> {
    if items == [] then None
    else
      var n := |items| - 1;
      if Matches(items[n], tier, q) then Some(items[n]) else LastMatch(items[..n], tier, q)
  }

  /** It is the last matching item, and there is none only if nothing matches. */
  lemma {:induction false} LastMatchMeans(items: seq<Item>, tier: Tier, q: Query)
    ensures LastMatch(items, tier, q).None? <==> forall k :: 0 <= k < |items| ==> !Matches(items[k], tier, q)
    ensures LastMatch(items, tier, q).Some? ==>
      exists k: nat :: IsLastMatch(items, tier, q, k) && items[k] == LastMatch(items, tier, q).value
  {
    if items != [] {
      var n := |items| - 1;
      if Matches(items[n], tier, q) {
        assert IsLastMatch(items, tier, q, n);
      } else {
        LastMatchMeans(items[..n], tier, q);
        if LastMatch(items[..n], tier, q).Some? {
          var k: nat :| IsLastMatch(items[..n], tier, q, k) && items[k] == LastMatch(items[..n], tier, q).value;
          assert IsLastMatch(items, tier, q, k);
        }
      }
    }
  }

  lemma LastMatchGrows(items: seq<Item>, item: Item, tier: Tier, q: Query)
    ensures LastMatch(items + [item], tier, q) == if Matches(item, tier, q) then Some(item) else LastMatch(items, tier, q)
  {
  }

  /** The item that sets the price: the last match of the most specific tier that has one. */
  function Winner(items: seq<Item>, q: Query): Option<Item> {
    var v := LastMatch(items, VariantTier, q);
    var t := LastMatch(items, TemplateTier, q);
    var c := LastMatch(items, CategoryTier, q);
    if v.Some? then v else if t.Some? then t else if c.Some? then c else LastMatch(items, GlobalTier, q)
  }

  function ScannedPrice(items: seq<Item>, q: Query, base: real): real {
    match Winner(items, q)
    case None => base
    case Some(item) => ItemPrice(item, base)
  }

  function Fetched(stored: seq<Item>): seq<Item> {
    if |stored| <= ITEM_LIMIT then stored else stored[..ITEM_LIMIT]
  }

  // ---------- the index ----------

  class OdooPricelistHelper {
    var variantRules: map<Id, Item>
    var templateRules: map<Id, Item>
    var categoryRules: map<Id, Item>
    var globalRule: Option<Item>
    var isLoaded: bool
    ghost var items: seq<Item>

    function Indexed(tier: Tier, q: Query): Option<Item>
      reads this
    {
      match tier
      case VariantTier => if q.variant.Some? && q.variant.value in variantRules then Some(variantRules[q.variant.value]) else None
      case TemplateTier => if q.template in templateRules then Some(templateRules[q.template]) else None
      case CategoryTier => if q.category.Some? && q.category.value in categoryRules then Some(categoryRules[q.category.value]) else None
      case GlobalTier => globalRule
    }

    /** Every lookup in the index answers what a scan of these items would. */
    ghost predicate Indexes(scanned: seq<Item>)
      reads this
    {
      forall tier, q :: Indexed(tier, q) == LastMatch(scanned, tier, q)
    }

    ghost predicate Valid()
      reads this
    {
      Indexes(if isLoaded then items else [])
    }

    constructor ()
      ensures Valid() && !isLoaded
    {
      variantRules, templateRules, categoryRules, globalRule := map[], map[], map[], None;
      isLoaded := false;
    }

    /** One item of the loop in load.  An item that does not name what it applies to is dropped. */
    method Add(item: Item, ghost scanned: seq<Item>)
      requires Indexes(scanned)
      modifies this`variantRules, this`templateRules, this`categoryRules, this`globalRule
      ensures Indexes(scanned + [item])
    {
      match item.appliedOn {
        case OnVariant =>
          if item.variant.Some? {
            variantRules := variantRules[item.variant.value := item];
          }
        case OnTemplate =>
          if item.template.Some? {
            templateRules := templateRules[item.template.value := item];
          }
        case OnCategory =>
          if item.category.Some? {
            categoryRules := categoryRules[item.category.value := item];
          }
        case OnAll =>
          globalRule := Some(item);
        case OnOther =>
      }
      forall tier, q ensures Indexed(tier, q) == LastMatch(scanned + [item], tier, q) {
        LastMatchGrows(scanned, item, tier, q);
        assert old(Indexed(tier, q)) == LastMatch(scanned, tier, q);
      }
    }

    /** A helper that is loaded is never loaded again; a failing search leaves it unloaded. */
    method Load(stored: seq<Item>, fails: bool)
      requires Valid()
      modifies this
      ensures Valid()
      ensures isLoaded <==> old(isLoaded) || !fails
      ensures items == if old(isLoaded) || fails then old(items) else Fetched(stored)
    {
      if isLoaded || fails {
        return;
      }
      var answer := Fetched(stored);
      for k := 0 to |answer|
        invariant Indexes(answer[..k]) && !isLoaded && items == old(items)
      {
        assert answer[..k + 1] == answer[..k] + [answer[k]];
        Add(answer[k], answer[..k]);
      }
      assert answer[..|answer|] == answer;
      items := answer;
      isLoaded := true;
    }

    /** The lookups in order of precedence answer what a scan of the items would. */
    method GetPrice(q: Query, base: real) returns (price: real)
      requires Valid()
      ensures price == ScannedPrice(if isLoaded then items else [], q, base)
    {
      if !isLoaded {
        return base;
      }
      ghost var tiers := [VariantTier, TemplateTier, CategoryTier, GlobalTier];
      assert forall k :: 0 <= k < 4 ==> Indexed(tiers[k], q) == LastMatch(items, tiers[k], q);
      assert tiers[0] == VariantTier && tiers[1] == TemplateTier && tiers[2] == CategoryTier && tiers[3] == GlobalTier;
      if q.variant.Some? && q.variant.value in variantRules {
        return ItemPrice(variantRules[q.variant.value], base);
      }
      if q.template in templateRules {
        return ItemPrice(templateRules[q.template], base);
      }
      if q.category.Some? && q.category.value in categoryRules {
        return ItemPrice(categoryRules[q.category.value], base);
      }
      if globalRule.Some? {
        return ItemPrice(globalRule.value, base);
      }
      return base;
    }
  }

  // ---------- prices ----------

  /** The price that an item sets does not fall when the base price rises. */
  ghost predicate IsMonotone(item: Item) {
    forall low, high :: low <= high ==> ItemPrice(item, low) <= ItemPrice(item, high)
  }

  lemma MonotoneMeans(item: Item)
    ensures IsMonotone(item) <==>
      && (item.compute.Percentage? ==> item.percent <= 100.0)
      && (item.compute.Formula? ==> item.discount <= 100.0)
  {
    if item.compute.Percentage? {
      ScalingIsMonotone(item, item.percent, 0.0);
    } else if item.compute.Formula? {
      ScalingIsMonotone(item, item.discount, item.surcharge);
    }
  }

  lemma ScalingIsMonotone(item: Item, cut: real, extra: real)
    requires forall b :: ItemPrice(item, b) == b * (1.0 - cut / 100.0) + extra
    ensures IsMonotone(item) <==> cut <= 100.0
  {
    var factor := 1.0 - cut / 100.0;
    if cut <= 100.0 {
      forall low, high | low <= high ensures ItemPrice(item, low) <= ItemPrice(item, high) {
        assert low * factor <= high * factor;
      }
    } else {
      assert ItemPrice(item, 0.0) == extra && ItemPrice(item, 1.0) == factor + extra;
    }
  }

  /** The resolved price is monotone in the base price exactly if the winning item is not a discount of more than 100 percent. */
  lemma ResolvedPriceIsMonotone(items: seq<Item>, q: Query)
    ensures (forall low, high :: low <= high ==> ScannedPrice(items, q, low) <= ScannedPrice(items, q, high)) <==>
      Winner(items, q).None? || IsMonotone(Winner(items, q).value)
  {
    if Winner(items, q).Some? {
      forall base ensures ScannedPrice(items, q, base) == ItemPrice(Winner(items, q).value, base) {
      }
    }
  }

  /** A percentage rule keeps every price between nothing and the base exactly if it is between 0 and 100. */
  lemma PercentageStaysWithin(item: Item)
    requires item.compute.Percentage?
    ensures (forall base :: 0.0 <= base ==> 0.0 <= ItemPrice(item, base) <= base) <==> 0.0 <= item.percent <= 100.0
  {
    var factor := 1.0 - item.percent / 100.0;
    if 0.0 <= item.percent <= 100.0 {
      forall base | 0.0 <= base ensures 0.0 <= ItemPrice(item, base) <= base {
        assert 0.0 <= factor <= 1.0;
        assert 0.0 <= base * factor <= base * 1.0;
      }
    } else {
      assert ItemPrice(item, 1.0) == factor;
    }
  }

  // ---------- what a price is ----------

  /** A fixed rule sets its price whatever the base; a percentage takes its share off the base; a formula takes its discount
      off and then adds its surcharge; any other rule leaves the base alone. */
  lemma PriceMeans(item: Item, base: real)
    ensures item.compute.Fixed? ==> ItemPrice(item, base) == item.fixedPrice
    ensures item.compute.Percentage? ==> ItemPrice(item, base) + base * item.percent / 100.0 == base
    ensures item.compute.Formula? ==> ItemPrice(item, base) + base * item.discount / 100.0 == base + item.surcharge
    ensures item.compute.Unknown? ==> ItemPrice(item, base) == base
  {
  }

  /** How specific a rule is; a rule of no known kind never counts. */
  function Rank(item: Item): int {
    match item.appliedOn
    case OnVariant => 4
    case OnTemplate => 3
    case OnCategory => 2
    case OnAll => 1
    case OnOther => 0
  }

  /** The rule is for what is asked about. */
  predicate Reaches(item: Item, q: Query) {
    match item.appliedOn
    case OnVariant => item.variant.Some? && q.variant == item.variant
    case OnTemplate => item.template.Some? && Some(q.template) == item.template
    case OnCategory => item.category.Some? && q.category == item.category
    case OnAll => true
    case OnOther => false
  }

  lemma ReachesIsMatch(item: Item, q: Query)
    ensures Matches(item, VariantTier, q) <==> Reaches(item, q) && Rank(item) == 4
    ensures Matches(item, TemplateTier, q) <==> Reaches(item, q) && Rank(item) == 3
    ensures Matches(item, CategoryTier, q) <==> Reaches(item, q) && Rank(item) == 2
    ensures Matches(item, GlobalTier, q) <==> Reaches(item, q) && Rank(item) == 1
  {
  }

  /** The k-th rule wins: it reaches the query, none that does is more specific, and none as specific comes later. */
  ghost predicate Wins(items: seq<Item>, q: Query, k: nat) {
    && k < |items| && Reaches(items[k], q)
    && (forall j :: 0 <= j < |items| && Reaches(items[j], q) ==> Rank(items[j]) <= Rank(items[k]))
    && (forall j :: k < j < |items| && Reaches(items[j], q) ==> Rank(items[j]) < Rank(items[k]))
  }

  lemma TierWins(items: seq<Item>, q: Query, tier: Tier, rank: int)
    requires forall item :: Matches(item, tier, q) <==> Reaches(item, q) && Rank(item) == rank
    requires forall j :: 0 <= j < |items| && Reaches(items[j], q) ==> Rank(items[j]) <= rank
    ensures match LastMatch(items, tier, q)
      case Some(item) => exists k: nat :: Wins(items, q, k) && items[k] == item
      case None => forall j :: 0 <= j < |items| && Reaches(items[j], q) ==> Rank(items[j]) <= rank - 1
  {
    LastMatchMeans(items, tier, q);
    if LastMatch(items, tier, q).Some? {
      var k: nat :| IsLastMatch(items, tier, q, k) && items[k] == LastMatch(items, tier, q).value;
      assert Wins(items, q, k);
    }
  }

  /** The price that is set is that of the rule that wins, and the base price only if no rule reaches the query. */
  lemma WinnerMeans(items: seq<Item>, q: Query, base: real)
    ensures match Winner(items, q)
      case Some(item) => (exists k: nat :: Wins(items, q, k) && items[k] == item) && ScannedPrice(items, q, base) == ItemPrice(item, base)
      case None => (forall k :: 0 <= k < |items| ==> !Reaches(items[k], q)) && ScannedPrice(items, q, base) == base
  {
    forall item {
      ReachesIsMatch(item, q);
    }
    TierWins(items, q, VariantTier, 4);
    if LastMatch(items, VariantTier, q).None? {
      TierWins(items, q, TemplateTier, 3);
      if LastMatch(items, TemplateTier, q).None? {
        TierWins(items, q, CategoryTier, 2);
        if LastMatch(items, CategoryTier, q).None? {
          TierWins(items, q, GlobalTier, 1);
        }
      }
    }
  }

  /** All rules are read up to the first ten thousand. */
  lemma FetchedMeans(stored: seq<Item>)
    ensures Fetched(stored) == if |stored| <= 10000 then stored else stored[..10000]
  {
  }
}
