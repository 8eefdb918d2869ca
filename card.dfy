/** What a recipe card derives from its recipe: the difficulty badge colour,
    the number of missing ingredients and its notice, and the tag row. */
module Card {
  import opened Text
  import opened Seqs
  import opened Types

  const GreenBadge := "text-green-600 bg-green-100"
  const YellowBadge := "text-yellow-600 bg-yellow-100"
  const RedBadge := "text-red-600 bg-red-100"
  const SlateBadge := "text-slate-600 bg-slate-100"

  /** `getDifficultyColor`: a case-insensitive switch on the difficulty text. */
  function DifficultyColor(diff: string): (c: string)
    ensures c == GreenBadge <==> Lower(diff) == "easy"
    ensures c == YellowBadge <==> Lower(diff) == "medium"
    ensures c == RedBadge <==> Lower(diff) == "hard"
    ensures c == SlateBadge <==> Lower(diff) !in ["easy", "medium", "hard"]
  {
    match Lower(diff)
    case "easy" => GreenBadge
    case "medium" => YellowBadge
    case "hard" => RedBadge
    case _ => SlateBadge
  }

  /** The switch does not depend on the letter case of its input. */
  lemma DifficultyColorIgnoresCase(diff: string)
    ensures DifficultyColor(Lower(diff)) == DifficultyColor(diff)
  {
    LowerIdempotent(diff);
  }

  /** A well-typed recipe gets green, yellow or red and never the fallback. */
  lemma DifficultyColorOfRecipe(d: Difficulty)
    ensures DifficultyColor(DifficultyName(d)) ==
      match d
      case Easy => GreenBadge
      case Medium => YellowBadge
      case Hard => RedBadge
    ensures DifficultyColor(DifficultyName(d)) != SlateBadge
  {
    var s := DifficultyName(d);
    match d
    case Easy =>
      assert Lower(s) == "easy" by {
        assert Lower(s)[0] == LowerChar('E');
      }
    case Medium =>
      assert Lower(s) == "medium" by {
        assert Lower(s)[0] == LowerChar('M');
      }
    case Hard =>
      assert Lower(s) == "hard" by {
        assert Lower(s)[0] == LowerChar('H');
      }
  }

  predicate IsMissing(i: Ingredient) { i.isMissing }

  /** `recipe.ingredients.filter(i => i.isMissing).length`. */
  function MissingCount(ingredients: seq<Ingredient>): (c: nat)
    ensures c <= |ingredients|
  {
    |Filter(ingredients, IsMissing)|
  }

  /** The count is zero exactly when nothing is missing, and equals the
      number of ingredients exactly when everything is. */
  lemma MissingCountBounds(ingredients: seq<Ingredient>)
    ensures MissingCount(ingredients) <= |ingredients|
    ensures MissingCount(ingredients) == 0 <==>
      forall k :: 0 <= k < |ingredients| ==> !ingredients[k].isMissing
    ensures MissingCount(ingredients) == |ingredients| <==>
      forall k :: 0 <= k < |ingredients| ==> ingredients[k].isMissing
  {
    var r := Filter(ingredients, IsMissing);
    if forall k :: 0 <= k < |ingredients| ==> !ingredients[k].isMissing {
      FilterDropsAll(ingredients, IsMissing);
    }
    if forall k :: 0 <= k < |ingredients| ==> ingredients[k].isMissing {
      FilterKeepsAll(ingredients, IsMissing);
    }
    if |r| == |ingredients| {
      FilterFullLength(ingredients, IsMissing);
    }
  }

  /** Counting the ingredients of two lists adds up. */
  lemma MissingCountAppend(a: seq<Ingredient>, b: seq<Ingredient>)
    ensures MissingCount(a + b) == MissingCount(a) + MissingCount(b)
  {
    FilterAppend(a, b, IsMissing);
  }

  /** "Missing {n} ingredient{s}", shown only when something is missing. */
  function MissingNotice(count: nat): (notice: Option<string>)
    ensures notice.Some? <==> count > 0
  {
    if count > 0 then
      Some("Missing " + Decimal(count) + " ingredient" + (if count != 1 then "s" else ""))
    else None
  }

  /** The notice ends in the plural "s" exactly when the count is not one,
      and the number it shows reads back as the count. */
  lemma MissingNoticePlural(count: nat)
    requires count > 0
    ensures var n := MissingNotice(count).value;
      (n[|n| - 1] == 's' <==> count != 1) &&
      n[..8] == "Missing " &&
      AllDigits(n[8..8 + |Decimal(count)|]) &&
      ParseDecimal(n[8..8 + |Decimal(count)|]) == count
  {
    var n := MissingNotice(count).value;
    var d := Decimal(count);
    assert n[8..8 + |d|] == d;
    ParseDecimalOfDecimal(count);
  }

  /** The tag row: at most the first two tags, then "+k" for the k others. */
  function TagBadges(tags: seq<string>): (badges: seq<string>)
    ensures |badges| <= 3
    ensures |tags| <= 2 ==> badges == tags
    ensures |tags| > 2 ==> |badges| == 3 && badges[..2] == tags[..2]
  {
    if |tags| > 2 then tags[..2] + ["+" + Decimal(|tags| - 2)] else tags
  }

  /** The "+k" badge accounts for every tag that is not shown. */
  lemma TagBadgesCountAllTags(tags: seq<string>)
    requires |tags| > 2
    ensures var more := TagBadges(tags)[2];
      more[0] == '+' && AllDigits(more[1..]) && 2 + ParseDecimal(more[1..]) == |tags|
  {
    var more := TagBadges(tags)[2];
    assert more == "+" + Decimal(|tags| - 2);
    assert more[1..] == Decimal(|tags| - 2);
    ParseDecimalOfDecimal(|tags| - 2);
  }
}
