/** The skills grid (portfolio/src/components/SkillsMatrix.tsx): the constant skill and
    category lists, the category filter and the selected-button styling. */
module SkillsMatrix {
  /** A skill card; the icon and the description are display text and are left out. */
  datatype Skill = Skill(name: string, level: int, category: string)

  const Skills: seq<Skill> := [
    Skill("SwiftUI", 95, "UI Framework"),
    Skill("ARKit", 90, "Augmented Reality"),
    Skill("Core Data", 92, "Data Management"),
    Skill("Combine", 88, "Reactive Programming"),
    Skill("WidgetKit", 85, "iOS Extensions"),
    Skill("StoreKit", 87, "Monetization"),
    Skill("TestFlight", 93, "Testing & Distribution"),
    Skill("CloudKit", 89, "Cloud Services")
  ]

  const All := "All"

  const Categories: seq<string> := [
    All, "UI Framework", "Augmented Reality", "Data Management", "Reactive Programming",
    "iOS Extensions", "Monetization", "Testing & Distribution", "Cloud Services"
  ]

  /** `useState('All')`. */
  const InitialCategory := All

  /** `skills.filter(skill => skill.category === category)`. */
  function FilterByCategory(xs: seq<Skill>, category: string): seq<Skill> {
    if xs == [] then []
    else (if xs[0].category == category then [xs[0]] else []) + FilterByCategory(xs[1..], category)
  }

  /** The filter keeps exactly the skills of the category, and it works piecewise, so
      whatever it keeps stays in its original order. */
  lemma {:induction false} FilterKeepsCategoryInOrder(a: seq<Skill>, b: seq<Skill>, category: string)
    ensures FilterByCategory(a + b, category) == FilterByCategory(a, category) + FilterByCategory(b, category)
    ensures forall s :: s in FilterByCategory(a, category) <==> s in a && s.category == category
    decreases |a|
  {
    if a == [] {
      assert a + b == b;
    } else {
      assert (a + b)[1..] == a[1..] + b;
      FilterKeepsCategoryInOrder(a[1..], b, category);
      assert a == [a[0]] + a[1..];
    }
  }

  /** `filteredSkills`. */
  function FilteredSkills(selected: string): seq<Skill> {
    if selected == All then Skills else FilterByCategory(Skills, selected)
  }

  /** 'All' shows every skill in order, and at first all eight are shown. */
  lemma AllShowsEverything()
    ensures FilteredSkills(All) == Skills
    ensures FilteredSkills(InitialCategory) == Skills && |Skills| == 8
  {
  }

  /** Every category button other than 'All' shows exactly one skill: the skill at the
      matching position of the skills list. */
  lemma EachCategoryHasOneSkill(k: nat)
    requires 1 <= k < |Categories|
    ensures FilteredSkills(Categories[k]) == [Skills[k - 1]]
  {
    var c := Categories[k];
    SkillsFollowCategories();
    CategoriesDistinct();
    assert forall j :: 0 <= j < |Skills| ==> (Skills[j].category == c <==> j == k - 1) by {
      forall j | 0 <= j < |Skills|
        ensures Skills[j].category == c <==> j == k - 1
      {
        assert Skills[j].category == Categories[j + 1];
      }
    }
    OnlyMatchKept(Skills, c, k - 1);
  }

  /** The skills are listed in the order of their categories. */
  lemma SkillsFollowCategories()
    ensures |Categories| == |Skills| + 1
    ensures forall j :: 0 <= j < |Skills| ==> Skills[j].category == Categories[j + 1]
  {
  }

  /** No category is listed twice. */
  lemma CategoriesDistinct()
    ensures forall a, b :: 0 <= a < b < |Categories| ==> Categories[a] != Categories[b]
  {
    forall a, b | 0 <= a < b < |Categories|
      ensures Categories[a] != Categories[b]
    {
      var x, y := Categories[a], Categories[b];
      assert |x| != |y| || x[0] != y[0];
    }
  }

  /** Filtering a list in which only position `i` has the category keeps that one element. */
  lemma {:induction false} OnlyMatchKept(xs: seq<Skill>, category: string, i: nat)
    requires i < |xs|
    requires forall j :: 0 <= j < |xs| ==> (xs[j].category == category <==> j == i)
    ensures FilterByCategory(xs, category) == [xs[i]]
  {
    assert xs == xs[..i] + [xs[i]] + xs[i + 1..];
    FilterKeepsCategoryInOrder(xs[..i] + [xs[i]], xs[i + 1..], category);
    FilterKeepsCategoryInOrder(xs[..i], [xs[i]], category);
    NoneKept(xs[..i], category);
    NoneKept(xs[i + 1..], category);
    assert [xs[i]][1..] == [];
  }

  lemma {:induction false} NoneKept(xs: seq<Skill>, category: string)
    requires forall j :: 0 <= j < |xs| ==> xs[j].category != category
    ensures FilterByCategory(xs, category) == []
    decreases |xs|
  {
    if xs != [] {
      assert forall j :: 0 <= j < |xs| - 1 ==> xs[1..][j] == xs[j + 1];
      NoneKept(xs[1..], category);
    }
  }

  /** The styling of the category buttons: true for the one drawn as selected. */
  function SelectedButtons(selected: string): (lit: seq<bool>)
    ensures |lit| == |Categories|
  {
    seq(|Categories|, k requires 0 <= k < |Categories| => Categories[k] == selected)
  }

  /** The categories are distinct, so exactly one button is drawn as selected whenever the
      selection is one of them (and it always is: only the buttons set it). */
  lemma ExactlyOneButtonSelected(k: nat)
    requires k < |Categories|
    ensures SelectedButtons(Categories[k])[k]
    ensures forall j :: 0 <= j < |Categories| && j != k ==> !SelectedButtons(Categories[k])[j]
  {
  }

  /** Each level is a percentage, usable as a bar width. */
  lemma LevelsArePercentages()
    ensures forall s :: s in Skills ==> 0 <= s.level <= 100
  {
  }
}
