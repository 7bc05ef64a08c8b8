/** Category management: three fixed expense categories, each with an
    ordered list of subcategories that the admin adds and removes, plus the
    form fields used to add them. */
module CategoryManagement {
  import opened Wrappers
  import opened Text
  import opened Sequences

  const Travel: string := "travel"
  const LocalConvenience: string := "localConvenience"
  const Equipment: string := "equipment"

  /** The category keys the page starts with and shows. */
  const CategoryKeys: set<string> := {Travel, LocalConvenience, Equipment}

  /** A subcategory. `rate` holds the text typed into the rate box, which
      only the local-convenience category offers. */
  datatype SubCategory = SubCategory(id: string, name: string, rate: Option<string>)

  /** How a handler call ends: it updated the state (`Done`), it returned
      early (`Ignored`), or it threw a TypeError because the category key is
      absent from the state (`Threw`), before changing anything. */
  datatype Outcome = Done | Ignored | Threw

  /** The entry `addSubCategory` builds from a trimmed name: a rate is
      attached only for the local-convenience category and only when the
      rate box is not empty. */
  function NewSubCategory(categoryKey: string, name: string, rateText: string, id: string): (sub: SubCategory)
    ensures sub.id == id && sub.name == name
    ensures sub.rate.Some? <==> categoryKey == LocalConvenience && rateText != []
    ensures sub.rate.Some? ==> sub.rate.value == rateText
  {
    SubCategory(id, name, if categoryKey == LocalConvenience && rateText != [] then Some(rateText) else None)
  }

  /** `list.filter(sub => sub.id !== id)`: every entry with that id goes,
      the others stay in order; the list is unchanged exactly when no entry
      has that id. */
  function WithoutId(list: seq<SubCategory>, id: string): (r: seq<SubCategory>)
    ensures forall sub :: sub in r <==> sub in list && sub.id != id
    ensures IsSubsequence(r, list)
    ensures r == list <==> forall sub :: sub in list ==> sub.id != id
    decreases |list|
  {
    if list == [] then []
    else if list[0].id != id then [list[0]] + WithoutId(list[1..], id)
    else WithoutId(list[1..], id)
  }

  /** Removal keeps every entry with another id as many times as it occurs,
      and no entry with that id. */
  lemma {:induction false} WithoutIdCounts(list: seq<SubCategory>, id: string)
    ensures forall sub :: multiset(WithoutId(list, id))[sub] == if sub.id != id then multiset(list)[sub] else 0
    decreases |list|
  {
    if list != [] {
      WithoutIdCounts(list[1..], id);
      assert list == [list[0]] + list[1..];
    }
  }

  lemma {:induction false} WithoutIdSnoc(list: seq<SubCategory>, sub: SubCategory, id: string)
    ensures WithoutId(list + [sub], id) == WithoutId(list, id) + WithoutId([sub], id)
    decreases |list|
  {
    if list == [] {
      assert list + [sub] == [sub];
    } else {
      assert (list + [sub])[0] == list[0];
      assert (list + [sub])[1..] == list[1..] + [sub];
      WithoutIdSnoc(list[1..], sub, id);
    }
  }

  /** Removing the id of an entry just appended, when no earlier entry had
      that id, gives the list back as it was before the append. */
  lemma RemoveUndoesAppend(list: seq<SubCategory>, sub: SubCategory)
    requires forall s :: s in list ==> s.id != sub.id
    ensures WithoutId(list + [sub], sub.id) == list
  {
    WithoutIdSnoc(list, sub, sub.id);
  }

  /** A snapshot of the category page's state. */
  datatype Page = Page(
    categories: map<string, seq<SubCategory>>,
    newSubCategory: map<string, string>,
    newRate: string,
    activeCategory: string)

  /** `addSubCategory` on a snapshot: trims the typed name; an empty name
      changes nothing; a key missing from either map throws before any
      change; otherwise appends one entry to that category's list only and
      clears that name box, the rate box and the active category. */
  function AddedSubCategory(p: Page, categoryKey: string, id: string): (r: (Outcome, Page))
    ensures categoryKey !in p.newSubCategory ==> r.0 == Threw
    ensures categoryKey in p.newSubCategory && Trim(p.newSubCategory[categoryKey]) == [] ==> r.0 == Ignored
    ensures categoryKey in p.newSubCategory && Trim(p.newSubCategory[categoryKey]) != [] ==>
      r.0 == if categoryKey in p.categories then Done else Threw
    ensures r.0 != Done ==> r.1 == p
    ensures r.0 == Done ==>
      && categoryKey in p.categories && categoryKey in p.newSubCategory
      && r.1.categories == p.categories[categoryKey := p.categories[categoryKey] +
           [NewSubCategory(categoryKey, Trim(p.newSubCategory[categoryKey]), p.newRate, id)]]
      && r.1.newSubCategory == p.newSubCategory[categoryKey := []]
      && r.1.newRate == [] && r.1.activeCategory == []
  {
    if categoryKey !in p.newSubCategory then (Threw, p)
    else
      var name := Trim(p.newSubCategory[categoryKey]);
      if name == [] then (Ignored, p)
      else if categoryKey !in p.categories then (Threw, p)
      else
        var newSub := NewSubCategory(categoryKey, name, p.newRate, id);
        (Done, Page(p.categories[categoryKey := p.categories[categoryKey] + [newSub]],
                    p.newSubCategory[categoryKey := ""], "", ""))
  }

  /** The category page's state. */
  class CategoryManager {
    var categories: map<string, seq<SubCategory>>
    var newSubCategory: map<string, string>
    var newRate: string
    var activeCategory: string

    function Snapshot(): Page
      reads this
    {
      Page(categories, newSubCategory, newRate, activeCategory)
    }

    /** Exactly the three categories, each with no subcategories; empty form
        fields; no category being edited. */
    constructor ()
      ensures categories.Keys == CategoryKeys
      ensures forall k :: k in categories ==> categories[k] == []
      ensures newSubCategory.Keys == CategoryKeys
      ensures forall k :: k in newSubCategory ==> newSubCategory[k] == []
      ensures newRate == [] && activeCategory == []
    {
      categories := map[Travel := [], LocalConvenience := [], Equipment := []];
      newSubCategory := map[Travel := "", LocalConvenience := "", Equipment := ""];
      newRate := "";
      activeCategory := "";
    }

    /** The name box's change handler. */
    method SetNewSubCategory(categoryKey: string, value: string)
      modifies this`newSubCategory
      ensures newSubCategory == old(newSubCategory)[categoryKey := value]
    {
      newSubCategory := newSubCategory[categoryKey := value];
    }

    /** The rate box's change handler. */
    method SetNewRate(value: string)
      modifies this`newRate
      ensures newRate == value
    {
      newRate := value;
    }

    /** "Add Subcategory" (with a key) and "Cancel" (with `""`). */
    method SetActiveCategory(categoryKey: string)
      modifies this`activeCategory
      ensures activeCategory == categoryKey
    {
      activeCategory := categoryKey;
    }

    /** `addSubCategory`, step by step on the fields; the outcome and the
        new state are those of `AddedSubCategory`. */
    method AddSubCategory(categoryKey: string, id: string) returns (outcome: Outcome)
      modifies this
      ensures (outcome, Snapshot()) == AddedSubCategory(old(Snapshot()), categoryKey, id)
    {
      if categoryKey !in newSubCategory {
        return Threw;
      }
      var name := Trim(newSubCategory[categoryKey]);
      if name == [] {
        return Ignored;
      }
      var newSub := NewSubCategory(categoryKey, name, newRate, id);
      if categoryKey !in categories {
        return Threw;
      }
      categories := categories[categoryKey := categories[categoryKey] + [newSub]];
      newSubCategory := newSubCategory[categoryKey := ""];
      newRate := "";
      activeCategory := "";
      outcome := Done;
    }

    /** `removeSubCategory`: drops every entry with that id from the
        category's list, keeping the rest in order; other categories and the
        form fields are untouched. */
    method RemoveSubCategory(categoryKey: string, id: string) returns (outcome: Outcome)
      modifies this`categories
      ensures outcome == if categoryKey in old(categories) then Done else Threw
      ensures outcome == Threw ==> categories == old(categories)
      ensures outcome == Done ==>
        categories == old(categories)[categoryKey := WithoutId(old(categories)[categoryKey], id)]
      ensures outcome == Done && (forall sub :: sub in old(categories)[categoryKey] ==> sub.id != id) ==>
        categories == old(categories)
    {
      if categoryKey !in categories {
        return Threw;
      }
      var list := categories[categoryKey];
      categories := categories[categoryKey := WithoutId(list, id)];
      assert (forall sub :: sub in list ==> sub.id != id) ==> categories == old(categories);
      outcome := Done;
    }
  }
}
