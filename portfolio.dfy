/** The portfolio section: the six showcased projects, the category filter and its buttons, the
    category badge of a card, and the card's hover and 3D-preview toggles. */
module Portfolio {

  datatype Category = Web | Mobile | Marketing

  /** The `category` string of the `PortfolioItem` type. */
  function CategoryId(c: Category): (s: string)
    ensures s in {"web", "mobile", "marketing"}
  {
    match c
    case Web => "web"
    case Mobile => "mobile"
    case Marketing => "marketing"
  }

  lemma CategoryIdInjective(a: Category, b: Category)
    requires CategoryId(a) == CategoryId(b)
    ensures a == b
  {
  }

  datatype PortfolioItem = PortfolioItem(
    id: string, title: string, category: Category, technologies: seq<string>)

  const PortfolioItems: seq<PortfolioItem> := [
    PortfolioItem("1", "E-commerce Platform", Web, ["Next.js", "TypeScript", "Stripe", "PostgreSQL", "Tailwind CSS"]),
    PortfolioItem("2", "Food Delivery App", Mobile, ["React Native", "Firebase", "Google Maps API", "Stripe"]),
    PortfolioItem("3", "SaaS Dashboard", Web, ["React", "Node.js", "MongoDB", "Chart.js", "AWS"]),
    PortfolioItem("4", "Fitness Tracking App", Mobile, ["Flutter", "Firebase", "HealthKit", "Google Fit API"]),
    PortfolioItem("5", "Digital Marketing Campaign", Marketing, ["Google Ads", "Facebook Ads", "SEO", "Content Marketing"]),
    PortfolioItem("6", "Real Estate Platform", Web, ["Vue.js", "Laravel", "MySQL", "AWS S3", "Google Maps"])
  ]

  /** The filter buttons: an id and a label each. */
  const FilterButtons: seq<(string, string)> := [
    ("all", "All Projects"), ("web", "Web Development"),
    ("mobile", "Mobile Apps"), ("marketing", "Digital Marketing")
  ]

  /** `items.filter(item => item.category === category)`. */
  function WithCategory(items: seq<PortfolioItem>, category: string): (r: seq<PortfolioItem>)
    ensures |r| <= |items|
    ensures forall i :: 0 <= i < |r| ==> CategoryId(r[i].category) == category
  {
    if items == [] then []
    else if CategoryId(items[0].category) == category then [items[0]] + WithCategory(items[1..], category)
    else WithCategory(items[1..], category)
  }

  /** The items shown for a requested category: all of them for `all`. */
  function FilterItems(items: seq<PortfolioItem>, category: string): seq<PortfolioItem> {
    if category == "all" then items else WithCategory(items, category)
  }

  /** An item is shown exactly when it is in the list and has the requested category. */
  lemma {:induction false} WithCategoryMembers(items: seq<PortfolioItem>, category: string, x: PortfolioItem)
    ensures x in WithCategory(items, category) <==> x in items && CategoryId(x.category) == category
  {
    if items != [] {
      WithCategoryMembers(items[1..], category, x);
      assert items == [items[0]] + items[1..];
    }
  }

  /** The shown items keep their original order: each comes from a position of the full list,
      and the positions increase. */
  lemma {:induction false} WithCategoryKeepsOrder(items: seq<PortfolioItem>, category: string)
    returns (pos: seq<nat>)
    ensures |pos| == |WithCategory(items, category)|
    ensures forall k :: 0 <= k < |pos| ==> pos[k] < |items| && WithCategory(items, category)[k] == items[pos[k]]
    ensures forall k, l :: 0 <= k < l < |pos| ==> pos[k] < pos[l]
  {
    if items == [] {
      pos := [];
    } else {
      var rest := WithCategoryKeepsOrder(items[1..], category);
      var shifted := seq(|rest|, k requires 0 <= k < |rest| => rest[k] + 1);
      if CategoryId(items[0].category) == category {
        pos := [0] + shifted;
      } else {
        pos := shifted;
      }
    }
  }

  /** The three category filters split any list: every item is shown under exactly one. */
  lemma {:induction false} CategoriesPartition(items: seq<PortfolioItem>)
    ensures |WithCategory(items, "web")| + |WithCategory(items, "mobile")| + |WithCategory(items, "marketing")| == |items|
  {
    if items != [] {
      CategoriesPartition(items[1..]);
    }
  }

  /** The six projects are three web, two mobile and one marketing project. */
  lemma ShowcaseCounts()
    ensures |FilterItems(PortfolioItems, "all")| == 6
    ensures |FilterItems(PortfolioItems, "web")| == 3
    ensures |FilterItems(PortfolioItems, "mobile")| == 2
    ensures |FilterItems(PortfolioItems, "marketing")| == 1
  {
    var p := PortfolioItems;
    assert p[1..][1..][1..][1..][1..][1..] == [];
  }

  /** The text of a card's category badge. */
  function BadgeLabel(c: Category): (badge: string)
    ensures c == Web ==> badge == "Web Development"
    ensures c == Mobile ==> badge == "Mobile App"
    ensures c != Web && c != Mobile ==> badge == "Digital Marketing"
  {
    if CategoryId(c) == "web" then "Web Development"
    else if CategoryId(c) == "mobile" then "Mobile App"
    else "Digital Marketing"
  }

  class PortfolioView {
    var activeCategory: string
    var filteredItems: seq<PortfolioItem>

    constructor ()
      ensures activeCategory == "all" && filteredItems == PortfolioItems
    {
      activeCategory := "all";
      filteredItems := PortfolioItems;
    }

    method HandleCategoryChange(category: string)
      modifies this
      ensures activeCategory == category
      ensures filteredItems == FilterItems(PortfolioItems, category)
    {
      activeCategory := category;
      if category == "all" {
        filteredItems := PortfolioItems;
      } else {
        filteredItems := WithCategory(PortfolioItems, category);
      }
    }
  }

  class PortfolioCard {
    var isHovered: bool
    var is3DVisible: bool
    /** The tilt inputs, normalised pointer offsets from the card's centre. */
    var mouseX: real
    var mouseY: real
    /** Scene set-up timeouts scheduled by the toggle. */
    var pendingSetups: nat

    constructor ()
      ensures !isHovered && !is3DVisible && mouseX == 0.0 && mouseY == 0.0 && pendingSetups == 0
    {
      isHovered, is3DVisible := false, false;
      mouseX, mouseY := 0.0, 0.0;
      pendingSetups := 0;
    }

    method HandleMouseEnter()
      modifies this`isHovered
      ensures isHovered
    {
      isHovered := true;
    }

    method HandleMouseLeave()
      modifies this`mouseX, this`mouseY, this`isHovered
      ensures mouseX == 0.0 && mouseY == 0.0 && !isHovered
    {
      mouseX := 0.0;
      mouseY := 0.0;
      isHovered := false;
    }

    /** Flips the preview; the scene set-up is scheduled only when it is being turned on. */
    method Handle3DToggle()
      modifies this`is3DVisible, this`pendingSetups
      ensures is3DVisible == !old(is3DVisible)
      ensures pendingSetups == old(pendingSetups) + (if is3DVisible then 1 else 0)
    {
      var wasVisible := is3DVisible;
      is3DVisible := !wasVisible;
      if !wasVisible {
        pendingSetups := pendingSetups + 1;
      }
    }

    /** A scheduled set-up timeout fires. */
    method SetupTimeoutFires()
      requires pendingSetups > 0
      modifies this`pendingSetups
      ensures pendingSetups == old(pendingSetups) - 1
    {
      pendingSetups := pendingSetups - 1;
    }
  }
}
