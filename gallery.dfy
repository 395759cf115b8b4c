/** The gallery page: a category filter over a fixed list of photographs and a
    lightbox that shows one photograph of the filtered list at a time, with
    wrap-around next/previous navigation and an "i of n" counter. */
module Gallery {
  import opened Wrappers
  import opened ArrayOps
  import Cycle

  datatype Item = Item(id: int, image: string, title: string, category: string, description: string)

  function IdOf(item: Item): int { item.id }
  function CategoryOf(item: Item): string { item.category }

  /** The filter buttons, in display order. */
  const Categories: seq<string> := [All, "Residential", "Commercial", "Before/After", "Specialized"]

  const GalleryItems: seq<Item> := [
    Item(1, "https://images.pexels.com/photos/4099238/pexels-photo-4099238.jpeg?auto=compress&cs=tinysrgb&w=800&h=600",
         "Modern Living Room Cleaning", "Residential", "Complete deep cleaning of a modern living space"),
    Item(2, "https://images.pexels.com/photos/4107123/pexels-photo-4107123.jpeg?auto=compress&cs=tinysrgb&w=800&h=600",
         "Kitchen Deep Clean", "Residential", "Professional kitchen cleaning with appliance care"),
    Item(3, "https://images.pexels.com/photos/3965545/pexels-photo-3965545.jpeg?auto=compress&cs=tinysrgb&w=800&h=600",
         "Office Space Maintenance", "Commercial", "Regular office cleaning and maintenance"),
    Item(4, "https://images.pexels.com/photos/4107256/pexels-photo-4107256.jpeg?auto=compress&cs=tinysrgb&w=800&h=600",
         "Bathroom Renovation Cleanup", "Before/After", "Post-renovation bathroom cleaning service"),
    Item(5, "https://images.pexels.com/photos/6195122/pexels-photo-6195122.jpeg?auto=compress&cs=tinysrgb&w=800&h=600",
         "Construction Site Cleanup", "Specialized", "Post-construction deep cleaning service"),
    Item(6, "https://images.pexels.com/photos/3965543/pexels-photo-3965543.jpeg?auto=compress&cs=tinysrgb&w=800&h=600",
         "Retail Store Cleaning", "Commercial", "Daily retail space maintenance"),
    Item(7, "https://images.pexels.com/photos/4099355/pexels-photo-4099355.jpeg?auto=compress&cs=tinysrgb&w=800&h=600",
         "Bedroom Deep Clean", "Residential", "Thorough bedroom cleaning service"),
    Item(8, "https://images.pexels.com/photos/4107142/pexels-photo-4107142.jpeg?auto=compress&cs=tinysrgb&w=800&h=600",
         "Window Cleaning Service", "Specialized", "Professional window cleaning inside and out"),
    Item(9, "https://images.pexels.com/photos/4108715/pexels-photo-4108715.jpeg?auto=compress&cs=tinysrgb&w=800&h=600",
         "Move-out Deep Clean", "Before/After", "Complete move-out cleaning service")
  ]

  /** The gallery's ids are distinct, which is what lets the lightbox find an
      item again by its id. */
  lemma GalleryIdsUnique()
    ensures UniqueBy(GalleryItems, IdOf)
  {
    var g := GalleryItems;
    assert g[0].id == 1 && g[1].id == 2 && g[2].id == 3 && g[3].id == 4 && g[4].id == 5;
    assert g[5].id == 6 && g[6].id == 7 && g[7].id == 8 && g[8].id == 9;
    assert forall i :: 0 <= i < |g| ==> IdOf(g[i]) == i + 1;
  }

  /** The list the page shows for a selected category. */
  function Filtered(selected: string): (r: seq<Item>)
    ensures |r| <= |GalleryItems|
  {
    ByCategory(GalleryItems, CategoryOf, selected)
  }

  /** With `'All'` the whole gallery is shown, unchanged. */
  lemma FilteredAll()
    ensures Filtered(All) == GalleryItems
  {
  }

  /** Any other category shows exactly the items of that category, each as
      often as in the gallery, in gallery order. */
  lemma FilteredByCategory(selected: string)
    requires selected != All
    ensures IsSubsequence(Filtered(selected), GalleryItems)
    ensures forall x :: x in Filtered(selected) <==> x in GalleryItems && x.category == selected
    ensures forall x :: multiset(Filtered(selected))[x] ==
                         if x.category == selected then multiset(GalleryItems)[x] else 0
  {
    WithCategoryIsSubsequence(GalleryItems, CategoryOf, selected);
    forall x {
      WithCategoryCounts(GalleryItems, CategoryOf, selected, x);
    }
  }

  /** A category change can drop the photograph the lightbox shows: the
      second photograph is residential, so it is not among the commercial
      ones, and an open lightbox on it is out of sync after that click. */
  lemma CategoryChangeDropsPhotograph()
    ensures GalleryItems[1] in Filtered(All)
    ensures GalleryItems[1] !in Filtered("Commercial")
  {
  }

  /** Every filtered list keeps the gallery's ids distinct. */
  lemma FilteredIdsUnique(selected: string)
    ensures UniqueBy(Filtered(selected), IdOf)
  {
    GalleryIdsUnique();
    if selected != All {
      WithCategoryKeepsUnique(GalleryItems, CategoryOf, selected, IdOf);
    }
  }

  /** `items.findIndex(i => i.id === item.id)` on a list with distinct ids
      that holds the item: the index found is the item's own position. */
  method PositionById(xs: seq<Item>, item: Item) returns (k: int)
    requires UniqueBy(xs, IdOf) && item in xs
    ensures 0 <= k < |xs| && xs[k] == item
  {
    k := FindIndex(xs, (i: Item) => i.id == item.id);
    UniqueKeyDetermines(xs, IdOf, xs[k], item);
  }

  /** The page's state: the list it filters (`galleryItems`), the selected
      filter button, the photograph shown in the lightbox (None while it is
      closed) and that photograph's position in the filtered list. */
  class GalleryPage {
    const items: seq<Item>
    var selectedCategory: string
    var selectedImage: Option<Item>
    var currentImageIndex: int

    constructor ()
      ensures items == GalleryItems && UniqueIds()
      ensures selectedCategory == All && selectedImage == None && currentImageIndex == 0
      ensures InSync()
    {
      items := GalleryItems;
      selectedCategory := All;
      selectedImage := None;
      currentImageIndex := 0;
      GalleryIdsUnique();
    }

    /** The listed photographs have distinct ids. */
    predicate UniqueIds()
    {
      UniqueBy(items, IdOf)
    }

    /** `filteredItems`: with `items` the gallery, this is `Filtered(selectedCategory)`. */
    function FilteredItems(): seq<Item>
      reads this
    {
      ByCategory(items, CategoryOf, selectedCategory)
    }

    /** The lightbox dialog is open exactly when an image is selected. */
    predicate LightboxOpen()
      reads this
    {
      selectedImage.Some?
    }

    /** While the lightbox is open, the index points at the shown image. */
    predicate InSync()
      reads this
    {
      selectedImage.Some? ==>
        0 <= currentImageIndex < |FilteredItems()| &&
        FilteredItems()[currentImageIndex] == selectedImage.value
    }

    /** The previous/next buttons are rendered only for more than one item,
        that is, exactly when a step would show a different photograph. */
    predicate ShowsNavigation()
      reads this
      ensures ShowsNavigation() <==>
                |FilteredItems()| > 0 &&
                forall i :: 0 <= i < |FilteredItems()| ==> Cycle.NextIndex(i, |FilteredItems()|) != i
    {
      var n := |FilteredItems()|;
      assert n == 1 ==> Cycle.NextIndex(0, n) == 0;
      n > 1
    }

    /** The "i of n" counter's i. */
    function Counter(): (c: int)
      reads this
      requires LightboxOpen() && InSync()
      ensures 1 <= c <= |FilteredItems()|
      ensures FilteredItems()[c - 1] == selectedImage.value
    {
      currentImageIndex + 1
    }

    /** A click on a filter button. */
    method SelectCategory(c: string)
      requires c in Categories
      modifies this
      ensures selectedCategory == c
      ensures selectedImage == old(selectedImage) && currentImageIndex == old(currentImageIndex)
      ensures old(InSync()) && c == old(selectedCategory) ==> InSync()
      ensures LightboxOpen() && selectedImage.value !in FilteredItems() ==> !InSync()
    {
      selectedCategory := c;
    }

    /** A click on a photograph of the grid. */
    method OpenLightbox(item: Item)
      requires UniqueIds() && item in FilteredItems()
      modifies this
      ensures selectedCategory == old(selectedCategory)
      ensures selectedImage == Some(item)
      ensures 0 <= currentImageIndex < |FilteredItems()| && FilteredItems()[currentImageIndex] == item
      ensures InSync()
    {
      if selectedCategory != All {
        WithCategoryKeepsUnique(items, CategoryOf, selectedCategory, IdOf);
      }
      var k := PositionById(FilteredItems(), item);
      selectedImage := Some(item);
      currentImageIndex := k;
    }

    /** The "next" button: `(currentImageIndex + 1) % filteredItems.length`. */
    method NextImage()
      requires 0 <= currentImageIndex < |FilteredItems()|
      modifies this
      ensures selectedCategory == old(selectedCategory)
      ensures currentImageIndex == Cycle.NextIndex(old(currentImageIndex), |FilteredItems()|)
      ensures selectedImage == Some(FilteredItems()[currentImageIndex])
      ensures InSync()
    {
      var n := |FilteredItems()|;
      var nextIndex := Cycle.NextIndex(currentImageIndex, n);
      currentImageIndex := nextIndex;
      selectedImage := Some(FilteredItems()[nextIndex]);
    }

    /** The "previous" button: `(currentImageIndex - 1 + n) % n`. */
    method PrevImage()
      requires 0 <= currentImageIndex < |FilteredItems()|
      modifies this
      ensures selectedCategory == old(selectedCategory)
      ensures currentImageIndex == Cycle.PrevIndex(old(currentImageIndex), |FilteredItems()|)
      ensures selectedImage == Some(FilteredItems()[currentImageIndex])
      ensures InSync()
    {
      var n := |FilteredItems()|;
      var prevIndex := Cycle.PrevIndex(currentImageIndex, n);
      currentImageIndex := prevIndex;
      selectedImage := Some(FilteredItems()[prevIndex]);
    }

    /** The close button and the dialog's own dismissal. */
    method CloseLightbox()
      modifies this
      ensures selectedImage == None
      ensures selectedCategory == old(selectedCategory) && currentImageIndex == old(currentImageIndex)
      ensures InSync()
    {
      selectedImage := None;
    }
  }

  /** Pressing "next" and then "previous" shows the same photograph at the
      same position again. */
  method NextThenPrev(page: GalleryPage)
    requires page.LightboxOpen() && page.InSync()
    modifies page
    ensures page.selectedImage == old(page.selectedImage)
    ensures page.currentImageIndex == old(page.currentImageIndex)
    ensures page.selectedCategory == old(page.selectedCategory)
  {
    page.NextImage();
    page.PrevImage();
  }

  /** Pressing "previous" and then "next" also restores the lightbox. */
  method PrevThenNext(page: GalleryPage)
    requires page.LightboxOpen() && page.InSync()
    modifies page
    ensures page.selectedImage == old(page.selectedImage)
    ensures page.currentImageIndex == old(page.currentImageIndex)
    ensures page.selectedCategory == old(page.selectedCategory)
  {
    page.PrevImage();
    page.NextImage();
  }

  /** Pressing "next" once per photograph of the filtered list goes all the
      way round and shows the starting photograph again. */
  method NextThroughAll(page: GalleryPage)
    requires page.LightboxOpen() && page.InSync()
    modifies page
    ensures page.selectedImage == old(page.selectedImage)
    ensures page.currentImageIndex == old(page.currentImageIndex)
    ensures page.selectedCategory == old(page.selectedCategory)
  {
    var n := |page.FilteredItems()|;
    var k := 0;
    while k < n
      invariant 0 <= k <= n
      invariant page.selectedCategory == old(page.selectedCategory)
      invariant page.LightboxOpen() && page.InSync()
      invariant page.currentImageIndex == Cycle.Advance(old(page.currentImageIndex), n, k)
      decreases n - k
    {
      page.NextImage();
      k := k + 1;
    }
    Cycle.FullCycle(old(page.currentImageIndex), n);
  }
}
