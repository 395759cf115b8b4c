/** The services page: a category filter over the six services, cards that
    preview at most three features of each, and a detail dialog for the
    service whose "View Details" button was pressed. */
module Services {
  import opened Wrappers
  import opened ArrayOps

  datatype Service = Service(
    id: int,
    title: string,
    category: string,
    image: string,
    description: string,
    features: seq<string>,
    benefits: seq<string>)

  function CategoryOf(s: Service): string { s.category }

  /** The filter buttons, in display order. */
  const ServiceCategories: seq<string> := [All, "Residential", "Commercial", "Specialized"]

  const RegularHouse := Service(1, "Regular House Cleaning", "Residential",
    "https://images.pexels.com/photos/4099238/pexels-photo-4099238.jpeg?auto=compress&cs=tinysrgb&w=600&h=400",
    "Comprehensive weekly or bi-weekly cleaning service to keep your home spotless and comfortable.",
    ["Dusting all surfaces and furniture", "Vacuuming carpets and rugs thoroughly",
     "Mopping and sanitizing hard floors", "Complete bathroom cleaning and sanitizing",
     "Kitchen cleaning including appliances", "Trash removal and fresh liner placement"],
    ["Consistent cleaning schedule", "Eco-friendly cleaning products",
     "Fully insured and bonded staff", "100% satisfaction guarantee"])

  const DeepCleaning := Service(2, "Deep Cleaning Service", "Residential",
    "https://images.pexels.com/photos/4107123/pexels-photo-4107123.jpeg?auto=compress&cs=tinysrgb&w=600&h=400",
    "Intensive cleaning service that reaches every corner and detail of your home for a thorough refresh.",
    ["Inside appliances cleaning (oven, refrigerator)", "Detailed baseboards and trim cleaning",
     "Light fixtures and ceiling fans", "Inside cabinets and drawers",
     "Window sills and tracks cleaning", "Behind and under furniture cleaning"],
    ["Perfect for seasonal cleaning", "Ideal before special events",
     "Removes built-up dirt and grime", "Extends life of home surfaces"])

  const OfficeCleaning := Service(3, "Office Cleaning", "Commercial",
    "https://images.pexels.com/photos/3965545/pexels-photo-3965545.jpeg?auto=compress&cs=tinysrgb&w=600&h=400",
    "Professional office cleaning services to maintain a productive and healthy work environment.",
    ["Workstation and desk cleaning", "Conference room sanitizing",
     "Restroom maintenance and restocking", "Break room and kitchen cleaning",
     "Floor care (vacuuming, mopping)", "Trash and recycling management"],
    ["Flexible scheduling options", "Emergency cleaning available",
     "Monthly cleaning reports", "Customized cleaning plans"])

  const MoveInOut := Service(4, "Move-in/Move-out Cleaning", "Specialized",
    "https://images.pexels.com/photos/4107256/pexels-photo-4107256.jpeg?auto=compress&cs=tinysrgb&w=600&h=400",
    "Complete cleaning service designed for moving transitions, ensuring spaces are pristine.",
    ["Interior of all appliances cleaned", "All cabinets cleaned inside and out",
     "Light fixtures and switch plates", "Baseboard and trim wiping",
     "Window cleaning (interior)", "Floor deep cleaning and treatment"],
    ["Same-day availability", "Security deposit protection",
     "Photo documentation provided", "Move-in ready guarantee"])

  const PostConstruction := Service(5, "Post-Construction Cleanup", "Specialized",
    "https://images.pexels.com/photos/6195122/pexels-photo-6195122.jpeg?auto=compress&cs=tinysrgb&w=600&h=400",
    "Specialized cleaning after construction or renovation projects to remove all debris and dust.",
    ["Complete dust removal from all surfaces", "Paint splatter and residue cleanup",
     "Construction debris removal", "Window and frame deep cleaning",
     "Floor preparation for finishing", "HVAC system cleaning and filter replacement"],
    ["Safety equipment provided", "Proper waste disposal",
     "Multiple visits if needed", "Final walkthrough inspection"])

  const RetailSpace := Service(6, "Retail Space Cleaning", "Commercial",
    "https://images.pexels.com/photos/3965543/pexels-photo-3965543.jpeg?auto=compress&cs=tinysrgb&w=600&h=400",
    "Maintain your retail space to create the best possible customer experience and shopping environment.",
    ["Display area and product cleaning", "Floor maintenance and polishing",
     "Fitting room sanitizing", "Customer restroom maintenance",
     "Storefront and window cleaning", "Inventory area organization"],
    ["After-hours service available", "Holiday scheduling flexibility",
     "Inventory protection protocols", "Customer-focused approach"])

  const AllServices: seq<Service> :=
    [RegularHouse, DeepCleaning, OfficeCleaning, MoveInOut, PostConstruction, RetailSpace]

  /** The cards the page shows for a selected category. */
  function FilteredServices(selected: string): (r: seq<Service>)
    ensures |r| <= |AllServices|
  {
    ByCategory(AllServices, CategoryOf, selected)
  }

  /** With `'All'` every service is shown, unchanged. */
  lemma FilteredServicesAll()
    ensures FilteredServices(All) == AllServices
  {
  }

  /** Any other category shows exactly the services of that category, in
      their original order. */
  lemma FilteredServicesByCategory(selected: string)
    requires selected != All
    ensures IsSubsequence(FilteredServices(selected), AllServices)
    ensures forall s :: s in FilteredServices(selected) <==> s in AllServices && s.category == selected
    ensures forall s :: multiset(FilteredServices(selected))[s] ==
                         if s.category == selected then multiset(AllServices)[s] else 0
  {
    WithCategoryIsSubsequence(AllServices, CategoryOf, selected);
    forall s {
      WithCategoryCounts(AllServices, CategoryOf, selected, s);
    }
  }

  /** Filtering the shown cards again by the same category changes nothing. */
  lemma FilteredServicesIdempotent(selected: string)
    ensures ByCategory(FilteredServices(selected), CategoryOf, selected) == FilteredServices(selected)
  {
    ByCategoryIdempotent(AllServices, CategoryOf, selected);
  }

  /** Each of the three categories holds two services, and together they
      split the six services with none left over and none shared. */
  lemma CategoriesPartitionServices()
    ensures FilteredServices("Residential") == [RegularHouse, DeepCleaning]
    ensures FilteredServices("Commercial") == [OfficeCleaning, RetailSpace]
    ensures FilteredServices("Specialized") == [MoveInOut, PostConstruction]
    ensures forall s :: s in AllServices <==>
              (s in FilteredServices("Residential")) || (s in FilteredServices("Commercial")) ||
              (s in FilteredServices("Specialized"))
  {
    forall c | c in ["Residential", "Commercial", "Specialized"]
      ensures WithCategory(AllServices, CategoryOf, c) ==
              Keep(RegularHouse, c) + (Keep(DeepCleaning, c) + (Keep(OfficeCleaning, c) +
              (Keep(MoveInOut, c) + (Keep(PostConstruction, c) + Keep(RetailSpace, c)))))
    {
      WithCategoryOfSix(RegularHouse, DeepCleaning, OfficeCleaning, MoveInOut, PostConstruction, RetailSpace, c);
    }
  }

  /** The part one service contributes to the filtered list. */
  function Keep(s: Service, c: string): seq<Service>
  {
    if s.category == c then [s] else []
  }

  lemma WithCategoryOfSix(a: Service, b: Service, c: Service, d: Service, e: Service, f: Service, k: string)
    ensures WithCategory([a, b, c, d, e, f], CategoryOf, k) ==
            Keep(a, k) + (Keep(b, k) + (Keep(c, k) + (Keep(d, k) + (Keep(e, k) + Keep(f, k)))))
  {
    assert [f] == [f] + [];
    assert [e, f] == [e] + [f];
    assert [d, e, f] == [d] + [e, f];
    assert [c, d, e, f] == [c] + [d, e, f];
    assert [b, c, d, e, f] == [b] + [c, d, e, f];
    assert [a, b, c, d, e, f] == [a] + [b, c, d, e, f];
    WithCategoryCons(f, [], CategoryOf, k);
    assert Keep(f, k) + [] == Keep(f, k);
    WithCategoryCons(e, [f], CategoryOf, k);
    WithCategoryCons(d, [e, f], CategoryOf, k);
    WithCategoryCons(c, [d, e, f], CategoryOf, k);
    WithCategoryCons(b, [c, d, e, f], CategoryOf, k);
    WithCategoryCons(a, [b, c, d, e, f], CategoryOf, k);
  }

  /** `features.slice(0, 3)`: the features listed on a card. */
  function CardFeatures(features: seq<string>): (r: seq<string>)
    ensures |r| == if |features| < 3 then |features| else 3
    ensures r <= features
  {
    if |features| < 3 then features else features[..3]
  }

  /** The "+N more features" line: N when there are more than three features,
      None when the line is not rendered. */
  function MoreFeatures(features: seq<string>): (more: Option<int>)
    ensures more.Some? <==> |features| > 3
  {
    if |features| > 3 then Some(|features| - 3) else None
  }

  /** A card accounts for every feature: the listed ones followed by the N
      counted in the "+N more" line give back the whole list. */
  lemma CardAccountsForEveryFeature(features: seq<string>)
    ensures var hidden := match MoreFeatures(features) case Some(n) => n case None => 0;
            |CardFeatures(features)| + hidden == |features|
    ensures CardFeatures(features) + features[|CardFeatures(features)|..] == features
    ensures MoreFeatures(features) == None ==> CardFeatures(features) == features
  {
  }

  /** Every service card lists three features and reads "+3 more features". */
  lemma EveryCardShowsThreeOfSix()
    ensures forall s :: s in AllServices ==>
              |CardFeatures(s.features)| == 3 && MoreFeatures(s.features) == Some(3)
  {
  }

  /** The page's state: the selected filter button and the service whose
      detail dialog is open (None while it is closed). */
  class ServicesPage {
    var selectedCategory: string
    var selectedService: Option<Service>

    constructor ()
      ensures selectedCategory == All && selectedService == None
    {
      selectedCategory := All;
      selectedService := None;
    }

    function Shown(): seq<Service>
      reads this
    {
      FilteredServices(selectedCategory)
    }

    /** The detail dialog's `open` property. */
    predicate DialogOpen()
      reads this
    {
      selectedService.Some?
    }

    /** A click on a filter button. */
    method SelectCategory(c: string)
      requires c in ServiceCategories
      modifies this
      ensures selectedCategory == c && selectedService == old(selectedService)
    {
      selectedCategory := c;
    }

    /** A click on a card's "View Details" button. */
    method ViewDetails(s: Service)
      requires s in Shown()
      modifies this
      ensures selectedService == Some(s) && DialogOpen()
      ensures selectedCategory == old(selectedCategory)
    {
      selectedService := Some(s);
    }

    /** Dismissing the dialog. */
    method CloseDetails()
      modifies this
      ensures selectedService == None && !DialogOpen()
      ensures selectedCategory == old(selectedCategory)
    {
      selectedService := None;
    }
  }
}
