/** The public Work page: a constant gallery of eighteen projects, the
    category badges above it, and the search-and-category filter. The page
    renders this constant and never reads the CMS store. */
module Gallery {
  import opened Wrappers
  import opened Seqs
  import opened Strings
  import opened Portfolio

  /** What a card prints and links to: none of it decides which button
      shows the card, how many cards a button shows, or the card's id. */
  datatype CardText = CardText(
    title: string, brand: string, description: string, image: string,
    tags: seq<string>, tech: seq<string>, metrics: Metrics, liveUrl: string)

  const NoText: CardText := CardText("", "", "", "", [], [], Metrics("", ""), "")

  /** The `k`-th card text, or blank text past the end of `texts`. */
  function TextAt(texts: seq<CardText>, k: nat): CardText
  {
    if k < |texts| then texts[k] else NoText
  }

  /** The six categories the gallery's cards use, and the button label of each. */
  datatype Category = Fashion | Beauty | HomeAndGarden | Technology | FoodAndBeverage | Jewelry
  {
    function Name(): string
    {
      match this
      case Fashion => "Fashion"
      case Beauty => "Beauty"
      case HomeAndGarden => "Home & Garden"
      case Technology => "Technology"
      case FoodAndBeverage => "Food & Beverage"
      case Jewelry => "Jewelry"
    }
  }

  /** Distinct categories have distinct labels. */
  lemma NameInjective(a: Category, b: Category)
    ensures a.Name() == b.Name() <==> a == b
  {
    if a != b {
      assert |a.Name()| != |b.Name()| || a.Name()[0] != b.Name()[0];
    }
  }

  /** Every video card embeds a Vimeo player that autoplays, loops and starts muted. */
  function VimeoUrl(videoId: string): string
  {
    "https://player.vimeo.com/video/" + videoId + "?autoplay=1&loop=1&muted=1"
  }

  /** What decides where a card appears: its id, its category, its flags
      and the Vimeo id of its video, if it has one. */
  datatype CardShape = CardShape(id: int, category: Category, featured: bool,
                                 hasVideo: bool, videoId: Option<string>)

  /** The gallery's cards in page order, without their text. */
  const Shapes: seq<CardShape> := [
    CardShape(1, Fashion, true, true, Some("847503258")),
    CardShape(2, Fashion, false, true, Some("743163629")),
    CardShape(3, Beauty, true, true, Some("731423904")),
    CardShape(4, Beauty, false, false, None),
    CardShape(5, HomeAndGarden, false, true, Some("736275204")),
    CardShape(6, HomeAndGarden, false, false, None),
    CardShape(7, Technology, false, true, Some("567890123")),
    CardShape(8, Technology, false, false, None),
    CardShape(9, FoodAndBeverage, false, true, Some("789123456")),
    CardShape(10, FoodAndBeverage, false, false, None),
    CardShape(11, Jewelry, true, true, Some("456789123")),
    CardShape(12, Fashion, false, true, Some("678912345")),
    CardShape(13, Technology, true, false, None),
    CardShape(14, Beauty, false, true, Some("789123789")),
    CardShape(15, Fashion, false, false, None),
    CardShape(16, Fashion, false, false, None),
    CardShape(17, Beauty, false, true, Some("456123789")),
    CardShape(18, Beauty, false, true, Some("321654987"))
  ]

  /** A card with its text filled in. */
  function Card(shape: CardShape, t: CardText): (r: WorkItem)
    ensures r.id == Some(shape.id) && r.category == shape.category.Name()
    ensures r.videoUrl.Some? == shape.videoId.Some?
    ensures r.featured == shape.featured && r.hasVideo == shape.hasVideo
    ensures r.title == t.title && r.description == t.description && r.tags == t.tags
    ensures r.brand == t.brand && r.image == t.image && r.tech == t.tech
    ensures r.metrics == t.metrics && r.liveUrl == t.liveUrl
    ensures shape.videoId.Some? ==> r.videoUrl == Some(VimeoUrl(shape.videoId.value))
  {
    var videoUrl := if shape.videoId.Some? then Some(VimeoUrl(shape.videoId.value)) else None;
    WorkItem(Some(shape.id), t.title, t.brand, t.description, t.image, videoUrl,
             shape.category.Name(), t.tags, t.tech, t.metrics, t.liveUrl,
             shape.featured, shape.hasVideo)
  }

  /** The gallery with the `k`-th card printing `texts[k]`. The page's own
      gallery is `Catalog`; the lemmas below hold for every choice of texts. */
  function CatalogWith(texts: seq<CardText>): (r: seq<WorkItem>)
    ensures |r| == |Shapes|
    ensures forall i :: 0 <= i < |r| ==> r[i] == Card(Shapes[i], TextAt(texts, i))
  {
    seq(|Shapes|, i requires 0 <= i < |Shapes| => Card(Shapes[i], TextAt(texts, i)))
  }

  /** The text the page prints on each of its eighteen cards, in order. */
  const CardTexts: seq<CardText> := [
      CardText("Kotn - Sustainable Fashion", "Kotn",
        "Egyptian cotton fashion brand with sustainable supply chain storytelling and impact tracking.",
        "https://images.unsplash.com/photo-1441986300917-64674bd600d8?w=800",
        ["Sustainable Fashion", "Story-driven"], ["Shopify Plus", "Custom Apps", "Mobile First"],
        Metrics("420%", "0.6s"), "https://kotn.com/"),
      CardText("Rothy's - Sustainable Shoes", "Rothy's",
        "Recycled material shoes with 3D knitting technology showcase and size matching tools.",
        "https://images.unsplash.com/photo-1560769629-975ec94e6a86?w=800",
        ["3D Technology", "Sustainability"], ["Shopify Plus", "AR Integration", "Custom Quiz"],
        Metrics("385%", "0.7s"), "https://rothys.com/"),
      CardText("Fenty Beauty - Inclusive Beauty", "Fenty Beauty",
        "Inclusive beauty brand with shade matching technology and virtual try-on experiences.",
        "https://images.unsplash.com/photo-1596462502278-27bfdc403348?w=800",
        ["Shade Matching", "AR Try-On"], ["Shopify Plus", "AR Technology", "Live Chat"],
        Metrics("450%", "0.5s"), "https://fentybeauty.com/"),
      CardText("Herbivore Botanicals - Clean Beauty", "Herbivore",
        "Clean beauty brand with ingredient transparency and skin analysis quiz integration.",
        "https://images.unsplash.com/photo-1570194065650-d99fb4bedf0a?w=800",
        ["Clean Beauty", "Ingredient Focus"], ["Shopify", "Quiz Integration", "Clean Code"],
        Metrics("340%", "0.8s"), "https://herbivorebotanicals.com/"),
      CardText("Burrow - Modular Furniture", "Burrow",
        "Modular furniture with 3D room visualization and configuration tools for custom setups.",
        "https://images.unsplash.com/photo-1586023492125-27b2c045efd7?w=800",
        ["3D Visualization", "Modular Design"], ["Shopify Plus", "3D Technology", "Custom Builder"],
        Metrics("375%", "0.9s"), "https://burrow.com/"),
      CardText("Tuft & Needle - Sleep Innovation", "Tuft & Needle",
        "Sleep technology brand with mattress selector quiz and sleep tracking integration.",
        "https://images.unsplash.com/photo-1555041469-a586c61ea9bc?w=800",
        ["Sleep Tech", "Quiz Builder"], ["Shopify", "Sleep Quiz", "Trial System"],
        Metrics("320%", "0.7s"), "https://tuftandneedle.com/"),
      CardText("Notion - Productivity Tools", "Notion",
        "Productivity platform with interactive demos and template marketplace integration.",
        "https://images.unsplash.com/photo-1611224923853-80b023f02d71?w=800",
        ["Interactive Demo", "Template Market"], ["Custom Platform", "Demo Integration", "API"],
        Metrics("410%", "0.6s"), "https://notion.so/"),
      CardText("Frame.io - Video Collaboration", "Frame.io",
        "Video collaboration platform with interactive workflow demos and team management tools.",
        "https://images.unsplash.com/photo-1558618666-fcd25c85cd64?w=800",
        ["Video Platform", "Collaboration"], ["Enterprise", "Video Tech", "Team Tools"],
        Metrics("355%", "0.8s"), "https://frame.io/"),
      CardText("Thrive Market - Organic Grocery", "Thrive Market",
        "Organic grocery delivery with membership model and personalized shopping experience.",
        "https://images.unsplash.com/photo-1542838132-92c53300491e?w=800",
        ["Subscription Model", "Organic Focus"], ["Shopify Plus", "Subscription", "Organic Certified"],
        Metrics("390%", "0.7s"), "https://thrivemarket.com/"),
      CardText("Daily Harvest - Superfood Delivery", "Daily Harvest",
        "Superfood delivery service with nutritional tracking and meal planning tools.",
        "https://images.unsplash.com/photo-1556909114-f6e7ad7d3136?w=800",
        ["Superfood", "Meal Planning"], ["Shopify Plus", "Nutrition API", "Meal Planner"],
        Metrics("365%", "0.6s"), "https://daily-harvest.com/"),
      CardText("Mejuri - Fine Jewelry", "Mejuri",
        "Fine jewelry brand with virtual try-on technology and personalization features.",
        "https://images.unsplash.com/photo-1515562141207-7a88fb7ce338?w=800",
        ["Virtual Try-On", "Fine Jewelry"], ["Shopify Plus", "AR Technology", "Luxury Experience"],
        Metrics("425%", "0.5s"), "https://mejuri.com/"),
      CardText("Outdoor Voices - Athletic Wear", "Outdoor Voices",
        "Community-driven athletic wear brand with social fitness integration and local event features.",
        "https://images.unsplash.com/photo-1544966503-7cc5ac882d5f?w=800",
        ["Community Focus", "Athletic Wear"], ["Shopify Plus", "Community Features", "Event API"],
        Metrics("365%", "0.6s"), "https://outdoorvoices.com/"),
      CardText("Away - Smart Luggage", "Away",
        "Smart luggage brand with travel guide integration and personalized packing recommendations.",
        "https://images.unsplash.com/photo-1553062407-98eeb64c6a62?w=800",
        ["Smart Products", "Travel Tech"], ["Shopify Plus", "Smart Features", "Travel API"],
        Metrics("440%", "0.5s"), "https://awaytravel.com/"),
      CardText("Prose - Custom Hair Care", "Prose",
        "Personalized hair care with AI-driven formulation quiz and ingredient customization.",
        "https://images.unsplash.com/photo-1522337360788-8b13dee7a37e?w=800",
        ["AI Personalization", "Custom Formulation"], ["Shopify Plus", "AI Integration", "Custom Quiz"],
        Metrics("395%", "0.7s"), "https://prose.com/"),
      CardText("Girlfriend Collective - Sustainable Activewear", "Girlfriend Collective",
        "Sustainable activewear made from recycled materials with transparency in supply chain.",
        "https://images.unsplash.com/photo-1506629905607-bea1f7b4f03a?w=800",
        ["Sustainability", "Recycled Materials"], ["Shopify Plus", "Sustainable Tech", "Supply Chain"],
        Metrics("380%", "0.6s"), "https://girlfriend.com/"),
      CardText("Chubbies - Men's Shorts", "Chubbies",
        "Fun men's apparel brand with gamified shopping experience and social media integration.",
        "https://images.unsplash.com/photo-1473966968600-fa801b869a1a?w=800",
        ["Gamification", "Social Integration"], ["Shopify", "Gamification", "Social API"],
        Metrics("355%", "0.7s"), "https://chubbiesshorts.com/"),
      CardText("Goop - Wellness & Lifestyle", "Goop",
        "Luxury wellness brand with expert content integration and personalized wellness recommendations.",
        "https://images.unsplash.com/photo-1540555700478-4be289fbecef?w=800",
        ["Luxury Wellness", "Expert Content"], ["Shopify Plus", "Content CMS", "Wellness API"],
        Metrics("415%", "0.6s"), "https://goop.com/"),
      CardText("Beardbrand - Men's Grooming", "Beardbrand",
        "Men's grooming brand with beard care guide and virtual styling consultation features.",
        "https://images.unsplash.com/photo-1493256338651-d82f7acb2b38?w=800",
        ["Men's Grooming", "Virtual Consultation"], ["Shopify", "Consultation System", "Video Content"],
        Metrics("370%", "0.8s"), "https://beardbrand.com/")
    ]

  /** The gallery the Work page renders. */
  const Catalog: seq<WorkItem> := CatalogWith(CardTexts)

  /** A category button and the count printed on it. */
  datatype Badge = Badge(name: string, count: nat)

  const AllProjects: string := "All Projects"

  /** The badges as the page declares them, counts written by hand. */
  const Badges: seq<Badge> := [
    Badge(AllProjects, 18),
    Badge("Fashion", 8),
    Badge("Beauty", 6),
    Badge("Home & Garden", 2),
    Badge("Technology", 3),
    Badge("Food & Beverage", 2),
    Badge("Jewelry", 1)
  ]
  /** The search box: the lower-cased term occurs in the lower-cased title,
      description or one of the tags. Brand and tech are not searched. */
  predicate MatchesSearch(p: WorkItem, term: string)
  {
    var t := ToLower(term);
    || Contains(ToLower(p.title), t)
    || Contains(ToLower(p.description), t)
    || exists k :: 0 <= k < |p.tags| && Contains(ToLower(p.tags[k]), t)
  }

  predicate MatchesCategory(p: WorkItem, category: string)
  {
    category == AllProjects || p.category == category
  }

  predicate Shown(term: string, category: string, p: WorkItem)
  {
    MatchesSearch(p, term) && MatchesCategory(p, category)
  }

  /** `filteredProjects`: the records of `catalog` passing the search and the
      category button, in catalog order. The page applies it to `Catalog`. */
  function FilterProjects(catalog: seq<WorkItem>, term: string, category: string): (r: seq<WorkItem>)
    ensures IsSubsequence(r, catalog)
    ensures forall p :: p in r <==> p in catalog && MatchesSearch(p, term) && MatchesCategory(p, category)
    ensures |r| == Count(catalog, (p: WorkItem) => Shown(term, category, p))
  {
    var keep := (p: WorkItem) => Shown(term, category, p);
    CountIsFilterLength(catalog, keep);
    FilterIsSubsequence(catalog, keep);
    forall p ensures p in Filter(catalog, keep) <==> p in catalog && keep(p) {
      FilterMembership(catalog, keep, p);
    }
    Filter(catalog, keep)
  }

  /** The empty search matches every record. */
  lemma EmptySearchMatches(p: WorkItem)
    ensures MatchesSearch(p, "")
  {
    assert ToLower("") == "";
    ContainsEmpty(ToLower(p.title));
  }

  /** The initial view (empty search, "All Projects") shows the whole catalog in order. */
  lemma InitialViewShowsCatalog(catalog: seq<WorkItem>)
    ensures FilterProjects(catalog, "", AllProjects) == catalog
  {
    forall i | 0 <= i < |catalog|
      ensures Shown("", AllProjects, catalog[i])
    {
      EmptySearchMatches(catalog[i]);
    }
    FilterAll(catalog, (p: WorkItem) => Shown("", AllProjects, p));
  }

  /** Every shown record is in the selected category unless "All Projects" is selected. */
  lemma ResultsInSelectedCategory(catalog: seq<WorkItem>, term: string, category: string)
    requires category != AllProjects
    ensures forall p :: p in FilterProjects(catalog, term, category) ==> p.category == category
  {
  }

  /** Brand and tech never affect the search. */
  lemma SearchIgnoresBrandAndTech(p: WorkItem, term: string, brand: string, tech: seq<string>)
    ensures MatchesSearch(p.(brand := brand, tech := tech), term) == MatchesSearch(p, term)
  {
    var q := p.(brand := brand, tech := tech);
    assert q.title == p.title && q.description == p.description && q.tags == p.tags;
  }

  /** The search ignores the case of the term: typing it in capitals shows
      the same records, in the same order, as typing it in lower case. */
  lemma SearchIgnoresTermCase(catalog: seq<WorkItem>, term: string, category: string)
    ensures FilterProjects(catalog, ToLower(term), category) == FilterProjects(catalog, term, category)
  {
    ToLowerIdempotent(term);
    FilterCongruent(catalog, (p: WorkItem) => Shown(ToLower(term), category, p),
                    (p: WorkItem) => Shown(term, category, p));
  }

  /** The card ids are 1..18 in page order, so no two cards share one. */
  lemma CatalogIdsDistinct(texts: seq<CardText>)
    ensures forall i :: 0 <= i < |CatalogWith(texts)| ==> CatalogWith(texts)[i].id == Some(i + 1)
    ensures forall i, j :: 0 <= i < j < |CatalogWith(texts)| ==>
              CatalogWith(texts)[i].id != CatalogWith(texts)[j].id
  {
    assert forall i :: 0 <= i < |Shapes| ==> Shapes[i].id == i + 1;
  }

  /** A card has a video URL for its iframe exactly when it is marked as a video card. */
  lemma VideoCardsHaveUrl(texts: seq<CardText>)
    ensures forall i :: 0 <= i < |CatalogWith(texts)| ==>
              (CatalogWith(texts)[i].hasVideo <==> CatalogWith(texts)[i].videoUrl.Some?)
  {
    assert forall i :: 0 <= i < |Shapes| ==> (Shapes[i].hasVideo <==> Shapes[i].videoId.Some?);
  }

  predicate InCategory(category: string, p: WorkItem)
  {
    p.category == category
  }

  /** The number of records of `catalog` in `category`. */
  function CategorySize(catalog: seq<WorkItem>, category: string): nat
  {
    Count(catalog, (p: WorkItem) => InCategory(category, p))
  }

  /** Pressing a category button with an empty search shows
      `CategorySize` records. */
  lemma CategoryViewSize(catalog: seq<WorkItem>, category: string)
    requires category != AllProjects
    ensures |FilterProjects(catalog, "", category)| == CategorySize(catalog, category)
  {
    forall i | 0 <= i < |catalog|
      ensures Shown("", category, catalog[i]) == InCategory(category, catalog[i])
    {
      EmptySearchMatches(catalog[i]);
    }
    FilterCongruent(catalog, (p: WorkItem) => Shown("", category, p), (p: WorkItem) => InCategory(category, p));
    CountIsFilterLength(catalog, (p: WorkItem) => InCategory(category, p));
  }

  /** The categories of the cards, in page order. */
  function CategoriesOf(shapes: seq<CardShape>): (r: seq<Category>)
    ensures |r| == |shapes|
  {
    seq(|shapes|, i requires 0 <= i < |shapes| => shapes[i].category)
  }

  /** The gallery's category column. */
  lemma CategoriesInOrder()
    ensures CategoriesOf(Shapes) == [Fashion, Fashion, Beauty, Beauty, HomeAndGarden, HomeAndGarden,
                                     Technology, Technology, FoodAndBeverage, FoodAndBeverage, Jewelry, Fashion,
                                     Technology, Beauty, Fashion, Fashion, Beauty, Beauty]
  {
  }

  /** Counting cards by label is counting their categories. */
  lemma {:induction false} CategorySizeIsMultiplicity(xs: seq<WorkItem>, ks: seq<Category>, c: Category)
    requires |xs| == |ks|
    requires forall i :: 0 <= i < |xs| ==> xs[i].category == ks[i].Name()
    ensures CategorySize(xs, c.Name()) == multiset(ks)[c]
  {
    if |xs| > 0 {
      CategorySizeIsMultiplicity(xs[1..], ks[1..], c);
      NameInjective(ks[0], c);
      assert ks == [ks[0]] + ks[1..];
    }
  }

  /** The number of cards a category button shows, read off the category column. */
  lemma CatalogCategorySize(texts: seq<CardText>, c: Category)
    ensures CategorySize(CatalogWith(texts), c.Name()) == multiset(CategoriesOf(Shapes))[c]
  {
    CategorySizeIsMultiplicity(CatalogWith(texts), CategoriesOf(Shapes), c);
  }

  lemma FashionSize(texts: seq<CardText>)
    ensures CategorySize(CatalogWith(texts), Fashion.Name()) == 5
  {
    CategoriesInOrder();
    CatalogCategorySize(texts, Fashion);
  }

  lemma BeautySize(texts: seq<CardText>)
    ensures CategorySize(CatalogWith(texts), Beauty.Name()) == 5
  {
    CategoriesInOrder();
    CatalogCategorySize(texts, Beauty);
  }

  lemma HomeAndGardenSize(texts: seq<CardText>)
    ensures CategorySize(CatalogWith(texts), HomeAndGarden.Name()) == 2
  {
    CategoriesInOrder();
    CatalogCategorySize(texts, HomeAndGarden);
  }

  lemma TechnologySize(texts: seq<CardText>)
    ensures CategorySize(CatalogWith(texts), Technology.Name()) == 3
  {
    CategoriesInOrder();
    CatalogCategorySize(texts, Technology);
  }

  lemma FoodAndBeverageSize(texts: seq<CardText>)
    ensures CategorySize(CatalogWith(texts), FoodAndBeverage.Name()) == 2
  {
    CategoriesInOrder();
    CatalogCategorySize(texts, FoodAndBeverage);
  }

  lemma JewelrySize(texts: seq<CardText>)
    ensures CategorySize(CatalogWith(texts), Jewelry.Name()) == 1
  {
    CategoriesInOrder();
    CatalogCategorySize(texts, Jewelry);
  }

  /** The count a badge should print: the number of records its button shows
      with an empty search. */
  function ViewSize(catalog: seq<WorkItem>, name: string): nat
  {
    if name == AllProjects then |catalog| else CategorySize(catalog, name)
  }

  /** A badge's view size is the number of records its button shows. */
  lemma ViewSizeIsShownCount(catalog: seq<WorkItem>, name: string)
    ensures ViewSize(catalog, name) == |FilterProjects(catalog, "", name)|
  {
    if name == AllProjects {
      InitialViewShowsCatalog(catalog);
    } else {
      CategoryViewSize(catalog, name);
    }
  }

  /** Corrected: the declared badges with every count derived from `catalog`. */
  function CountedBadges(catalog: seq<WorkItem>): (r: seq<Badge>)
    ensures |r| == |Badges|
    ensures forall i :: 0 <= i < |r| ==> r[i].name == Badges[i].name
  {
    seq(|Badges|, i requires 0 <= i < |Badges| => Badge(Badges[i].name, ViewSize(catalog, Badges[i].name)))
  }

  /** Every corrected badge prints the number of records its button shows
      with an empty search. */
  lemma CountedBadgesMatchView(catalog: seq<WorkItem>)
    ensures forall i :: 0 <= i < |CountedBadges(catalog)| ==>
              CountedBadges(catalog)[i].count == |FilterProjects(catalog, "", CountedBadges(catalog)[i].name)|
  {
    forall i | 0 <= i < |Badges|
      ensures ViewSize(catalog, Badges[i].name) == |FilterProjects(catalog, "", Badges[i].name)|
    {
      ViewSizeIsShownCount(catalog, Badges[i].name);
    }
  }

  /** As written: the Fashion badge declares 8 cards but its button shows 5. */
  lemma FashionBadgeOverstated(texts: seq<CardText>)
    ensures Badges[1].name == "Fashion" && Badges[1].count == 8
    ensures CountedBadges(CatalogWith(texts))[1].count == 5
  {
    FashionSize(texts);
  }

  /** As written: the Beauty badge declares 6 cards but its button shows 5. */
  lemma BeautyBadgeOverstated(texts: seq<CardText>)
    ensures Badges[2].name == "Beauty" && Badges[2].count == 6
    ensures CountedBadges(CatalogWith(texts))[2].count == 5
  {
    BeautySize(texts);
  }

  /** As written: the declared count is right for every badge but Fashion and Beauty. */
  lemma DeclaredBadgeCounts(texts: seq<CardText>)
    ensures forall i :: 0 <= i < |Badges| ==>
              (Badges[i].count == CountedBadges(CatalogWith(texts))[i].count <==> i != 1 && i != 2)
  {
    FashionSize(texts);
    BeautySize(texts);
    HomeAndGardenSize(texts);
    TechnologySize(texts);
    FoodAndBeverageSize(texts);
    JewelrySize(texts);
  }
}
