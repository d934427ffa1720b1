/**
 * The course catalog: the ordered list of product records whose media
 * fields are filled in by the media-path resolver when the list is built.
 */
module Catalog {
  import opened Wrappers
  import opened MediaPaths

  /**
   * One purchasable course, with the fields of the source's Product
   * interface. `specifications` keeps the attribute pairs in the order they
   * are written, as a JavaScript object keeps its keys.
   */
  datatype Product = Product(
    id: int,
    name: string,
    price: real,
    image: string,
    images: seq<string>,
    video: Option<string>,
    videos: Option<seq<string>>,
    description: string,
    detailedDescription: string,
    category: string,
    features: seq<string>,
    specifications: seq<(string, string)>,
    inStock: bool)

  /** The authored prose of one course: the fields no helper computes and no property constrains. */
  datatype CourseText = CourseText(
    name: string,
    description: string,
    detailedDescription: string,
    category: string,
    features: seq<string>,
    specifications: seq<(string, string)>)

  const NoText: CourseText := CourseText("", "", "", "", [], [])

  /** The text of course `id` in a table listed in catalog order (course 1 first). */
  function TextOf(texts: seq<CourseText>, id: int): CourseText {
    if 1 <= id <= |texts| then texts[id - 1] else NoText
  }

  /**
   * The fields a record of `products` writes out by hand, apart from its
   * text: the id, the price, whether the record sets `videos` at all, and
   * the stock flag.
   */
  datatype Listing = Listing(id: int, price: real, multiVideo: bool, inStock: bool)

  /** The hand-written fields of the eleven records, in catalog order. */
  const Listings: seq<Listing> := [
    Listing(1, 6.99, false, true),
    Listing(2, 9.99, false, true),
    Listing(3, 19.99, false, true),
    Listing(4, 29.99, false, true),
    Listing(5, 39.99, true, true),
    Listing(6, 49.99, true, true),
    Listing(7, 59.99, true, true),
    Listing(8, 69.99, true, true),
    Listing(9, 79.99, true, true),
    Listing(10, 89.99, true, true),
    Listing(11, 99.99, true, true)
  ]

  /** One record: the listing's fields, the course's text, and the media the resolver gives for its id. */
  function Record(publicUrl: Option<string>, texts: seq<CourseText>, listing: Listing): (p: Product)
    ensures p.id == listing.id && p.price == listing.price && p.inStock == listing.inStock
    ensures p.images == [p.image]
    ensures p.video.Some? <==> 1 <= listing.id <= 30
    ensures p.videos.Some? <==> listing.multiVideo && 5 <= listing.id <= 11
  {
    var id, t := listing.id, TextOf(texts, listing.id);
    Product(
      id := id,
      name := t.name,
      price := listing.price,
      image := ProductImage(publicUrl, id, 1),
      images := ProductImages(publicUrl, id),
      video := ProductVideo(publicUrl, id),
      videos := if listing.multiVideo then ProductVideos(publicUrl, id) else None,
      description := t.description,
      detailedDescription := t.detailedDescription,
      category := t.category,
      features := t.features,
      specifications := t.specifications,
      inStock := listing.inStock)
  }

  /**
   * The `products` list built under the given PUBLIC_URL from the given
   * course text, one record per listing. The text is a parameter so that the
   * lemmas below, which do not depend on it, hold for every text and so for
   * CourseTexts.
   */
  function Products(publicUrl: Option<string>, texts: seq<CourseText>): (ps: seq<Product>)
    ensures |ps| == |Listings|
    ensures forall i :: 0 <= i < |ps| ==>
              ps[i].id == Listings[i].id && ps[i].price == Listings[i].price && ps[i].inStock == Listings[i].inStock
  {
    seq(|Listings|, i requires 0 <= i < |Listings| => Record(publicUrl, texts, Listings[i]))
  }

  /** The exported `products` list: the list built with the authored text. */
  function ExportedProducts(publicUrl: Option<string>): seq<Product> {
    Products(publicUrl, CourseTexts)
  }


  /** The authored text of courses 1 to 11, in catalog order. */
  const CourseTexts: seq<CourseText> := [
      // course 1
      CourseText(
        name := "WordPress Fundamentals: Platform Setup & Configuration",
        description := "Learn WordPress basics: choosing your platform, local vs remote development, and initial configuration.",
        detailedDescription := "Master WordPress fundamentals including platform differences between WordPress.com & WordPress.org, local development setup with Flywheel, and essential configuration steps. Perfect for complete beginners.",
        category := "WordPress Basics",
        features := [
          "1.5 hours of content",
          "WordPress platform comparison",
          "Local development setup",
          "Configuration and preferences",
          "Workflow optimization"
        ],
        specifications := [
          ("Duration", "1.5 hours"),
          ("Level", "Complete Beginner"),
          ("Language", "English"),
          ("Topics", "WordPress setup, configuration"),
          ("Access", "6 months"),
          ("Certificate", "Basic completion badge")
        ]),
      // course 2
      CourseText(
        name := "WordPress Content Management: Pages, Menus & Navigation",
        description := "Master WordPress content creation, pages, custom navigation menus, and site structure.",
        detailedDescription := "Learn essential WordPress content management including creating pages, building custom navigation menus, and organizing your site structure for optimal user experience.",
        category := "WordPress Content",
        features := [
          "2 hours of practical training",
          "WordPress pages creation",
          "Custom navigation menus",
          "Site structure planning",
          "Content organization"
        ],
        specifications := [
          ("Duration", "2 hours"),
          ("Level", "Beginner"),
          ("Topics", "Pages, menus, navigation, content"),
          ("Skills", "Content management, site structure"),
          ("Access", "8 months"),
          ("Support", "Community forum access")
        ]),
      // course 3
      CourseText(
        name := "WordPress Plugins, Widgets & Theme Basics",
        description := "Learn essential WordPress plugins, widgets, and theme fundamentals for customizing your website.",
        detailedDescription := "Master WordPress customization through plugins, widgets, and themes. Learn how to extend functionality, customize layouts, and choose the best themes for your projects.",
        category := "WordPress Customization",
        features := [
          "1 hour of focused training",
          "WordPress plugins introduction",
          "Widget management and setup",
          "Theme selection and basics",
          "Customization fundamentals"
        ],
        specifications := [
          ("Duration", "1 hour"),
          ("Level", "Beginner to Intermediate"),
          ("Topics", "Plugins, widgets, themes"),
          ("Practice", "Hands-on customization"),
          ("Access", "10 months"),
          ("Bonus", "Plugin recommendations guide")
        ]),
      // course 4
      CourseText(
        name := "WordPress Theme Installation & Child Themes",
        description := "Learn theme installation, activation, and creating child themes for safe customizations.",
        detailedDescription := "Master WordPress theme management including installation, activation, and creating child themes. Learn best practices for theme customization while maintaining update safety.",
        category := "WordPress Themes",
        features := [
          "1.5 hours of intensive training",
          "Theme installation process",
          "Child theme creation",
          "Safe customization methods",
          "Blueprint setup workflow"
        ],
        specifications := [
          ("Duration", "1.5 hours"),
          ("Level", "Intermediate"),
          ("Topics", "Themes, child themes, customization"),
          ("Projects", "Theme setup projects"),
          ("Access", "8 months"),
          ("Bonus", "Theme selection guide")
        ]),
      // course 5
      CourseText(
        name := "WordPress Portfolio Website Development",
        description := "Build a professional portfolio website with custom logos, hero images, and optimized layouts.",
        detailedDescription := "Create a stunning portfolio website using WordPress. This comprehensive course covers logo creation, hero image setup, portfolio organization, and professional design techniques.",
        category := "WordPress Portfolio",
        features := [
          "2 comprehensive video modules",
          "3 hours of advanced training",
          "Custom logo creation",
          "Hero image design",
          "Portfolio setup and organization",
          "Professional styling techniques"
        ],
        specifications := [
          ("Duration", "3 hours"),
          ("Videos", "2 comprehensive modules"),
          ("Level", "Advanced"),
          ("Topics", "Portfolio design, branding, layouts"),
          ("Projects", "Complete portfolio website"),
          ("Access", "10 months"),
          ("Bonus", "Portfolio optimization guide")
        ]),
      // course 6
      CourseText(
        name := "WordPress Video Integration & Advanced Backgrounds",
        description := "Learn to add looping video backgrounds, custom headers, and advanced multimedia integration.",
        detailedDescription := "Master advanced WordPress multimedia features including looping video backgrounds, custom header creation, and professional video integration techniques for modern websites.",
        category := "WordPress Video",
        features := [
          "2 detailed video modules",
          "3.5 hours of video training",
          "Looping video backgrounds",
          "Custom header creation",
          "Multimedia optimization",
          "Performance considerations"
        ],
        specifications := [
          ("Duration", "3.5 hours"),
          ("Videos", "2 detailed modules"),
          ("Level", "Intermediate"),
          ("Topics", "Video integration, headers, multimedia"),
          ("Tools", "Video editing, compression"),
          ("Access", "12 months"),
          ("Support", "Video optimization guide")
        ]),
      // course 7
      CourseText(
        name := "WordPress Blog Setup & Content Management",
        description := "Master WordPress blogging: posts, categories, tags, comments, and content organization.",
        detailedDescription := "Learn comprehensive WordPress blogging including post creation, category and tag management, comment moderation, and effective content organization strategies.",
        category := "WordPress Blogging",
        features := [
          "2 comprehensive video modules",
          "4 hours of blogging training",
          "Post creation and management",
          "Categories and tags setup",
          "Comment system configuration",
          "Content strategy planning"
        ],
        specifications := [
          ("Duration", "4 hours"),
          ("Videos", "2 comprehensive modules"),
          ("Level", "Intermediate"),
          ("Topics", "Blogging, posts, categories, comments"),
          ("Projects", "Complete blog setup"),
          ("Access", "12 months"),
          ("Bonus", "Content strategy guide")
        ]),
      // course 8
      CourseText(
        name := "WordPress Contact Forms & User Interaction",
        description := "Create professional contact forms using Contact Form 7 and Gravity Forms for client communication.",
        detailedDescription := "Master WordPress contact form creation and configuration. Learn Contact Form 7 installation, customization, and explore premium alternatives like Gravity Forms for advanced functionality.",
        category := "WordPress Forms",
        features := [
          "3 detailed video modules",
          "5 hours of form training",
          "Contact Form 7 mastery",
          "Gravity Forms introduction",
          "Form customization techniques",
          "User interaction optimization"
        ],
        specifications := [
          ("Duration", "5 hours"),
          ("Videos", "3 detailed modules"),
          ("Level", "Advanced"),
          ("Topics", "Contact forms, user interaction, plugins"),
          ("Forms", "Multiple form implementations"),
          ("Access", "12 months"),
          ("Bonus", "Form optimization guide")
        ]),
      // course 9
      CourseText(
        name := "WordPress Hosting & Deployment with Flywheel",
        description := "Learn professional WordPress hosting setup, Flywheel deployment, and local-to-live site management.",
        detailedDescription := "Master WordPress hosting and deployment using Flywheel. Learn to set up hosting accounts, push/pull sites between local and live environments, and manage professional WordPress deployments.",
        category := "WordPress Hosting",
        features := [
          "3 comprehensive video modules",
          "6 hours of hosting training",
          "Flywheel hosting setup",
          "Local to live deployment",
          "Site management workflows",
          "Backup and security practices"
        ],
        specifications := [
          ("Duration", "6 hours"),
          ("Videos", "3 comprehensive modules"),
          ("Level", "Advanced"),
          ("Topics", "Hosting, deployment, site management"),
          ("Projects", "Complete deployment workflow"),
          ("Access", "15 months"),
          ("Bonus", "Hosting comparison guide")
        ]),
      // course 10
      CourseText(
        name := "WordPress Page Builders & Advanced Customization",
        description := "Master WordPress page builders, demo content installation, and advanced template customization.",
        detailedDescription := "Learn advanced WordPress customization using page builders, demo content installation, and template-based page creation for rapid website development.",
        category := "WordPress Page Builders",
        features := [
          "3 detailed video modules",
          "7 hours of page builder training",
          "Page builder mastery",
          "Demo content installation",
          "Template customization",
          "Workflow optimization"
        ],
        specifications := [
          ("Duration", "7 hours"),
          ("Videos", "3 detailed modules"),
          ("Level", "Advanced"),
          ("Topics", "Page builders, templates, customization"),
          ("Features", "Advanced layouts, content blocks"),
          ("Access", "15 months"),
          ("Bonus", "Page builder comparison guide")
        ]),
      // course 11
      CourseText(
        name := "Real Client WordPress Project: Complete Case Study",
        description := "Follow a complete real client WordPress project from backup to final delivery with professional workflows.",
        detailedDescription := "Experience a real client WordPress project from start to finish. Learn professional workflows including site backup, theme installation, logo setup, and rapid page creation using templates.",
        category := "WordPress Client Work",
        features := [
          "4 comprehensive video modules",
          "8 hours of client project training",
          "Real client case study",
          "Professional backup procedures",
          "Theme setup and configuration",
          "Template-based rapid development"
        ],
        specifications := [
          ("Duration", "8 hours"),
          ("Videos", "4 comprehensive modules"),
          ("Level", "Expert"),
          ("Topics", "Client work, project management, delivery"),
          ("Projects", "Complete client website build"),
          ("Access", "18 months"),
          ("Bonus", "Client workflow templates")
        ])
  ]

  /**
   * What the hand-written fields say: courses 1 to 11 in ascending order,
   * each priced above zero and in stock, and `videos` set exactly on the
   * records of courses 5 to 11.
   */
  lemma ListingsFacts()
    ensures |Listings| == 11
    ensures forall i :: 0 <= i < |Listings| ==> Listings[i].id == i + 1
    ensures forall i :: 0 <= i < |Listings| ==> Listings[i].price > 0.0 && Listings[i].inStock
    ensures forall i :: 0 <= i < |Listings| ==> (Listings[i].multiVideo <==> 5 <= Listings[i].id <= 11)
  {
  }

  /**
   * A record whose `videos` field is set exactly when the resolver has a
   * list for its id carries, in every media field, the resolver's value for
   * its own id.
   */
  lemma RecordMedia(publicUrl: Option<string>, texts: seq<CourseText>, listing: Listing)
    requires listing.multiVideo <==> 5 <= listing.id <= 11
    ensures var p := Record(publicUrl, texts, listing);
            && p.id == listing.id
            && p.image == ProductImage(publicUrl, p.id, 1)
            && p.images == ProductImages(publicUrl, p.id)
            && p.video == ProductVideo(publicUrl, p.id)
            && p.videos == ProductVideos(publicUrl, p.id)
  {
  }

  /** The catalog holds courses 1 to 11, listed in ascending order of id. */
  lemma CatalogIds(publicUrl: Option<string>, texts: seq<CourseText>)
    ensures |Products(publicUrl, texts)| == 11
    ensures forall i :: 0 <= i < |Products(publicUrl, texts)| ==> Products(publicUrl, texts)[i].id == i + 1
  {
    ListingsFacts();
  }

  /** No two records share an id. */
  lemma CatalogIdsUnique(publicUrl: Option<string>, texts: seq<CourseText>)
    ensures forall i, j :: 0 <= i < j < |Products(publicUrl, texts)| ==>
              Products(publicUrl, texts)[i].id < Products(publicUrl, texts)[j].id
  {
    CatalogIds(publicUrl, texts);
  }

  /** Every record's media fields are what the resolver gives for the record's own id. */
  lemma CatalogMediaFromResolver(publicUrl: Option<string>, texts: seq<CourseText>)
    ensures forall i :: 0 <= i < |Products(publicUrl, texts)| ==>
              var p := Products(publicUrl, texts)[i];
              && p.image == ProductImage(publicUrl, p.id, 1)
              && p.images == ProductImages(publicUrl, p.id)
              && p.video == ProductVideo(publicUrl, p.id)
              && p.videos == ProductVideos(publicUrl, p.id)
  {
    ListingsFacts();
    forall i | 0 <= i < |Listings| {
      RecordMedia(publicUrl, texts, Listings[i]);
    }
  }

  /**
   * The catalog-wide invariants: one image, equal to `image`; a preview
   * video; in stock; a positive price; the multi-video list exactly for the
   * courses 5 to 11.
   */
  lemma CatalogInvariants(publicUrl: Option<string>, texts: seq<CourseText>)
    ensures forall i :: 0 <= i < |Products(publicUrl, texts)| ==>
              var p := Products(publicUrl, texts)[i];
              && p.images == [p.image]
              && p.video.Some?
              && p.inStock
              && p.price > 0.0
              && (p.videos.Some? <==> 5 <= p.id <= 11)
  {
    ListingsFacts();
    CatalogMediaFromResolver(publicUrl, texts);
  }

  /** Every URL a record holds (image, images, video, videos) starts with `base`. */
  predicate UrlsServedFrom(base: string, p: Product) {
    && ServedFrom(base, p.image)
    && (forall k :: 0 <= k < |p.images| ==> ServedFrom(base, p.images[k]))
    && (p.video.Some? ==> ServedFrom(base, p.video.value))
    && (p.videos.Some? ==> forall k :: 0 <= k < |p.videos.value| ==> ServedFrom(base, p.videos.value[k]))
  }

  /** Every URL in the catalog is served from the base URL in force when the list is built. */
  lemma CatalogUrlsServedFromBase(publicUrl: Option<string>, texts: seq<CourseText>)
    ensures forall i :: 0 <= i < |Products(publicUrl, texts)| ==>
              UrlsServedFrom(BaseUrl(publicUrl), Products(publicUrl, texts)[i])
  {
    CatalogMediaFromResolver(publicUrl, texts);
  }

  /** With PUBLIC_URL unset, every URL of the catalog is served from the default origin. */
  lemma UnsetBaseUsesDefaultOrigin(texts: seq<CourseText>)
    ensures forall i :: 0 <= i < |Products(None, texts)| ==>
              UrlsServedFrom(DefaultOrigin, Products(None, texts)[i])
  {
    CatalogUrlsServedFromBase(None, texts);
  }

  /**
   * The exported `products` list carries the catalog's invariants: courses 1
   * to 11 in order, each with its one image, a preview video, stock, a
   * positive price, a video list exactly for courses 5 to 11, and every URL
   * served from the base.
   */
  lemma ExportedCatalog(publicUrl: Option<string>)
    ensures |ExportedProducts(publicUrl)| == 11
    ensures forall i :: 0 <= i < |ExportedProducts(publicUrl)| ==>
              var p := ExportedProducts(publicUrl)[i];
              && p.id == i + 1
              && p.images == [p.image]
              && p.video.Some?
              && p.inStock
              && p.price > 0.0
              && (p.videos.Some? <==> 5 <= p.id <= 11)
              && UrlsServedFrom(BaseUrl(publicUrl), p)
  {
    CatalogIds(publicUrl, CourseTexts);
    CatalogInvariants(publicUrl, CourseTexts);
    CatalogUrlsServedFromBase(publicUrl, CourseTexts);
  }
}
