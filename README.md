# Course catalog media resolver — a Dafny model

This project models the data module of a storefront that sells video courses.
The module is `src/data/products.ts`, and it has two parts:

- **The media-path resolver.** It composes absolute URLs from the base URL (`PUBLIC_URL`, or
  `https://www.design-ecourses.com` when that is unset or empty):
  - a course's cover image: the same `img_8.jpg` placeholder for every course;
  - its preview video, for ids 1 to 30;
  - its list of segment videos, for the multi-video courses 5 to 11, from a hand-written table
    of segment numbers.
- **The catalog.** An ordered list of eleven product records. Each record's `image`, `images`,
  `video` and `videos` fields come from the resolver, called with the record's own id.

The module is pure, so the model is datatypes, functions and lemmas:

- `Wrappers.dfy` — `Option`, standing for TypeScript's `T | undefined`.
- `Decimal.dfy` — how a template literal renders a whole number up to 2^53, the safe integers (`FromNat`). It also
  holds the inverse parser, `ToNat`, with round trips in both directions.
- `MediaPaths.dfy` — the resolver:
  - `BaseUrl`, `VideoPath`, and `VideoPathLogged` (getVideoPath with its console output made explicit);
  - `ProductImage`, `ProductImages`, `ProductVideo`;
  - `VideoSegments` (the table) and `ProductVideos`.
  - `SegmentOf` exists only to specify the resolver. It reads the segment number back out of a
    video URL, and it is proved to be the exact inverse of the URL builder. That inverse gives the
    injectivity results and lets the table be stated on the URLs themselves.
- `Catalog.dfy` — the `Product` record and the catalog:
  - `Listings` holds the hand-written fields of each record: id, price, whether the record sets
    `videos`, and `inStock`.
  - `CourseTexts` holds each course's prose verbatim.
  - `Record` builds one product, calling the resolver with the listing's id.
  - `ExportedProducts(publicUrl)` is the exported `products` list.

The environment is not read. `publicUrl: Option<string>` is the value of `PUBLIC_URL`, with `None`
for unset. `Env` also carries `REACT_APP_DEBUG_VIDEOS` and `NODE_ENV` for the logging variant.

## Model

| member | source | states |
|---|---|---|
| `MediaPaths.BaseUrl` | src/data/products.ts:24 | the base is PUBLIC_URL when it is set and non-empty, and the default origin when it is unset or empty; it is never empty |
| `MediaPaths.VideoPath` | src/data/products.ts:23-38 | the video URL is the base, then `/videos/`, then the file name: its length, prefix, directory segment and suffix |
| `MediaPaths.VideoPathLogged` | src/data/products.ts:23-38 | the returned path equals `VideoPath` whatever the debug switches; no console lines when debugging is off; six lines when it is on (enabled by `REACT_APP_DEBUG_VIDEOS === 'true'` or `NODE_ENV === 'development'`), the fifth naming the returned path |
| `MediaPaths.DebugEnabled` | src/data/products.ts:29 | logging is on when REACT_APP_DEBUG_VIDEOS is exactly `true` or NODE_ENV is `development`, and off when both are unset |
| `MediaPaths.LoggingDoesNotChangePath` | src/data/products.ts:29-36 | two environments with the same PUBLIC_URL give the same path, whatever their debug settings |
| `Decimal.FromNat` | src/data/products.ts:57 | the rendered id is a non-empty string of decimal digits with no leading zero |
| `Decimal.ToNat` | src/data/products.ts:57 | reading digits back succeeds exactly on non-empty all-digit strings |
| `Decimal.ToNatFromNat` | src/data/products.ts:57 | reading back a rendered number gives the number |
| `Decimal.FromNatToNat` | src/data/products.ts:57 | rendering the value of a canonical digit string gives the string back |
| `Decimal.FromNatInjective` | src/data/products.ts:57 | distinct numbers render as distinct strings (both directions) |
| `MediaPaths.VideoFileName` | src/data/products.ts:57 | the file name is the series title and ` (`, then the number's canonical digits (no leading zero), which read back as the number, then `).mp4` |
| `MediaPaths.SegmentVideo` | src/data/products.ts:65-66 | createVideoPath gives a URL served from the base whose segment number reads back as `num` |
| `MediaPaths.SegmentUrlShape` | src/data/products.ts:57-58 | a segment URL is the segment prefix, the number's digits and `).mp4` |
| `MediaPaths.SegmentOfVideoPath` | src/data/products.ts:57-58 | the segment number is recovered from the URL built for it |
| `MediaPaths.SegmentOfSound` | src/data/products.ts:57-58 | every URL the decoder accepts is the URL built for the number it reads |
| `MediaPaths.SegmentOfIsInverse` | src/data/products.ts:57-58 | decoding gives n if and only if the URL is the one built for segment n |
| `MediaPaths.VideoPathSegmentInjective` | src/data/products.ts:65-66 | two segment URLs are equal if and only if their segment numbers are |
| `MediaPaths.ProductImage` | src/data/products.ts:42-46 | the image URL is the base followed by `/images/img_8.jpg` |
| `MediaPaths.ProductImageIgnoresArguments` | src/data/products.ts:42-46 | the image URL depends on neither the product id nor the image index |
| `MediaPaths.ImageIsNotVideo` | src/data/products.ts:45 | an image URL never equals a video URL under the same base |
| `MediaPaths.ProductImages` | src/data/products.ts:49-52 | the image list has exactly one element, the image at the default index 1 |
| `MediaPaths.ProductVideo` | src/data/products.ts:55-61 | a preview exists if and only if 1 <= id <= 30; when present it is the video path of the series file numbered by the id |
| `MediaPaths.ProductVideoNamesId` | src/data/products.ts:55-61 | a present preview URL decodes to the product id |
| `MediaPaths.ProductVideoInjective` | src/data/products.ts:55-61 | two courses with previews share one if and only if they are the same course |
| `MediaPaths.SegmentVideos` | src/data/products.ts:65-66 | createVideoPath applied to each segment number: same length, element i is the URL of segment i |
| `MediaPaths.VideoSegments` | src/data/products.ts:64-96 | the table has an entry exactly for ids 5 to 11; entries have lengths 2,2,2,3,3,3,4; every segment is in 1..30; no entry repeats a segment |
| `MediaPaths.ProductVideos` | src/data/products.ts:64-96 | a video list exists if and only if 5 <= id <= 11 |
| `MediaPaths.SegmentsOf` | src/data/products.ts:64-96 | decoding a list of URLs, when it succeeds, gives one number per URL |
| `MediaPaths.SegmentsOfSegmentVideos` | src/data/products.ts:65-92 | decoding the URLs of a list of segments gives that list back, in order |
| `MediaPaths.ProductVideosNameSegments` | src/data/products.ts:64-96 | the URLs of course 5..11 decode to exactly its table entry, in presentation order |
| `MediaPaths.ProductVideosArePreviews` | src/data/products.ts:64-96 | element i of a course's video list is the single-video URL `getProductVideo(seg)` of the i-th segment of its table entry |
| `MediaPaths.ProductVideosDistinct` | src/data/products.ts:69-92 | no course's video list contains the same URL twice |
| `Catalog.ListingsFacts` | src/data/products.ts:100-415 | the hand-written fields of the records, held in `Listings`: 11 records; ids 1..11 in order; every price > 0; every record in stock; `videos` set exactly on ids 5..11 |
| `Catalog.Record` | src/data/products.ts:207-236 | a record keeps its listing's id, price and stock flag; `images` is `[image]`; `video` is present exactly for ids 1..30; `videos` is present exactly when the record sets it and the id is in 5..11 |
| `Catalog.Products` | src/data/products.ts:98-417 | one record per listing, in listing order, with each listing's id, price and stock flag |
| `Catalog.RecordMedia` | src/data/products.ts:208-214 | a record carries, in image, images, video and videos, the resolver's values for its own id |
| `Catalog.CatalogIds` | src/data/products.ts:98-417 | the catalog has 11 entries, entry i has id i + 1 |
| `Catalog.CatalogIdsUnique` | src/data/products.ts:98-417 | ids strictly increase along the catalog, so no two entries share one |
| `Catalog.CatalogMediaFromResolver` | src/data/products.ts:98-417 | every entry's media fields equal getProductImage, getProductImages, getProductVideo and getProductVideos at the entry's id |
| `Catalog.CatalogInvariants` | src/data/products.ts:98-417 | every entry has `images == [image]` (so non-empty), a present video, `inStock`, a positive price, and `videos` present exactly for ids 5..11 |
| `Catalog.CatalogUrlsServedFromBase` | src/data/products.ts:98-417 | every URL of every entry (`image`, each of `images`, `video`, each of `videos`) starts with the base URL in force |
| `Catalog.UnsetBaseUsesDefaultOrigin` | src/data/products.ts:24 | with PUBLIC_URL unset, every URL of every entry (`image`, `images`, `video`, `videos`) starts with the default origin |
| `Catalog.ExportedCatalog` | src/data/products.ts:98-417 | the exported `products` list (`ExportedProducts`, built with the authored text) has 11 entries with ids 1..11 in order, each with `images == [image]`, a preview video, stock, a positive price, `videos` exactly for ids 5..11, and every URL served from the base |

## Left out

- Reading `process.env` is not modelled. PUBLIC_URL, REACT_APP_DEBUG_VIDEOS and NODE_ENV are parameters.
- Console output is not performed. `VideoPathLogged` returns the lines that would be printed, each
  being the `console.log` arguments joined by one space.
- Catalog lemmas: they are stated for `Products(publicUrl, texts)` with any course text. The exported
  list is the instance `texts := CourseTexts`, and `ExportedCatalog` restates them for it by name.
- Course prose: no property is proved about names, descriptions, categories, features or
  specifications (non-emptiness, for one).
- `specifications`: kept as an ordered list of key/value pairs, the insertion order of the source
  object. Key uniqueness, which a JavaScript object guarantees, is not stated.
- Catalog layout: the literal array is modelled as a table of the hand-written fields (`Listings`)
  plus one builder (`Record`) that calls the resolver with the record's id. This computes the same
  records as the source's per-record helper calls.
- `products` is a constant evaluated once at module load. It is modelled as a function of PUBLIC_URL.
- Prices: JavaScript floating-point numbers in the source, Dafny `real` literals here. Nothing computes with them.
- Product ids: JavaScript numbers in the source, `int` here. A fractional id such as 2.5, which the
  range test would let through, is not represented.
- Segment numbers: `nat`, since all are positive integer literals.
- `Decimal.FromNat`: renders every `nat` in exact plain digits, which matches JavaScript only up to
  2^53 (the safe integers). Between 2^53 and 10^21 JavaScript writes the shortest digits that round
  back to the same double, padded with zeros (`${2**60}` is "1152921504606847000"); from 10^21 up it
  uses exponent form (`1e+21`). So `FromNat`, `VideoFileName` and the lemmas stated for all `nat`
  match the source only up to 2^53. No behaviour of the core is affected: the source
  interpolates only the numbers 1 to 30.
- The default parameter of getProductImage (`imageIndex = 1`) is explicit: `ProductImages` passes 1.
- The storefront that renders the catalog, and the existence of the referenced media files on a
  server, are outside this module.
- `MediaPaths.ProductImage`, `MediaPaths.VideoPath`: these contracts describe the URL by its parts,
  because the whole URL is the concatenation itself. What they mean for callers is proved
  separately: `ProductImageIgnoresArguments`, `ImageIsNotVideo`, and the `SegmentOf` inverse lemmas.
- getProductImage takes a second argument, `imageIndex` (default 1), which it ignores
  (products.ts:42-46). `ProductImage` keeps that argument.
- Logging is on only when `REACT_APP_DEBUG_VIDEOS === 'true'` or `NODE_ENV === 'development'`
  (products.ts:29). Other truthy values do not turn it on, and `DebugEnabled` models exactly that test.
