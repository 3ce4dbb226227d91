/**
 * The four default performer categories shown on the home page, and the
 * case-insensitive lookup of a category by its title.
 */
module CategoryData {
  import opened Wrappers
  import opened Text
  import opened Seqs
  import PriceUtils

  datatype Category = Category(
    title: string,
    description: string,
    priceInRupees: nat,
    imageUrl: string,
    href: string)

  const DefaultCategories: seq<Category> := [
    Category("Singers",
      "Solo singers, singing guitarists, singing pianists, unique original artists and much more!",
      15000, "/images/categories/singers.jpg", "/artists?category=singers"),
    Category("Dancers",
      "Professional dancers for all styles - contemporary, hip-hop, ballroom, and cultural performances.",
      20000, "/images/categories/dancers.jpg", "/artists?category=dancers"),
    Category("Speakers",
      "Motivational speakers, keynote presenters, and industry experts for your events.",
      35000, "/images/categories/speakers.jpg", "/artists?category=speakers"),
    Category("DJs",
      "Pop, Rock, Jazz, Electronic, Soul & Motown... you name it - we've got it!",
      25000, "/images/categories/djs.jpg", "/artists?category=djs")]

  /** The `find` callback `category => category.title.toLowerCase() === title.toLowerCase()`. */
  function TitleIs(title: string): Category -> bool {
    (c: Category) => Lower(c.title) == Lower(title)
  }

  /** `getCategoryByTitle`: the first default category whose title matches ignoring case. */
  function GetCategoryByTitle(title: string): (r: Option<Category>)
    ensures r.None? <==> forall i :: 0 <= i < |DefaultCategories| ==> Lower(DefaultCategories[i].title) != Lower(title)
    ensures r.Some? ==> r.value in DefaultCategories && Lower(r.value.title) == Lower(title)
  {
    var r := FindFirst(DefaultCategories, TitleIs(title));
    assert r.None? <==> forall i :: 0 <= i < |DefaultCategories| ==> !TitleIs(title)(DefaultCategories[i]);
    r
  }

  /** The four titles differ even ignoring case. */
  lemma TitlesDistinct()
    ensures forall i, j :: 0 <= i < j < |DefaultCategories| ==>
              Lower(DefaultCategories[i].title) != Lower(DefaultCategories[j].title)
  {
    var t := seq(4, k requires 0 <= k < 4 => Lower(DefaultCategories[k].title));
    assert t[0][0] == 's' && t[0][1] == 'i';
    assert t[1][0] == 'd' && t[1][1] == 'a';
    assert t[2][0] == 's' && t[2][1] == 'p';
    assert t[3][0] == 'd' && t[3][1] == 'j';
  }

  /** Looking up a default title in any casing returns that category. */
  lemma LookupAnyCasing(k: int, title: string)
    requires 0 <= k < |DefaultCategories|
    requires Lower(title) == Lower(DefaultCategories[k].title)
    ensures GetCategoryByTitle(title) == Some(DefaultCategories[k])
  {
    TitlesDistinct();
    FindFirstAt(DefaultCategories, TitleIs(title), k);
  }

  /** The lower-case slug of a card's link finds its category. */
  lemma SlugFindsCategory()
    ensures GetCategoryByTitle("singers") == Some(DefaultCategories[0])
  {
    assert Lower("singers") == Lower(DefaultCategories[0].title);
    LookupAnyCasing(0, "singers");
  }

  /** A title outside the four gives no category. */
  lemma UnknownTitle()
    ensures GetCategoryByTitle("Poets") == None
  {
    var l := Lower("Poets");
    assert l[0] == 'p';
    forall i | 0 <= i < |DefaultCategories| ensures Lower(DefaultCategories[i].title) != l {
      assert Lower(DefaultCategories[i].title)[0] != 'p';
    }
  }

  /** This file's `formatIndianPrice`: "From ₹" and the `en-IN` number. */
  function FormatFromPrice(price: nat): (r: string)
    ensures r == PriceUtils.FormatPriceWithFrom(price)
  {
    "From " + [PriceUtils.Rupee] + PriceUtils.LocaleIN(price)
  }
}
