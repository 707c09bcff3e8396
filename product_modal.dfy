/**
 * The "Add New Product" dialog: the draft record the form edits, its fixed
 * initial value, the handlers that change it, the fixed list of categories
 * it offers and the label each category is shown with.
 */
module ProductModal {
  import opened Strings

  /** The inputs of the form, one per field of the draft record. */
  datatype Field =
    | Title | Price | Description | Category | Brand
    | Stock | Rating | DiscountPercentage | AvailabilityStatus | Thumbnail

  /** `formData`: every input holds the text the user typed (or a data URL for the image). */
  datatype FormData = FormData(
    title: string,
    price: string,
    description: string,
    category: string,
    brand: string,
    stock: string,
    rating: string,
    discountPercentage: string,
    availabilityStatus: string,
    thumbnail: string)
  {
    /** The value of one input, `formData[name]`. */
    function Get(f: Field): string {
      match f
      case Title => title
      case Price => price
      case Description => description
      case Category => category
      case Brand => brand
      case Stock => stock
      case Rating => rating
      case DiscountPercentage => discountPercentage
      case AvailabilityStatus => availabilityStatus
      case Thumbnail => thumbnail
    }

    /** `{ ...formData, [name]: value }`: that input changes and no other does. */
    function With(f: Field, v: string): (r: FormData)
      ensures r.Get(f) == v
      ensures forall g :: g != f ==> r.Get(g) == Get(g)
    {
      match f
      case Title => this.(title := v)
      case Price => this.(price := v)
      case Description => this.(description := v)
      case Category => this.(category := v)
      case Brand => this.(brand := v)
      case Stock => this.(stock := v)
      case Rating => this.(rating := v)
      case DiscountPercentage => this.(discountPercentage := v)
      case AvailabilityStatus => this.(availabilityStatus := v)
      case Thumbnail => this.(thumbnail := v)
    }
  }

  const InStock := "In Stock"

  /**
   * The value the form starts with and is reset to after a submission:
   * every input empty except the availability, which reads "In Stock".
   */
  function EmptyForm(): (d: FormData)
    ensures forall f :: d.Get(f) == (if f == AvailabilityStatus then InStock else "")
  {
    FormData("", "", "", "", "", "", "", "", InStock, "")
  }

  /** The categories the form's drop-down offers, in the order shown. */
  const Categories: seq<string> := [
    "beauty", "fragrances", "furniture", "groceries",
    "home-decoration", "kitchen-accessories", "laptops",
    "mens-shirts", "mens-shoes", "mens-watches",
    "mobile-accessories", "motorcycle", "skin-care",
    "smartphones", "sports-accessories", "sunglasses",
    "tablets", "tops", "vehicle", "womens-bags",
    "womens-dresses", "womens-jewellery", "womens-shoes",
    "womens-watches"
  ]

  /** Lower-case words of at least one letter, separated by single hyphens. */
  predicate IsSlug(s: string) {
    s != [] && s[0] != '-' && s[|s| - 1] != '-'
    && (forall i :: 0 <= i < |s| ==> 'a' <= s[i] <= 'z' || s[i] == '-')
    && (forall i :: 0 < i < |s| ==> s[i] == '-' ==> s[i - 1] != '-')
  }

  /** Strict lexicographic order on texts. */
  predicate Before(a: string, b: string) {
    (a != [] && b != [] && (a[0] < b[0] || (a[0] == b[0] && Before(a[1..], b[1..]))))
    || (a == [] && b != [])
  }

  lemma {:induction false} BeforeTransitive(a: string, b: string, c: string)
    requires Before(a, b) && Before(b, c)
    ensures Before(a, c)
  {
    if a != [] && b != [] && c != [] && a[0] == b[0] == c[0] {
      BeforeTransitive(a[1..], b[1..], c[1..]);
    }
  }

  lemma {:induction false} BeforeIrreflexive(a: string)
    ensures !Before(a, a)
  {
    if a != [] {
      BeforeIrreflexive(a[1..]);
    }
  }

  /** Two texts that agree up to position `k` and differ there are ordered by that position. */
  lemma {:induction false} BeforeAt(a: string, b: string, k: nat)
    requires k < |a| && k < |b| && a[k] < b[k]
    requires forall i :: 0 <= i < k ==> a[i] == b[i]
    ensures Before(a, b)
  {
    if k > 0 {
      BeforeAt(a[1..], b[1..], k - 1);
    }
  }

  lemma {:induction false} SortedDistinct(s: seq<string>, i: nat, j: nat)
    requires forall k :: 0 < k < |s| ==> Before(s[k - 1], s[k])
    requires i < j < |s|
    ensures Before(s[i], s[j])
  {
    if i + 1 < j {
      SortedDistinct(s, i, j - 1);
      BeforeTransitive(s[i], s[j - 1], s[j]);
    }
  }

  /** Every entry of the category list is a well-formed category name. */
  lemma CategoriesAreSlugs()
    ensures |Categories| == 24
    ensures forall k :: 0 <= k < |Categories| ==> IsSlug(Categories[k])
  {
    SlugsFrom0();
    SlugsFrom2();
    SlugsFrom4();
    SlugsFrom6();
    SlugsFrom8();
    SlugsFrom10();
    SlugsFrom12();
    SlugsFrom14();
    SlugsFrom16();
    SlugsFrom18();
    SlugsFrom20();
    SlugsFrom22();
  }

  lemma SlugsFrom0()
    ensures IsSlug(Categories[0]) && IsSlug(Categories[1])
  {
  }

  lemma SlugsFrom2()
    ensures IsSlug(Categories[2]) && IsSlug(Categories[3])
  {
  }

  lemma SlugsFrom4()
    ensures IsSlug(Categories[4]) && IsSlug(Categories[5])
  {
  }

  lemma SlugsFrom6()
    ensures IsSlug(Categories[6]) && IsSlug(Categories[7])
  {
  }

  lemma SlugsFrom8()
    ensures IsSlug(Categories[8]) && IsSlug(Categories[9])
  {
  }

  lemma SlugsFrom10()
    ensures IsSlug(Categories[10]) && IsSlug(Categories[11])
  {
  }

  lemma SlugsFrom12()
    ensures IsSlug(Categories[12]) && IsSlug(Categories[13])
  {
  }

  lemma SlugsFrom14()
    ensures IsSlug(Categories[14]) && IsSlug(Categories[15])
  {
  }

  lemma SlugsFrom16()
    ensures IsSlug(Categories[16]) && IsSlug(Categories[17])
  {
  }

  lemma SlugsFrom18()
    ensures IsSlug(Categories[18]) && IsSlug(Categories[19])
  {
  }

  lemma SlugsFrom20()
    ensures IsSlug(Categories[20]) && IsSlug(Categories[21])
  {
  }

  lemma SlugsFrom22()
    ensures IsSlug(Categories[22]) && IsSlug(Categories[23])
  {
  }

  /**
   * For each pair of neighbouring categories, the first position where
   * they differ; the earlier one has the smaller character there.
   */
  const FirstDifference: seq<nat> := [0, 1, 0, 0, 0, 0, 0, 7, 5, 1, 2, 0, 1, 1, 1, 0, 1, 0, 0, 7, 7, 7, 7]

  /** Each category comes strictly before the next one. */
  lemma CategoriesSorted()
    ensures forall k :: 0 < k < |Categories| ==> Before(Categories[k - 1], Categories[k])
  {
    OrderedHead();
    OrderedMiddle();
    OrderedTail();
  }

  lemma OrderedHead()
    ensures forall k :: 1 <= k <= 8 ==> Before(Categories[k - 1], Categories[k])
  {
    forall k | 1 <= k <= 8
      ensures Before(Categories[k - 1], Categories[k])
    {
      BeforeAt(Categories[k - 1], Categories[k], FirstDifference[k - 1]);
    }
  }

  lemma OrderedMiddle()
    ensures forall k :: 9 <= k <= 16 ==> Before(Categories[k - 1], Categories[k])
  {
    forall k | 9 <= k <= 16
      ensures Before(Categories[k - 1], Categories[k])
    {
      BeforeAt(Categories[k - 1], Categories[k], FirstDifference[k - 1]);
    }
  }

  lemma OrderedTail()
    ensures forall k :: 17 <= k <= 23 ==> Before(Categories[k - 1], Categories[k])
  {
    forall k | 17 <= k <= 23
      ensures Before(Categories[k - 1], Categories[k])
    {
      BeforeAt(Categories[k - 1], Categories[k], FirstDifference[k - 1]);
    }
  }

  /** No category is listed twice: the list is in strictly increasing order. */
  lemma CategoriesDistinct()
    ensures forall i, j :: 0 <= i < j < |Categories| ==> Categories[i] != Categories[j]
  {
    CategoriesSorted();
    forall i, j | 0 <= i < j < |Categories|
      ensures Categories[i] != Categories[j]
    {
      SortedDistinct(Categories, i, j);
      BeforeIrreflexive(Categories[i]);
    }
  }

  /**
   * The option label of a category:
   * `cat.split('-').map(w => w.charAt(0).toUpperCase() + w.slice(1)).join(' ')`.
   */
  function CategoryLabel(category: string): string {
    Join(CapitalizeAll(Split(category, '-')), " ")
  }

  /**
   * What the label holds at position `i` of `s`: a space for a hyphen, the
   * upper-cased character at the start of a word, the character itself
   * elsewhere. `atWordStart` says whether position 0 starts a word.
   */
  function LabelChar(s: string, i: nat, atWordStart: bool): char
    requires i < |s|
  {
    if s[i] == '-' then ' '
    else if (i == 0 && atWordStart) || (i > 0 && s[i - 1] == '-') then Upper(s[i])
    else s[i]
  }

  /** The label computed one character at a time, left to right. */
  function Relabel(s: string, atWordStart: bool): (r: string)
    ensures |r| == |s|
    ensures forall i :: 0 <= i < |s| ==> r[i] == LabelChar(s, i, atWordStart)
  {
    if s == [] then []
    else [LabelChar(s, 0, atWordStart)] + Relabel(s[1..], s[0] == '-')
  }

  /**
   * Splitting, capitalising the words and joining them with spaces gives
   * the character-wise scan; the second conjunct covers a text whose first
   * word is not capitalised, which the induction needs.
   */
  predicate ScanAgrees(s: string) {
    var p := Split(s, '-');
    Join(CapitalizeAll(p), " ") == Relabel(s, true)
    && Join([p[0]] + CapitalizeAll(p[1..]), " ") == Relabel(s, false)
  }

  lemma {:induction false} LabelIsScan(s: string)
    ensures ScanAgrees(s)
  {
    if s != [] {
      LabelIsScan(s[1..]);
      if s[0] == '-' {
        ScanStepAtHyphen(s);
      } else {
        ScanStepInWord(s);
      }
    }
  }

  /** A hyphen ends a word: the label gets a space and the next word is capitalised. */
  lemma ScanStepAtHyphen(s: string)
    requires s != [] && s[0] == '-' && ScanAgrees(s[1..])
    ensures ScanAgrees(s)
  {
    var rest := Split(s[1..], '-');
    var p := [[]] + rest;
    assert p[1..] == rest;
    assert CapitalizeAll(p) == [[]] + CapitalizeAll(rest);
    assert ([[]] + CapitalizeAll(rest))[1..] == CapitalizeAll(rest);
  }

  /** Any other character extends the current word. */
  lemma ScanStepInWord(s: string)
    requires s != [] && s[0] != '-' && ScanAgrees(s[1..])
    ensures ScanAgrees(s)
  {
    var rest := Split(s[1..], '-');
    assert [rest[0]] + rest[1..] == rest;
    var p := [[s[0]] + rest[0]] + rest[1..];
    assert p[1..] == rest[1..];
    assert CapitalizeAll(p) == [[Upper(s[0])] + rest[0]] + CapitalizeAll(rest[1..]);
    JoinCons(Upper(s[0]), rest[0], CapitalizeAll(rest[1..]), " ");
    JoinCons(s[0], rest[0], CapitalizeAll(rest[1..]), " ");
    assert CapitalizeAll(rest) == [Capitalize(rest[0])] + CapitalizeAll(rest[1..]);
  }

  /**
   * The label has one character per character of the category: hyphens
   * become spaces, the first letter of each word is upper-cased, and the
   * rest is kept.
   */
  lemma CategoryLabelCharacters(s: string)
    ensures |CategoryLabel(s)| == |s|
    ensures forall i :: 0 <= i < |s| ==> CategoryLabel(s)[i] == LabelChar(s, i, true)
  {
    LabelIsScan(s);
  }

  /** A category without a hyphen only has its first letter capitalised. */
  lemma LabelOfOneWord(s: string)
    requires s != [] && '-' !in s
    ensures CategoryLabel(s) == [Upper(s[0])] + s[1..]
  {
    CategoryLabelCharacters(s);
    var r := [Upper(s[0])] + s[1..];
    assert forall i :: 0 <= i < |s| ==> CategoryLabel(s)[i] == r[i];
  }

  /** Two hyphenated words become two capitalised words separated by a space. */
  lemma LabelOfTwoWords(a: string, b: string)
    requires a != [] && '-' !in a && b != [] && '-' !in b
    ensures CategoryLabel(a + "-" + b) == Capitalize(a) + " " + Capitalize(b)
  {
    var s := a + "-" + b;
    CategoryLabelCharacters(s);
    var r := Capitalize(a) + " " + Capitalize(b);
    assert |r| == |s|;
    forall i | 0 <= i < |s|
      ensures CategoryLabel(s)[i] == r[i]
    {
      if i < |a| {
        assert s[i] == a[i];
        assert i > 0 ==> s[i - 1] == a[i - 1];
        assert r[i] == Capitalize(a)[i];
      } else if i == |a| {
        assert s[i] == '-';
      } else {
        assert s[i] == b[i - |a| - 1];
        assert s[i - 1] == if i == |a| + 1 then '-' else b[i - |a| - 2];
        assert r[i] == Capitalize(b)[i - |a| - 1];
      }
    }
  }

  lemma HomeDecorationLabel()
    ensures CategoryLabel("home-decoration") == "Home Decoration"
  {
    HomeDecorationWords();
    LabelOfTwoWords("home", "decoration");
    CapitalizedHomeDecoration();
  }

  lemma HomeDecorationWords()
    ensures "home-decoration" == "home" + "-" + "decoration"
  {
  }

  lemma CapitalizedHomeDecoration()
    ensures Capitalize("home") + " " + Capitalize("decoration") == "Home Decoration"
  {
    assert Capitalize("home") == "Home";
    assert Capitalize("decoration") == "Decoration";
  }

  /** The state the dialog keeps while it is open. */
  class ModalState {
    var formData: FormData
    var isSubmitting: bool

    constructor ()
      ensures formData == EmptyForm() && !isSubmitting
    {
      formData := EmptyForm();
      isSubmitting := false;
    }

    /** `handleChange`: the input `name` now holds `value`. */
    method Change(name: Field, value: string)
      modifies this
      ensures formData == old(formData).With(name, value)
      ensures isSubmitting == old(isSubmitting)
    {
      formData := formData.With(name, value);
    }

    /**
     * The first half of `handleSubmit`, up to the `await`: the form is
     * marked as submitting and its current record is handed to `onSubmit`.
     */
    method BeginSubmit() returns (submitted: FormData)
      modifies this
      ensures isSubmitting
      ensures formData == old(formData) && submitted == old(formData)
    {
      isSubmitting := true;
      submitted := formData;
    }

    /**
     * The second half of `handleSubmit`, once `onSubmit` has returned: the
     * form is no longer submitting and is back to its initial value; the
     * owner is then asked to close the dialog.
     */
    method EndSubmit()
      modifies this
      ensures !isSubmitting && formData == EmptyForm()
    {
      isSubmitting := false;
      formData := EmptyForm();
    }

    /** The remove-image button: the thumbnail is cleared and nothing else changes. */
    method ClearThumbnail()
      modifies this
      ensures formData == old(formData).With(Thumbnail, "")
      ensures isSubmitting == old(isSubmitting)
    {
      formData := formData.(thumbnail := "");
    }

    /**
     * `handleImageChange`, given the data URL the chosen file reads as, or
     * `None` when no file was chosen (then nothing changes).
     */
    method ImageChange(file: Option<string>)
      modifies this
      ensures file.None? ==> formData == old(formData)
      ensures file.Some? ==> formData == old(formData).With(Thumbnail, file.value)
      ensures isSubmitting == old(isSubmitting)
    {
      if file.Some? {
        formData := formData.(thumbnail := file.value);
      }
    }
  }
}
