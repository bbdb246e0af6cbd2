/**
 * The fixed registry of label page sizes, the margins derived from each
 * entry's imageable area, and the values handed to the PDF library.
 */
module PageSizes {
  import opened Results

  /** Physical size of a label, in points: `[width, height]`. */
  datatype Dimension = Dimension(width: real, height: real)

  /** The area the label tool guarantees printable: `[Left, Top, Right, Bottom]`, in points. */
  datatype Area = Area(left: real, top: real, right: real, bottom: real)

  datatype Orientation = Portrait | Landscape

  /** Four margins in the PDF library's order `[top, right, bottom, left]`. */
  type Margin = m: seq<real> | |m| == 4 witness [0.0, 0.0, 0.0, 0.0]

  datatype PageSize = PageSize(
    id: string,
    name: string,
    dimension: Dimension,
    imageableArea: Area,
    landscape: bool,
    slug: string)

  const AllSizes: seq<PageSize> := [
    PageSize("Address", "30252 Address",
             Dimension(78.96, 252.0), Area(4.32, 4.32, 76.07, 235.44),
             true, "w79h252"),
    PageSize("ReturnAddress", "30330 Return Address",
             Dimension(54.0, 144.0), Area(4.08, 4.32, 51.12, 127.68),
             true, "w54h144.1"),
    PageSize("Small30334", "30334 2-1/4 in x 1-1/4 in",
             Dimension(162.0, 90.0), Area(2.88, 4.32, 159.12, 85.68),
             false, "30334_2-1_4_in_x_1-1_4_in")
  ]

  /** The imageable area is a non-empty rectangle inside the physical dimension. */
  predicate WellFormed(p: PageSize) {
    && 0.0 <= p.imageableArea.left < p.imageableArea.right <= p.dimension.width
    && 0.0 <= p.imageableArea.top < p.imageableArea.bottom <= p.dimension.height
  }

  function PageLayout(p: PageSize): (l: Orientation)
    ensures l == Landscape <==> p.landscape
    ensures l == Portrait <==> !p.landscape
  {
    if p.landscape then Landscape else Portrait
  }

  function MarginLeft(p: PageSize): real {
    p.imageableArea.left
  }

  function MarginTop(p: PageSize): real {
    p.imageableArea.top
  }

  function MarginRight(p: PageSize): real {
    p.dimension.width - p.imageableArea.right
  }

  function MarginBottom(p: PageSize): real {
    p.dimension.height - p.imageableArea.bottom
  }

  /**
   * The margins, together with the imageable area, partition the physical
   * dimension in each direction; on a well-formed entry none is negative.
   */
  lemma MarginsPartitionDimension(p: PageSize)
    ensures MarginLeft(p) + (p.imageableArea.right - p.imageableArea.left) + MarginRight(p)
            == p.dimension.width
    ensures MarginTop(p) + (p.imageableArea.bottom - p.imageableArea.top) + MarginBottom(p)
            == p.dimension.height
    ensures WellFormed(p) ==>
              MarginLeft(p) >= 0.0 && MarginTop(p) >= 0.0
              && MarginRight(p) >= 0.0 && MarginBottom(p) >= 0.0
  {
  }

  /** Multiset facts about a four-slot array and its rotation by one slot. */
  lemma SeqMultiset4(a: real, b: real, c: real, d: real)
    ensures multiset([a, b, c, d]) == multiset{a, b, c, d}
    ensures multiset([d, a, b, c]) == multiset{a, b, c, d}
  {
  }

  /**
   * The margin array handed to the PDF library. Its slots are read as
   * `[top, right, bottom, left]`; an entry flagged landscape fills them with
   * `[left, top, right, bottom]` instead.
   */
  function PdfMargin(p: PageSize): (m: Margin)
    ensures !p.landscape ==>
              m[0] == MarginTop(p) && m[1] == MarginRight(p)
              && m[2] == MarginBottom(p) && m[3] == MarginLeft(p)
    ensures p.landscape ==>
              m[0] == MarginLeft(p) && m[1] == MarginTop(p)
              && m[2] == MarginRight(p) && m[3] == MarginBottom(p)
  {
    var t, r, b, l := MarginTop(p), MarginRight(p), MarginBottom(p), MarginLeft(p);
    if p.landscape then
      [l, t, r, b]
    else
      [t, r, b, l]
  }

  /** Whatever the flag, the margin array holds the same four margins. */
  lemma PdfMarginIsPermutation(p: PageSize)
    ensures multiset(PdfMargin(p))
            == multiset{MarginTop(p), MarginRight(p), MarginBottom(p), MarginLeft(p)}
  {
    SeqMultiset4(MarginTop(p), MarginRight(p), MarginBottom(p), MarginLeft(p));
  }

  /**
   * Flipping an entry's landscape flag rotates its margin array by one slot:
   * the landscape array is the portrait one with its last slot moved to the front.
   */
  lemma LandscapeMarginIsRotation(p: PageSize)
    ensures PdfMargin(p.(landscape := true))
            == [PdfMargin(p.(landscape := false))[3]] + PdfMargin(p.(landscape := false))[..3]
  {
  }

  /** Page width and height as handed to the PDF library: swapped for a landscape entry. */
  function PdfSize(p: PageSize): (d: Dimension)
    ensures multiset{d.width, d.height} == multiset{p.dimension.width, p.dimension.height}
    ensures !p.landscape ==> d == p.dimension
    ensures p.landscape ==> d.width == p.dimension.height && d.height == p.dimension.width
  {
    if p.landscape then Dimension(p.dimension.height, p.dimension.width)
    else Dimension(p.dimension.width, p.dimension.height)
  }

  /** Flipping the landscape flag swaps the page width and height. */
  lemma PdfSizeSwapsWithFlag(p: PageSize)
    ensures PdfSize(p.(landscape := true)).width == PdfSize(p.(landscape := false)).height
    ensures PdfSize(p.(landscape := true)).height == PdfSize(p.(landscape := false)).width
  {
  }

  /** The first entry of `sizes` whose name equals `name`, like Ruby's `Array#find`. */
  function FindByName(sizes: seq<PageSize>, name: string): (r: Option<PageSize>)
    ensures r.None? <==> forall i | 0 <= i < |sizes| :: sizes[i].name != name
    ensures r.Some? ==>
              exists i | 0 <= i < |sizes| ::
                && sizes[i] == r.value
                && r.value.name == name
                && forall j | 0 <= j < i :: sizes[j].name != name
    decreases |sizes|
  {
    if |sizes| == 0 then None
    else if sizes[0].name == name then Some(sizes[0])
    else
      var r := FindByName(sizes[1..], name);
      assert r.Some? ==> exists i | 0 <= i < |sizes[1..]| ::
        && sizes[1..][i] == r.value
        && forall j | 0 <= j < i :: sizes[1..][j].name != name;
      assert r.Some? ==> exists i | 0 <= i < |sizes| ::
        && sizes[i] == r.value
        && forall j | 0 <= j < i :: sizes[j].name != name;
      r
  }

  /** Lookup by name; `None` models the `nil` returned when no entry matches. */
  function ByName(name: string): (r: Option<PageSize>)
    ensures r.None? <==> forall p | p in AllSizes :: p.name != name
    ensures r.Some? ==> r.value in AllSizes && r.value.name == name
  {
    FindByName(AllSizes, name)
  }

  /** Every registry entry is well formed and no two entries share a name. */
  lemma RegistryInvariant()
    ensures forall p | p in AllSizes :: WellFormed(p)
    ensures forall i, j | 0 <= i < j < |AllSizes| :: AllSizes[i].name != AllSizes[j].name
  {
  }

  /** Because names are distinct, looking an entry up by its name yields exactly that entry. */
  lemma ByNameUnique(p: PageSize)
    requires p in AllSizes
    ensures ByName(p.name) == Some(p)
  {
    RegistryInvariant();
  }
}
